/** The level encoded in a warehouse location code (the "Ubicaciones" column). */
module LocationCode {
  import opened Wrappers
  import opened Regex

  /** `^.{3}(\d).*`, with `.{3}` written out as three single elements. */
  const LevelPattern: Pattern := [One(AnyButNewline), One(AnyButNewline), One(AnyButNewline), Group(Digit), Star(AnyButNewline)]

  function DigitValue(c: char): (v: nat)
    requires IsDigit(c)
    ensures v <= 9 && (c as int) == ('0' as int) + v
  {
    (c as int - '0' as int) as nat
  }

  /**
   * `re.match(r'^.{3}(\d).*', code)` followed by `int(match.group(1))`, with
   * 0 when the pattern does not match.
   */
  function RegexLevel(code: string): (level: nat)
    ensures level <= 9
  {
    assert GroupClasses(LevelPattern) == [Digit];
    match MatchPrefix(LevelPattern, code)
    case Some(groups) => DigitValue(groups[0])
    case None => 0
  }

  /**
   * The pattern matches exactly when the code has a fourth character that is a
   * digit and none of the first three is a newline.
   */
  predicate HasLevelDigit(code: string) {
    |code| >= 4 && code[0] != '\n' && code[1] != '\n' && code[2] != '\n' && IsDigit(code[3])
  }

  /** The level of a location code, in closed form: the fourth character's value, or 0. Never fails. */
  function ParseLevel(code: string): (level: nat)
    ensures level <= 9
  {
    if HasLevelDigit(code) then DigitValue(code[3]) else 0
  }

  /** The closed form is what the regular expression yields, for every string. */
  lemma ParseLevelIsRegexLevel(code: string)
    ensures ParseLevel(code) == RegexLevel(code)
  {
    var p := LevelPattern;
    var tail := [Group(Digit), Star(AnyButNewline)];
    assert p[1..][1..][1..] == tail;
    assert tail[1..] == [Star(AnyButNewline)];
    if |code| >= 4 && code[0] != '\n' && code[1] != '\n' && code[2] != '\n' {
      assert MatchPrefix(p, code) == MatchPrefix(p[1..], code[1..]);
      assert MatchPrefix(p[1..], code[1..]) == MatchPrefix(p[1..][1..], code[2..]);
      assert MatchPrefix(p[1..][1..], code[2..]) == MatchPrefix(tail, code[3..]);
      if IsDigit(code[3]) {
        TrailingStarMatches(AnyButNewline, code[4..]);
        assert code[3..][1..] == code[4..];
        assert MatchPrefix(tail[1..], code[3..][1..]) == Some([]);
        assert tail[0] == Group(Digit) && code[3..][0] == code[3];
        assert [code[3]] + [] == [code[3]];
        assert MatchPrefix(tail, code[3..]) == Some([code[3]]);
      } else {
        assert MatchPrefix(tail, code[3..]) == None;
      }
    } else if |code| >= 1 && code[0] != '\n' {
      if |code| >= 2 && code[1] != '\n' {
        if |code| >= 3 && code[2] != '\n' {
          assert MatchPrefix(tail, code[3..]) == None;
        }
        assert MatchPrefix(p[1..][1..], code[2..]) == None;
      }
      assert MatchPrefix(p[1..], code[1..]) == None;
    }
  }
}
