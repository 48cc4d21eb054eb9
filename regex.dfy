/**
 * A small model of Python's `re.match` for the patterns the label builder uses:
 * a sequence of single-character classes, capturing groups of one character and
 * greedy stars, matched from the start of the string (the match need not reach
 * the end of the string).
 */
module Regex {
  import opened Wrappers

  /** A character class: `.` (any character but a newline) or `\d`. */
  datatype CharClass = AnyButNewline | Digit

  /** `\d` is modelled on the ASCII digits `0`..`9`. */
  predicate IsDigit(c: char) {
    '0' <= c <= '9'
  }

  predicate InClass(k: CharClass, c: char) {
    match k
    case AnyButNewline => c != '\n'
    case Digit => IsDigit(c)
  }

  /** One element of a pattern: `k`, `(k)` or `k*`. */
  datatype Element = One(k: CharClass) | Group(k: CharClass) | Star(k: CharClass)

  type Pattern = seq<Element>

  /** The classes of the capturing groups of `pat`, in order. */
  function GroupClasses(pat: Pattern): seq<CharClass> {
    if pat == [] then []
    else (if pat[0].Group? then [pat[0].k] else []) + GroupClasses(pat[1..])
  }

  /**
   * `re.match(pat, s)`: the characters captured by the groups when `pat` matches
   * a prefix of `s`, or None. A star first tries to take one more character and
   * backs off when the rest of the pattern then fails, as Python's engine does.
   */
  function MatchPrefix(pat: Pattern, s: string): (m: Option<string>)
    ensures m.Some? ==> |m.value| == |GroupClasses(pat)|
    ensures m.Some? ==> forall i :: 0 <= i < |m.value| ==> InClass(GroupClasses(pat)[i], m.value[i])
    decreases |pat|, |s|
  {
    if pat == [] then Some([])
    else match pat[0]
      case One(k) =>
        if s != [] && InClass(k, s[0]) then MatchPrefix(pat[1..], s[1..]) else None
      case Group(k) =>
        if s != [] && InClass(k, s[0]) then
          match MatchPrefix(pat[1..], s[1..])
          case Some(rest) => Some([s[0]] + rest)
          case None => None
        else None
      case Star(k) =>
        if s != [] && InClass(k, s[0]) && MatchPrefix(pat, s[1..]).Some? then MatchPrefix(pat, s[1..])
        else MatchPrefix(pat[1..], s)
  }

  /** A trailing `k*` matches every string and captures nothing. */
  lemma {:induction false} TrailingStarMatches(k: CharClass, s: string)
    ensures MatchPrefix([Star(k)], s) == Some([])
    decreases |s|
  {
    if s != [] && InClass(k, s[0]) {
      TrailingStarMatches(k, s[1..]);
    }
    assert [Star(k)][1..] == [];
  }
}
