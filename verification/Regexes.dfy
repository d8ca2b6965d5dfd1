/** Regular expressions that match a whole string, as the repository anchors all of its own. */
module Regexes {
  import opened Common

  datatype Regex =
    | Empty
    | Range(low: char, high: char)
    | Then(first: Regex, second: Regex)
    | Either(left: Regex, right: Regex)
    | Many(each: Regex)

  predicate Match(r: Regex, s: string)
    decreases r, |s|
  {
    match r
    case Empty => s == ""
    case Range(low, high) => |s| == 1 && low <= s[0] <= high
    case Then(first, second) => exists k | 0 <= k <= |s| :: Match(first, s[..k]) && Match(second, s[k..])
    case Either(left, right) => Match(left, s) || Match(right, s)
    case Many(each) => s == "" || exists k | 0 < k <= |s| :: Match(each, s[..k]) && Match(r, s[k..])
  }

  function Optional(r: Regex): Regex { Either(Empty, r) }

  const DIGIT := Range('0', '9')
  const NONZERO := Range('1', '9')

  lemma FirstOf(low: char, high: char, r: Regex, s: string)
    ensures Match(Then(Range(low, high), r), s) <==> s != "" && low <= s[0] <= high && Match(r, s[1..])
  {
  }

  lemma OneOf(low: char, high: char, s: string)
    ensures Match(Optional(Range(low, high)), s) <==> s == "" || (|s| == 1 && low <= s[0] <= high)
  {
  }

  lemma {:induction false} ManyDigits(s: string)
    ensures Match(Many(DIGIT), s) <==> AllDigits(s)
    decreases |s|
  {
    if s != "" {
      ManyDigits(s[1..]);
      assert s[..1] == [s[0]];
      if AllDigits(s) { assert Match(DIGIT, s[..1]) && Match(Many(DIGIT), s[1..]); }
    }
  }

  /** [0-9]* followed by what cannot begin with a digit takes all leading digits. */
  lemma ManyThen(r: Regex, s: string)
    requires forall t | Match(r, t) && t != "" :: !IsDigit(t[0])
    ensures Match(Then(Many(DIGIT), r), s) <==> Match(r, s[Leading(s)..])
  {
    var n := Leading(s);
    ManyDigits(s[..n]);
    if k :| 0 <= k <= |s| && Match(Many(DIGIT), s[..k]) && Match(r, s[k..]) {
      ManyDigits(s[..k]);
      assert forall i | 0 <= i < k :: s[..k][i] == s[i];
      assert forall i | 0 <= i < n :: s[..n][i] == s[i];
      assert s[k..] != "" ==> s[k..][0] == s[k];
    }
  }
}
