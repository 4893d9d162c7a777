/** The two column statistics the boxplot summary reads by scanning the column
    itself: its smallest and its largest value. The quartiles are supplied by the
    tabular-data library and enter the model as parameters. */
module Stats {

  /** The smallest value of a non-empty column. */
  function Min(s: seq<real>): (m: real)
    requires |s| > 0
    ensures m in s
    ensures forall i :: 0 <= i < |s| ==> m <= s[i]
  {
    if |s| == 1 then s[0]
    else
      var rest := Min(s[1..]);
      if s[0] <= rest then s[0] else rest
  }

  /** The largest value of a non-empty column. */
  function Max(s: seq<real>): (m: real)
    requires |s| > 0
    ensures m in s
    ensures forall i :: 0 <= i < |s| ==> s[i] <= m
  {
    if |s| == 1 then s[0]
    else
      var rest := Max(s[1..]);
      if s[0] >= rest then s[0] else rest
  }

  /** A value no other value undercuts is the minimum, and a value no other
      value exceeds is the maximum. */
  lemma ExtremesAt(s: seq<real>, lo: nat, hi: nat)
    requires lo < |s| && hi < |s|
    requires forall i :: 0 <= i < |s| ==> s[lo] <= s[i] <= s[hi]
    ensures Min(s) == s[lo] && Max(s) == s[hi]
  {
    assert Min(s) <= s[lo];
    assert Max(s) >= s[hi];
  }
}
