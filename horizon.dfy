/**
 * Assembly of the planning horizon from two daily feed fetches: the evening
 * of the first day (from the cutoff on) followed by the second day up to
 * the cutoff.
 */
module Horizon {
  import opened Rates

  /** The cutoff time of day, 18:00. */
  const Cutoff: int := 18 * MinutesPerHour

  predicate AtOrAfterCutoff(r: RatePoint)
  {
    TimeOfDay(r.time) >= Cutoff
  }

  predicate BeforeCutoff(r: RatePoint)
  {
    TimeOfDay(r.time) < Cutoff
  }

  /** The points of `rs` that satisfy `keep`, in their original order (a list comprehension with a condition). */
  function Keep(rs: seq<RatePoint>, keep: RatePoint -> bool): (r: seq<RatePoint>)
    ensures |r| <= |rs|
    ensures forall i :: 0 <= i < |r| ==> keep(r[i])
  {
    if rs == [] then []
    else if keep(rs[0]) then [rs[0]] + Keep(rs[1..], keep)
    else Keep(rs[1..], keep)
  }

  /** The horizon: the first day's points from the cutoff on, then the second day's points before it. */
  function AssembleHorizon(first: seq<RatePoint>, second: seq<RatePoint>): seq<RatePoint>
  {
    Keep(first, AtOrAfterCutoff) + Keep(second, BeforeCutoff)
  }

  /** `sub` is `s` with some points left out and the rest in their original order. */
  ghost predicate IsSubsequence(sub: seq<RatePoint>, s: seq<RatePoint>)
    decreases |s|
  {
    if sub == [] then true
    else if s == [] then false
    else if sub[0] == s[0] then IsSubsequence(sub[1..], s[1..])
    else IsSubsequence(sub, s[1..])
  }

  /** A point survives the filter exactly when it is in the input and satisfies the condition. */
  lemma {:induction false} KeepMember(rs: seq<RatePoint>, keep: RatePoint -> bool, x: RatePoint)
    ensures x in Keep(rs, keep) <==> x in rs && keep(x)
  {
    if rs != [] {
      KeepMember(rs[1..], keep, x);
      assert rs == [rs[0]] + rs[1..];
    }
  }

  /** The filter keeps the order of the input. */
  lemma {:induction false} KeepIsSubsequence(rs: seq<RatePoint>, keep: RatePoint -> bool)
    ensures IsSubsequence(Keep(rs, keep), rs)
  {
    if rs != [] {
      KeepIsSubsequence(rs[1..], keep);
    }
  }

  /** The filter keeps every copy of a point that satisfies the condition and none of one that does not. */
  lemma {:induction false} KeepCount(rs: seq<RatePoint>, keep: RatePoint -> bool, x: RatePoint)
    ensures multiset(Keep(rs, keep))[x] == if keep(x) then multiset(rs)[x] else 0
  {
    if rs != [] {
      KeepCount(rs[1..], keep, x);
      assert rs == [rs[0]] + rs[1..];
    }
  }

  /** A subsequence of an increasing series is increasing. */
  lemma {:induction false} SubsequenceIncreasing(sub: seq<RatePoint>, s: seq<RatePoint>)
    requires IsSubsequence(sub, s)
    requires Increasing(s)
    ensures Increasing(sub)
    ensures forall i :: 0 <= i < |sub| ==> sub[i] in s
    decreases |s|
  {
    if sub != [] && s != [] {
      assert Increasing(s[1..]) by {
        forall i, j | 0 <= i < j < |s| - 1
          ensures s[1..][i].time < s[1..][j].time
        {
          assert s[1..][i] == s[i + 1] && s[1..][j] == s[j + 1];
        }
      }
      if sub[0] == s[0] {
        SubsequenceIncreasing(sub[1..], s[1..]);
        forall j | 0 < j < |sub|
          ensures sub[0].time < sub[j].time
        {
          assert sub[j] == sub[1..][j - 1];
          var k :| 0 <= k < |s| - 1 && s[1..][k] == sub[j];
          assert s[k + 1] == sub[j];
        }
        forall i, j | 0 <= i < j < |sub|
          ensures sub[i].time < sub[j].time
        {
          if i > 0 {
            assert sub[i] == sub[1..][i - 1] && sub[j] == sub[1..][j - 1];
          }
        }
        forall i | 0 <= i < |sub|
          ensures sub[i] in s
        {
          if i > 0 {
            assert sub[i] == sub[1..][i - 1];
          }
        }
      } else {
        SubsequenceIncreasing(sub, s[1..]);
      }
    }
  }

  /** A horizon point comes from the first day at or after the cutoff, or from the second day before it. */
  lemma HorizonMember(first: seq<RatePoint>, second: seq<RatePoint>, x: RatePoint)
    ensures x in AssembleHorizon(first, second) <==>
              (x in first && TimeOfDay(x.time) >= Cutoff) || (x in second && TimeOfDay(x.time) < Cutoff)
  {
    KeepMember(first, AtOrAfterCutoff, x);
    KeepMember(second, BeforeCutoff, x);
  }

  /**
   * The horizon is the first day's evening points, in order and each as
   * often as it occurs, followed by the second day's points before the
   * cutoff, in order and each as often as it occurs.
   */
  lemma HorizonParts(first: seq<RatePoint>, second: seq<RatePoint>)
    ensures var h, k := AssembleHorizon(first, second), |Keep(first, AtOrAfterCutoff)|;
      && IsSubsequence(h[..k], first)
      && IsSubsequence(h[k..], second)
      && (forall i :: 0 <= i < k ==> TimeOfDay(h[i].time) >= Cutoff)
      && (forall i :: k <= i < |h| ==> TimeOfDay(h[i].time) < Cutoff)
      && (forall x :: multiset(h[..k])[x] == if TimeOfDay(x.time) >= Cutoff then multiset(first)[x] else 0)
      && (forall x :: multiset(h[k..])[x] == if TimeOfDay(x.time) < Cutoff then multiset(second)[x] else 0)
  {
    var a, b := Keep(first, AtOrAfterCutoff), Keep(second, BeforeCutoff);
    var h := AssembleHorizon(first, second);
    assert h[..|a|] == a && h[|a|..] == b;
    KeepIsSubsequence(first, AtOrAfterCutoff);
    KeepIsSubsequence(second, BeforeCutoff);
    forall i | |a| <= i < |h|
      ensures TimeOfDay(h[i].time) < Cutoff
    {
      assert h[i] == b[i - |a|];
    }
    forall x: RatePoint
      ensures multiset(a)[x] == if TimeOfDay(x.time) >= Cutoff then multiset(first)[x] else 0
      ensures multiset(b)[x] == if TimeOfDay(x.time) < Cutoff then multiset(second)[x] else 0
    {
      KeepCount(first, AtOrAfterCutoff, x);
      KeepCount(second, BeforeCutoff, x);
    }
  }

  /**
   * If each day's feed is in increasing order and the first fetch lies on the
   * day before the second, the assembled horizon is in increasing order.
   */
  lemma HorizonIncreasing(first: seq<RatePoint>, second: seq<RatePoint>, d: int)
    requires Increasing(first) && Increasing(second)
    requires forall i :: 0 <= i < |first| ==> DateOf(first[i].time) == d
    requires forall i :: 0 <= i < |second| ==> DateOf(second[i].time) == d + 1
    ensures Increasing(AssembleHorizon(first, second))
  {
    var a, b := Keep(first, AtOrAfterCutoff), Keep(second, BeforeCutoff);
    var h := AssembleHorizon(first, second);
    KeepIsSubsequence(first, AtOrAfterCutoff);
    KeepIsSubsequence(second, BeforeCutoff);
    SubsequenceIncreasing(a, first);
    SubsequenceIncreasing(b, second);
    forall i, j | 0 <= i < j < |h|
      ensures h[i].time < h[j].time
    {
      if j < |a| {
        assert h[i] == a[i] && h[j] == a[j];
      } else if |a| <= i {
        assert h[i] == b[i - |a|] && h[j] == b[j - |a|];
      } else {
        assert h[i] == a[i] && h[j] == b[j - |a|];
        assert h[i] in first && h[j] in second;
        DateOrder(h[i].time, h[j].time);
      }
    }
  }
}
