/** Q-value scores as JavaScript numbers that may be -Infinity (the masking value), with the
    comparison `>`, `Math.max(...xs)`, `Array.prototype.indexOf` and the "first strict maximum"
    that every arg-max loop of the system computes. */
module Scores {
  import opened Common

  datatype Score = NegInf | Fin(v: real)

  /** JavaScript `a > b` on such numbers: -Infinity is below every finite value and not above itself. */
  predicate Above(a: Score, b: Score)
  {
    match a
    case NegInf => false
    case Fin(x) => b.NegInf? || x > b.v
  }

  predicate AllNegInf(s: seq<Score>)
  {
    forall i :: 0 <= i < |s| ==> s[i] == NegInf
  }

  /** `k` holds a largest element of `s` and every element before it is strictly smaller. */
  predicate IsFirstMax(s: seq<Score>, k: int)
  {
    && 0 <= k < |s|
    && (forall j :: 0 <= j < |s| ==> !Above(s[j], s[k]))
    && (forall j :: 0 <= j < k ==> Above(s[k], s[j]))
  }

  /** Position of the first strict maximum that a scan `if (s[i] > max) {max = s[i]; idx = i}`
      started at max = -Infinity finds; `None` when no element beats -Infinity. */
  function FirstMax(s: seq<Score>): (r: Option<nat>)
    ensures r.None? <==> AllNegInf(s)
    ensures r.Some? ==> IsFirstMax(s, r.value) && s[r.value].Fin?
  {
    if s == [] then None
    else
      var init := s[..|s| - 1];
      var last := s[|s| - 1];
      var p := FirstMax(init);
      if p.None? then
        (if last.Fin? then Some(|s| - 1) else None)
      else if Above(last, init[p.value]) then Some(|s| - 1)
      else p
  }

  /** Only one position can be the first strict maximum. */
  lemma FirstMaxUnique(s: seq<Score>, a: int, b: int)
    requires IsFirstMax(s, a) && IsFirstMax(s, b)
    ensures a == b
  {
    assert !Above(s[a], s[b]) && !Above(s[b], s[a]);
  }

  /** JavaScript `Math.max(...s)`; -Infinity for the empty list. */
  function MaxScore(s: seq<Score>): Score
  {
    if s == [] then NegInf
    else
      var m := MaxScore(s[..|s| - 1]);
      if Above(s[|s| - 1], m) then s[|s| - 1] else m
  }

  /** JavaScript `s.indexOf(x)`: first position holding `x`, -1 when absent. */
  function IndexOf(s: seq<Score>, x: Score): (i: int)
    ensures -1 <= i < |s|
    ensures i >= 0 ==> s[i] == x && forall j :: 0 <= j < i ==> s[j] != x
    ensures i == -1 ==> forall j :: 0 <= j < |s| ==> s[j] != x
  {
    if s == [] then -1
    else if s[0] == x then 0
    else
      var k := IndexOf(s[1..], x);
      if k == -1 then -1 else k + 1
  }

  /** JavaScript `x + 1`; -Infinity stays -Infinity. */
  function PlusOne(x: Score): (y: Score)
    ensures x.NegInf? <==> y.NegInf?
    ensures x.Fin? ==> Above(y, x)
  {
    match x
    case NegInf => NegInf
    case Fin(r) => Fin(r + 1.0)
  }

  /** `Math.max(...s)` is the element found by the first-strict-maximum scan, or -Infinity. */
  lemma {:induction false} MaxScoreIsFirstMax(s: seq<Score>)
    ensures FirstMax(s).None? ==> MaxScore(s) == NegInf
    ensures FirstMax(s).Some? ==> MaxScore(s) == s[FirstMax(s).value]
  {
    if s != [] {
      MaxScoreIsFirstMax(s[..|s| - 1]);
    }
  }

  /** `s.indexOf(Math.max(...s))` on a non-empty list is the first strict maximum, or 0 when every
      element is -Infinity. */
  lemma IndexOfMaxIsFirstMax(s: seq<Score>)
    requires s != []
    ensures FirstMax(s).Some? ==> IndexOf(s, MaxScore(s)) == FirstMax(s).value
    ensures FirstMax(s).None? ==> IndexOf(s, MaxScore(s)) == 0
  {
    MaxScoreIsFirstMax(s);
    if FirstMax(s).None? {
      assert s[0] == NegInf;
    }
  }

  /** The largest score is not below any element. */
  lemma {:induction false} MaxScoreBounds(s: seq<Score>, j: int)
    requires 0 <= j < |s|
    ensures !Above(s[j], MaxScore(s))
  {
    MaxScoreIsFirstMax(s);
  }

  /** A list of finite values, as a list of scores. */
  function Lift(q: seq<real>): (s: seq<Score>)
    ensures |s| == |q|
    ensures forall i :: 0 <= i < |q| ==> s[i] == Fin(q[i])
  {
    if q == [] then [] else [Fin(q[0])] + Lift(q[1..])
  }
}
