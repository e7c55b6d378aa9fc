/** Serving-time action choice of model/model.js: a hard safety mask over the network's Q-values
    followed by a first-strict-maximum scan. The network itself is not modelled: its four outputs
    are the input `qvals`. */
module Policy {
  import opened Common
  import opened Scores

  /** The safety mask on a copy of the Q-values: for large cargo, moto (0) and bike (1) become
      -Infinity; every other score is kept. */
  function Mask(qvals: seq<Score>, tipoCarga: string): (m: seq<Score>)
    requires |qvals| == N_ACTIONS
    ensures |m| == N_ACTIONS
    ensures forall i :: 0 <= i < N_ACTIONS ==>
              m[i] == (if tipoCarga == "grande" && i < 2 then NegInf else qvals[i])
  {
    if tipoCarga == "grande" then [NegInf, NegInf] + qvals[2..] else qvals
  }

  /** The action the policy picks: the first strict maximum of the masked scores; if every
      masked score is -Infinity, the first strict maximum of the original scores (0 when those are
      all -Infinity too). */
  function MaskedChoice(qvals: seq<Score>, tipoCarga: string): (k: nat)
    requires |qvals| == N_ACTIONS
    ensures k < N_ACTIONS
    ensures !AllNegInf(Mask(qvals, tipoCarga)) ==> IsFirstMax(Mask(qvals, tipoCarga), k)
    ensures AllNegInf(Mask(qvals, tipoCarga)) && !AllNegInf(qvals) ==> IsFirstMax(qvals, k)
    ensures AllNegInf(qvals) ==> k == 0
  {
    match FirstMax(Mask(qvals, tipoCarga))
    case Some(k) => k
    case None =>
      match FirstMax(qvals)
      case Some(j) => j
      case None => 0
  }

  /** `escolherMelhorAcao` on the network output `qvals` and the request's cargo size. */
  method EscolherMelhorAcao(qvals: seq<Score>, tipoCarga: string) returns (actionIndex: nat, vehicle: string, qOut: seq<Score>)
    requires |qvals| == N_ACTIONS
    ensures actionIndex == MaskedChoice(qvals, tipoCarga)
    ensures actionIndex < N_ACTIONS && vehicle == VEHICLES[actionIndex]
    ensures qOut == qvals
  {
    var masked := new Score[|qvals|](i requires 0 <= i < |qvals| => qvals[i]);
    if tipoCarga == "grande" {
      masked[0] := NegInf;
      masked[1] := NegInf;
    }
    assert masked[..] == Mask(qvals, tipoCarga);

    var bestIdx, maxVal := ScanFirstMax(masked);
    if maxVal == NegInf {
      IndexOfMaxIsFirstMax(qvals);
      bestIdx := IndexOf(qvals, MaxScore(qvals));
    }
    actionIndex := bestIdx;
    vehicle := VEHICLES[actionIndex];
    qOut := qvals;
  }

  /** The scan of `escolherMelhorAcao`: the first element strictly above every earlier one and
      above -Infinity, with its score; index 0 and -Infinity when there is none. */
  method ScanFirstMax(masked: array<Score>) returns (bestIdx: nat, maxVal: Score)
    ensures FirstMax(masked[..]).None? ==> bestIdx == 0 && maxVal == NegInf
    ensures FirstMax(masked[..]).Some? ==>
              bestIdx == FirstMax(masked[..]).value && bestIdx < masked.Length && maxVal == masked[bestIdx]
  {
    bestIdx := 0;
    maxVal := NegInf;
    for i := 0 to masked.Length
      invariant FirstMax(masked[..i]).None? ==> bestIdx == 0 && maxVal == NegInf
      invariant FirstMax(masked[..i]).Some? ==>
                  bestIdx == FirstMax(masked[..i]).value && bestIdx < i && maxVal == masked[bestIdx]
    {
      assert masked[..i + 1][..i] == masked[..i];
      if Above(masked[i], maxVal) {
        maxVal := masked[i];
        bestIdx := i;
      }
    }
    assert masked[..masked.Length] == masked[..];
  }

  /** Safety: with large cargo and a finite van or truck score, the choice is never moto or bike. */
  lemma LargeCargoNeverSmallVehicle(qvals: seq<Score>)
    requires |qvals| == N_ACTIONS
    requires qvals[2].Fin? || qvals[3].Fin?
    ensures MaskedChoice(qvals, "grande") >= 2
  {
    var m := Mask(qvals, "grande");
    assert !AllNegInf(m) by {
      if qvals[2].Fin? { assert m[2] != NegInf; } else { assert m[3] != NegInf; }
    }
  }

  /** The -Infinity fallback scans the unmasked scores, so it can pick moto for large cargo when the
      network scores van and truck at -Infinity. */
  lemma FallbackIgnoresMask()
    ensures MaskedChoice([Fin(1.0), NegInf, NegInf, NegInf], "grande") == 0
  {
    var q := [Fin(1.0), NegInf, NegInf, NegInf];
    assert AllNegInf(Mask(q, "grande"));
    assert q[0] != NegInf;
  }

  /** Without the large-cargo mask the choice is the first arg-max of the raw scores. */
  lemma UnmaskedIsFirstArgMax(qvals: seq<Score>, tipoCarga: string)
    requires |qvals| == N_ACTIONS && tipoCarga != "grande"
    ensures !AllNegInf(qvals) ==> IsFirstMax(qvals, MaskedChoice(qvals, tipoCarga))
    ensures AllNegInf(qvals) ==> MaskedChoice(qvals, tipoCarga) == 0
  {
  }

  /** The unit test's network output [1, 5, -2, 0] without a cargo context selects bike. */
  lemma TestOutputSelectsBike()
    ensures MaskedChoice([Fin(1.0), Fin(5.0), Fin(-2.0), Fin(0.0)], "") == 1
    ensures VEHICLES[1] == "bike"
  {
    var q := [Fin(1.0), Fin(5.0), Fin(-2.0), Fin(0.0)];
    assert Mask(q, "") == q;
    assert q[1] != NegInf;
    var k := MaskedChoice(q, "");
    assert !Above(q[1], q[k]);
  }
}
