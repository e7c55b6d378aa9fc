/** The scenario runner of backend/run_scenarios_test.js: the arg-max over a network's output and
    the rule-based reference choice, the vehicle whose simulated cost is lowest. */
module RunScenarios {
  import opened Common
  import opened Scores
  import opened Env

  /** Daily operating costs the runner fixes for every scenario. */
  const RUNNER_BASE_COSTS: map<string, real> := map["moto" := 20.0, "bike" := 5.0, "van" := 100.0, "caminhao" := 200.0]

  /** `argMax`: the first strict maximum, or -1 when no element beats -Infinity (an empty list in
      particular). */
  method ArgMax(values: seq<Score>) returns (idx: int)
    ensures idx == -1 <==> AllNegInf(values)
    ensures values == [] ==> idx == -1
    ensures idx != -1 ==> IsFirstMax(values, idx)
  {
    var maxVal := NegInf;
    idx := -1;
    for i := 0 to |values|
      invariant FirstMax(values[..i]).None? ==> idx == -1 && maxVal == NegInf
      invariant FirstMax(values[..i]).Some? ==> idx == FirstMax(values[..i]).value && maxVal == values[idx]
    {
      assert values[..i + 1][..i] == values[..i];
      if Above(values[i], maxVal) {
        maxVal := values[i];
        idx := i;
      }
    }
    assert values[..|values|] == values;
  }

  /** `k` holds a smallest element of `s` and every element before it is strictly larger. */
  predicate IsFirstMin(s: seq<real>, k: int)
  {
    && 0 <= k < |s|
    && (forall j :: 0 <= j < |s| ==> s[k] <= s[j])
    && (forall j :: 0 <= j < k ==> s[j] > s[k])
  }

  /** Position of the first smallest element: the head of a stable ascending sort. */
  function FirstMinIndex(s: seq<real>): (k: nat)
    requires |s| > 0
    ensures IsFirstMin(s, k)
  {
    if |s| == 1 then 0
    else
      var p := FirstMinIndex(s[..|s| - 1]);
      if s[|s| - 1] < s[p] then |s| - 1 else p
  }

  /** The simulated cost of each vehicle, in VEHICLES order. */
  function RuleCosts(distKm: real, urgencia: bool, tipoCarga: string, disponibilidade: Option<Fleet>,
                     baseCosts: map<string, real>): (costs: seq<real>)
    ensures |costs| == N_ACTIONS
    ensures forall i :: 0 <= i < N_ACTIONS ==>
              costs[i] == ComputeCost(VEHICLES[i], distKm, baseCosts, urgencia, tipoCarga, disponibilidade)
  {
    seq(N_ACTIONS, i requires 0 <= i < N_ACTIONS =>
      ComputeCost(VEHICLES[i], distKm, baseCosts, urgencia, tipoCarga, disponibilidade))
  }

  /** The rule-based reference choice: the cheapest vehicle, ties to the earliest in VEHICLES. */
  function RuleBest(distKm: real, urgencia: bool, tipoCarga: string, disponibilidade: Option<Fleet>,
                    baseCosts: map<string, real>): string
  {
    VEHICLES[FirstMinIndex(RuleCosts(distKm, urgencia, tipoCarga, disponibilidade, baseCosts))]
  }

  /** `getRuleBasedBestChoice`: costs every vehicle, then takes the first entry of the costs
      sorted ascending. */
  method GetRuleBasedBestChoice(distKm: real, urgencia: bool, tipoCarga: string, disponibilidade: Option<Fleet>,
                                baseCosts: map<string, real>) returns (bestVehicle: string, costs: seq<real>)
    ensures |costs| == N_ACTIONS
    ensures forall i :: 0 <= i < N_ACTIONS ==>
              costs[i] == ComputeCost(VEHICLES[i], distKm, baseCosts, urgencia, tipoCarga, disponibilidade)
    ensures bestVehicle == VEHICLES[FirstMinIndex(costs)]
    ensures bestVehicle == RuleBest(distKm, urgencia, tipoCarga, disponibilidade, baseCosts)
  {
    ghost var expected := RuleCosts(distKm, urgencia, tipoCarga, disponibilidade, baseCosts);
    costs := [];
    for i := 0 to N_ACTIONS
      invariant costs == expected[..i]
    {
      var c := ComputeCost(VEHICLES[i], distKm, baseCosts, urgencia, tipoCarga, disponibilidade);
      assert expected[..i + 1] == expected[..i] + [c];
      costs := costs + [c];
    }
    assert costs == expected;

    var best := CheapestEntry(costs);
    bestVehicle := VEHICLES[best];
  }

  /** The head of `entries.sort((a, b) => a[1] - b[1])`: the sort is stable, so it is the first
      entry of smallest cost. */
  method CheapestEntry(costs: seq<real>) returns (best: nat)
    requires |costs| > 0
    ensures best == FirstMinIndex(costs)
  {
    best := 0;
    for i := 1 to |costs|
      invariant IsFirstMin(costs[..i], best)
    {
      assert costs[..i + 1][..i] == costs[..i];
      if costs[i] < costs[best] {
        best := i;
      }
    }
    assert costs[..|costs|] == costs;
    FirstMinUnique(costs, best, FirstMinIndex(costs));
  }

  /** Only one position can be the first smallest element. */
  lemma FirstMinUnique(s: seq<real>, a: int, b: int)
    requires IsFirstMin(s, a) && IsFirstMin(s, b)
    ensures a == b
  {
    assert s[a] == s[b];
  }

  /** One pass of the runner's loop: the network `predict` with weights `w`, applied to the
      scenario's state, gives the Q-values; its arg-max vehicle (`None` where `VEHICLES[-1]` is
      undefined) is set against the rule's choice under the runner's operating costs, giving two
      verdicts; the expectation verdict is absent when the scenario has no expectation. The
      network has one output per vehicle. */
  method CompareScenario<W>(distKm: real, urgencia: bool, tipoCarga: string, disponibilidade: Option<Fleet>,
                            expected: Option<string>, w: W, predict: (W, seq<real>) -> seq<Score>)
    returns (qvals: seq<Score>, modelVehicle: Option<string>, ruleVehicle: string, okRegra: bool,
             okExpected: Option<bool>)
    requires |predict(w, BuildState(distKm, urgencia, tipoCarga, disponibilidade))| == N_ACTIONS
    ensures qvals == predict(w, BuildState(distKm, urgencia, tipoCarga, disponibilidade))
    ensures AllNegInf(qvals) ==> modelVehicle.None?
    ensures !AllNegInf(qvals) ==> modelVehicle == Some(VEHICLES[FirstMax(qvals).value])
    ensures ruleVehicle == RuleBest(distKm, urgencia, tipoCarga, disponibilidade, RUNNER_BASE_COSTS)
    ensures okRegra <==> modelVehicle == Some(ruleVehicle)
    ensures expected.None? ==> okExpected.None?
    ensures expected.Some? ==> okExpected == Some(modelVehicle == expected)
  {
    qvals := predict(w, BuildState(distKm, urgencia, tipoCarga, disponibilidade));
    var modelIdx := ArgMax(qvals);
    if modelIdx == -1 {
      modelVehicle := None;
    } else {
      FirstMaxUnique(qvals, modelIdx, FirstMax(qvals).value);
      modelVehicle := Some(VEHICLES[modelIdx]);
    }
    var costs;
    ruleVehicle, costs := GetRuleBasedBestChoice(distKm, urgencia, tipoCarga, disponibilidade, RUNNER_BASE_COSTS);
    okRegra := modelVehicle == Some(ruleVehicle);
    okExpected := if expected.Some? then Some(modelVehicle == expected) else None;
  }
}
