/** The fixed scenario table of backend/test_scenarios.js, and the rule-based choice the scenario
    runner computes for each entry under its fixed operating costs. The costs below are the exact
    rational values of the simulator's cost for every vehicle. */
module TestScenarios {
  import opened Common
  import opened Scores
  import opened Env
  import opened RunScenarios

  /** One scenario; `expected` is the business expectation, `None` where the table leaves it null. */
  datatype TestScenario = TestScenario(id: string, distKm: real, urgencia: bool, tipoCarga: string,
                                       disponibilidade: Fleet, expected: Option<string>)

  /** The fleet of the training simulation, reused by most scenarios. */
  const DEFAULT_DISPONIBILIDADE: Fleet := Fleet(Some(10), Some(5), Some(2), Some(1))

  const S1: TestScenario := TestScenario("S1", 3.0, false, "pequena", DEFAULT_DISPONIBILIDADE, Some("bike"))
  const S2: TestScenario := TestScenario("S2", 2.0, false, "pequena", Fleet(Some(20), Some(20), Some(5), Some(2)), Some("bike"))
  const S3: TestScenario := TestScenario("S3", 3.0, true, "pequena", DEFAULT_DISPONIBILIDADE, Some("moto"))
  const S4: TestScenario := TestScenario("S4", 20.0, false, "pequena", DEFAULT_DISPONIBILIDADE, Some("moto"))
  const S5: TestScenario := TestScenario("S5", 30.0, false, "media", DEFAULT_DISPONIBILIDADE, Some("moto"))
  const S6: TestScenario := TestScenario("S6", 3.0, false, "grande", DEFAULT_DISPONIBILIDADE, Some("van"))
  const S7: TestScenario := TestScenario("S7", 40.0, false, "grande", DEFAULT_DISPONIBILIDADE, Some("van"))
  const S8: TestScenario := TestScenario("S8", 100.0, true, "grande", DEFAULT_DISPONIBILIDADE, Some("van"))
  const S9: TestScenario := TestScenario("S9", 100.0, false, "grande", DEFAULT_DISPONIBILIDADE, Some("caminhao"))
  const S10: TestScenario := TestScenario("S10", 130.0, false, "grande", DEFAULT_DISPONIBILIDADE, Some("caminhao"))
  const S11: TestScenario := TestScenario("S11", 200.0, false, "grande", DEFAULT_DISPONIBILIDADE, Some("caminhao"))
  const S12: TestScenario := TestScenario("S12", 130.0, true, "grande", DEFAULT_DISPONIBILIDADE, Some("van"))
  const S13: TestScenario := TestScenario("S13", 130.0, false, "grande", Fleet(Some(10), Some(5), Some(2), Some(0)), None)
  const S14: TestScenario := TestScenario("S14", 130.0, false, "grande", Fleet(Some(0), Some(0), Some(1), Some(1)), Some("caminhao"))

  const TEST_SCENARIOS: seq<TestScenario> := [S1, S2, S3, S4, S5, S6, S7, S8, S9, S10, S11, S12, S13, S14]

  /** The runner's cost of every vehicle for one scenario, in VEHICLES order. */
  function ScenarioCosts(sc: TestScenario): (costs: seq<real>)
    ensures |costs| == N_ACTIONS
    ensures forall i :: 0 <= i < N_ACTIONS ==>
              costs[i] == ComputeCost(VEHICLES[i], sc.distKm, RUNNER_BASE_COSTS, sc.urgencia, sc.tipoCarga,
                                      Some(sc.disponibilidade))
  {
    RuleCosts(sc.distKm, sc.urgencia, sc.tipoCarga, Some(sc.disponibilidade), RUNNER_BASE_COSTS)
  }

  /** The vehicle `getRuleBasedBestChoice` reports for a scenario. */
  function RuleVehicle(sc: TestScenario): string
  {
    RuleBest(sc.distKm, sc.urgencia, sc.tipoCarga, Some(sc.disponibilidade), RUNNER_BASE_COSTS)
  }

  /** The rule agrees with the business expectation, or the scenario has none. */
  predicate MeetsExpectation(sc: TestScenario)
  {
    sc.expected.None? || RuleVehicle(sc) == sc.expected.value
  }

  /** The rule picks vehicle `k` when `k` holds the first smallest cost. */
  lemma RuleVehicleIs(sc: TestScenario, k: nat)
    requires IsFirstMin(ScenarioCosts(sc), k)
    ensures k < N_ACTIONS && RuleVehicle(sc) == VEHICLES[k]
  {
    var costs := ScenarioCosts(sc);
    FirstMinUnique(costs, k, FirstMinIndex(costs));
  }

  /** Scenario S1 (3 km, pequena): expected bike. */
  lemma ScenarioS1Choice()
    ensures RuleVehicle(S1) == "bike"
    ensures MeetsExpectation(S1)
  {
    var c := ScenarioCosts(S1);
    assert c[0] == 626.66;
    assert c[1] == 0.0;
    assert c[2] == 636.528;
    assert c[3] == 876.269;
    RuleVehicleIs(S1, 1);
  }

  /** Scenario S2 (2 km, pequena): expected bike. */
  lemma ScenarioS2Choice()
    ensures RuleVehicle(S2) == "bike"
    ensures MeetsExpectation(S2)
  {
    var c := ScenarioCosts(S2);
    assert c[0] == 624.78;
    assert c[1] == 0.0;
    assert c[2] == 632.08;
    assert c[3] == 869.192;
    RuleVehicleIs(S2, 1);
  }

  /** Scenario S3 (3 km, pequena, urgent): expected moto. */
  lemma ScenarioS3Choice()
    ensures RuleVehicle(S3) == "moto"
    ensures MeetsExpectation(S3)
  {
    var c := ScenarioCosts(S3);
    assert c[0] == 4.972;
    assert c[1] == 643.307;
    assert c[2] == 661.8464;
    assert c[3] == 905.2546;
    RuleVehicleIs(S3, 0);
  }

  /** Scenario S4 (20 km, pequena): expected moto. */
  lemma ScenarioS4Choice()
    ensures RuleVehicle(S4) == "moto"
    ensures MeetsExpectation(S4)
  {
    var c := ScenarioCosts(S4);
    assert c[0] == 0.0;
    assert c[1] == 608.89;
    assert c[2] == 180.32;
    assert c[3] == 975.26;
    RuleVehicleIs(S4, 0);
  }

  /** Scenario S5 (30 km, media): expected moto. */
  lemma ScenarioS5Choice()
    ensures RuleVehicle(S5) == "moto"
    ensures MeetsExpectation(S5)
  {
    var c := ScenarioCosts(S5);
    assert c[0] == 0.0;
    assert c[1] == 1610.16;
    assert c[2] == 206.08;
    assert c[3] == 833.49;
    RuleVehicleIs(S5, 0);
  }

  /** Scenario S6 (3 km, grande): expected van. */
  lemma ScenarioS6Choice()
    ensures RuleVehicle(S6) == "van"
    ensures MeetsExpectation(S6)
  {
    var c := ScenarioCosts(S6);
    assert c[0] == 5626.66;
    assert c[1] == 4966.731;
    assert c[2] == 136.528;
    assert c[3] == 276.269;
    RuleVehicleIs(S6, 2);
  }

  /** Scenario S7 (40 km, grande): expected van. */
  lemma ScenarioS7Choice()
    ensures RuleVehicle(S7) == "van"
    ensures MeetsExpectation(S7)
  {
    var c := ScenarioCosts(S7);
    assert c[0] == 5004.6;
    assert c[1] == 5611.43;
    assert c[2] == 231.84;
    assert c[3] == 491.72;
    RuleVehicleIs(S7, 2);
  }

  /** Scenario S8 (100 km, grande, urgent): expected van. */
  lemma ScenarioS8Choice()
    ensures RuleVehicle(S8) == "van"
    ensures MeetsExpectation(S8)
  {
    var c := ScenarioCosts(S8);
    assert c[0] == 5905.672;
    assert c[1] == 9468959.0 / 1500.0;
    assert c[2] == 797.2864;
    assert c[3] == 1271.7432;
    RuleVehicleIs(S8, 2);
  }

  /** Scenario S9 (100 km, grande): expected caminhao. */
  lemma ScenarioS9Choice()
    ensures RuleVehicle(S9) == "caminhao"
    ensures MeetsExpectation(S9)
  {
    var c := ScenarioCosts(S9);
    assert c[0] == 7141.8;
    assert c[1] == 5619.05;
    assert c[2] == 986.4;
    assert c[3] == 41.1;
    RuleVehicleIs(S9, 3);
  }

  /** Scenario S10 (130 km, grande): expected caminhao. */
  lemma ScenarioS10Choice()
    ensures RuleVehicle(S10) == "caminhao"
    ensures MeetsExpectation(S10)
  {
    var c := ScenarioCosts(S10);
    assert c[0] == 7160.4;
    assert c[1] == 5622.86;
    assert c[2] == 1463.68;
    assert c[3] == 215.79;
    RuleVehicleIs(S10, 3);
  }

  /** Scenario S11 (200 km, grande): expected caminhao. */
  lemma ScenarioS11Choice()
    ensures RuleVehicle(S11) == "caminhao"
    ensures MeetsExpectation(S11)
  {
    var c := ScenarioCosts(S11);
    assert c[0] == 7203.8;
    assert c[1] == 5631.75;
    assert c[2] == 1644.0;
    assert c[3] == 623.4;
    RuleVehicleIs(S11, 3);
  }

  /** Scenario S12 (130 km, grande, urgent): expected van. */
  lemma ScenarioS12Choice()
    ensures RuleVehicle(S12) == "van"
    ensures MeetsExpectation(S12)
  {
    var c := ScenarioCosts(S12);
    assert c[0] == 5998.672;
    assert c[1] == 4889737.0 / 750.0;
    assert c[2] == 962.8864;
    assert c[3] == 1570.6572;
    RuleVehicleIs(S12, 2);
  }

  /** Scenario S13 (130 km, grande): no expectation; the rule picks van. */
  lemma ScenarioS13Choice()
    ensures RuleVehicle(S13) == "van"
    ensures MeetsExpectation(S13)
  {
    var c := ScenarioCosts(S13);
    assert c[0] == 7160.4;
    assert c[1] == 5622.86;
    assert c[2] == 1463.68;
    assert c[3] == 4985.0;
    RuleVehicleIs(S13, 2);
  }

  /** Scenario S14 (130 km, grande): expected caminhao. */
  lemma ScenarioS14Choice()
    ensures RuleVehicle(S14) == "caminhao"
    ensures MeetsExpectation(S14)
  {
    var c := ScenarioCosts(S14);
    assert c[0] == 12140.0;
    assert c[1] == 10618.0;
    assert c[2] == 1465.84;
    assert c[3] == 215.79;
    RuleVehicleIs(S14, 3);
  }

  /** Every scenario's business expectation agrees with the rule-based choice. */
  lemma AllScenariosMeetExpectation()
    ensures forall sc :: sc in TEST_SCENARIOS ==> MeetsExpectation(sc)
  {
    forall sc | sc in TEST_SCENARIOS
      ensures MeetsExpectation(sc)
    {
      if sc == S1 {
        ScenarioS1Choice();
      } else if sc == S2 {
        ScenarioS2Choice();
      } else if sc == S3 {
        ScenarioS3Choice();
      } else if sc == S4 {
        ScenarioS4Choice();
      } else if sc == S5 {
        ScenarioS5Choice();
      } else if sc == S6 {
        ScenarioS6Choice();
      } else if sc == S7 {
        ScenarioS7Choice();
      } else if sc == S8 {
        ScenarioS8Choice();
      } else if sc == S9 {
        ScenarioS9Choice();
      } else if sc == S10 {
        ScenarioS10Choice();
      } else if sc == S11 {
        ScenarioS11Choice();
      } else if sc == S12 {
        ScenarioS12Choice();
      } else if sc == S13 {
        ScenarioS13Choice();
      } else {
        ScenarioS14Choice();
      }
    }
  }
}
