/** The simulator of backend/rl/env.js: the 9-slot state encoder and the cost of serving one
    delivery request with one vehicle. */
module Env {
  import opened Common

  const MAX_FLEET: real := 50.0
  const DIST_CAP: real := 300.0
  const STATE_DIM: nat := 9
  const CARGO_TYPES: seq<string> := ["pequena", "media", "grande"]

  // Cost constants of the simulator.
  const UNAVAILABLE_PENALTY: real := 5000.0
  const SCARCITY_WEIGHT: real := 0.3
  const SETUP_HOURS: real := 0.16
  const TIME_VALUE_PER_HOUR: real := 80.0

  /** `Math.min(1.0, n / MAX_FLEET)`: a count scaled to the fixed maximum fleet. */
  function FleetFraction(n: int): (r: real)
    ensures n >= 0 ==> 0.0 <= r <= 1.0
    ensures r == 1.0 <==> n as real >= MAX_FLEET
    ensures n as real <= MAX_FLEET ==> r * MAX_FLEET == n as real
  {
    MinReal(1.0, n as real / MAX_FLEET)
  }

  /** Availability slot of one vehicle: a missing record or a missing count reads as 0. */
  function AvailabilitySlot(disponibilidade: Option<Fleet>, vehicle: string): real
  {
    match disponibilidade
    case None => 0.0
    case Some(f) => FleetFraction(Available(f, vehicle))
  }

  /** `buildState`: [distance / 300 capped at 1, urgency, one-hot cargo (pequena, media, grande),
      availability of moto, bike, van, caminhao scaled by MAX_FLEET and capped at 1]. */
  function BuildState(distKm: real, urgencia: bool, tipoCarga: string, disponibilidade: Option<Fleet>): (s: seq<real>)
    ensures |s| == STATE_DIM
    ensures distKm >= 0.0 && (disponibilidade.Some? ==> NonNegativeFleet(disponibilidade.value)) ==>
              forall i :: 0 <= i < |s| ==> 0.0 <= s[i] <= 1.0
    ensures s[0] == 1.0 <==> distKm >= DIST_CAP
    ensures distKm <= DIST_CAP ==> s[0] * DIST_CAP == distKm
    ensures s[1] == 1.0 <==> urgencia
    ensures forall k :: 0 <= k < 3 ==> (s[2 + k] == 0.0 || s[2 + k] == 1.0) && (s[2 + k] == 1.0 <==> tipoCarga == CARGO_TYPES[k])
    ensures tipoCarga !in CARGO_TYPES ==> s[2..5] == [0.0, 0.0, 0.0]
    ensures forall k :: 0 <= k < 4 ==> s[5 + k] == AvailabilitySlot(disponibilidade, VEHICLES[k])
    ensures disponibilidade.None? ==> s[5..] == [0.0, 0.0, 0.0, 0.0]
  {
    [ MinReal(1.0, distKm / DIST_CAP),
      if urgencia then 1.0 else 0.0,
      if tipoCarga == "pequena" then 1.0 else 0.0,
      if tipoCarga == "media" then 1.0 else 0.0,
      if tipoCarga == "grande" then 1.0 else 0.0,
      AvailabilitySlot(disponibilidade, "moto"),
      AvailabilitySlot(disponibilidade, "bike"),
      AvailabilitySlot(disponibilidade, "van"),
      AvailabilitySlot(disponibilidade, "caminhao") ]
  }

  /** `costPerKm[vehicle] || 1.0`. */
  function PerKmRate(vehicle: string): real
  {
    if vehicle == "moto" then 0.5
    else if vehicle == "bike" then 0.1
    else if vehicle == "van" then 2.0
    else if vehicle == "caminhao" then 4.5
    else 1.0
  }

  /** `speeds[vehicle] || 30`, in km/h. */
  function Speed(vehicle: string): (kmh: real)
    ensures kmh >= 15.0
  {
    if vehicle == "moto" then 40.0
    else if vehicle == "bike" then 15.0
    else if vehicle == "van" then 35.0
    else if vehicle == "caminhao" then 25.0
    else 30.0
  }

  /** `baseCosts[vehicle] || 0`. */
  function BaseCost(baseCosts: map<string, real>, vehicle: string): real
  {
    if vehicle in baseCosts then baseCosts[vehicle] else 0.0
  }

  /** Distance cost plus the vehicle's daily operating cost. */
  function TravelCost(vehicle: string, distKm: real, baseCosts: map<string, real>): real
  {
    PerKmRate(vehicle) * distKm + BaseCost(baseCosts, vehicle)
  }

  /** Time cost of an urgent request: travel hours plus a 10-minute setup, valued at 80 per hour. */
  function UrgencyCost(vehicle: string, distKm: real): (c: real)
    ensures distKm >= 0.0 ==> c >= SETUP_HOURS * TIME_VALUE_PER_HOUR
  {
    (distKm / Speed(vehicle) + SETUP_HOURS) * TIME_VALUE_PER_HOUR
  }

  /** Scarcity premium factor for a vehicle with `n > 0` units available. */
  function ScarcityMultiplier(n: int): (m: real)
    requires n > 0
    ensures 1.0 <= m <= 1.0 + SCARCITY_WEIGHT
    ensures m == 1.0 <==> n as real >= MAX_FLEET
  {
    1.0 + SCARCITY_WEIGHT * (1.0 - FleetFraction(n))
  }

  /** The availability block: it runs only when a fleet record is supplied; an unavailable vehicle
      pays a flat, finite penalty, an available one is scaled by the scarcity premium. */
  function ApplyAvailability(cost: real, vehicle: string, disponibilidade: Option<Fleet>): (c: real)
    ensures disponibilidade.None? ==> c == cost
    ensures disponibilidade.Some? && Available(disponibilidade.value, vehicle) <= 0 ==> c == cost + UNAVAILABLE_PENALTY
    ensures disponibilidade.Some? && Available(disponibilidade.value, vehicle) > 0 && cost >= 0.0 ==>
              cost <= c <= (1.0 + SCARCITY_WEIGHT) * cost
  {
    match disponibilidade
    case None => cost
    case Some(f) =>
      var n := Available(f, vehicle);
      if n <= 0 then cost + UNAVAILABLE_PENALTY
      else
        var m := ScarcityMultiplier(n);
        if cost >= 0.0 then ScaleBounds(cost, m); cost * m
        else cost * m
  }

  /** Scaling a non-negative cost by a factor in [1, 1.3] stays within [cost, 1.3 * cost]. */
  lemma ScaleBounds(cost: real, m: real)
    requires cost >= 0.0 && 1.0 <= m <= 1.0 + SCARCITY_WEIGHT
    ensures cost <= cost * m <= (1.0 + SCARCITY_WEIGHT) * cost
  {
    assert cost * m - cost == cost * (m - 1.0);
    assert (1.0 + SCARCITY_WEIGHT) * cost - cost * m == cost * (1.0 + SCARCITY_WEIGHT - m);
  }

  /** Cost before the vehicle-specific rules: travel, urgency, availability. */
  function PreRuleCost(vehicle: string, distKm: real, baseCosts: map<string, real>, urgencia: bool,
                       disponibilidade: Option<Fleet>): real
  {
    var travel := TravelCost(vehicle, distKm, baseCosts);
    var timed := if urgencia then travel + UrgencyCost(vehicle, distKm) else travel;
    ApplyAvailability(timed, vehicle, disponibilidade)
  }

  function BikeRules(distKm: real, urgencia: bool, tipoCarga: string): real
  {
    (if tipoCarga == "grande" then 5000.0 else 0.0)
    + (if tipoCarga == "media" then 1000.0 else 0.0)
    + (if distKm > 5.0 || urgencia then 600.0 else -40.0)
  }

  function MotoRules(distKm: real, urgencia: bool, tipoCarga: string): real
  {
    (if tipoCarga == "grande" then 5000.0 else 0.0)
    + (if distKm > 80.0 then 600.0 else 0.0)
    + (if tipoCarga == "grande" && distKm > 80.0 && !urgencia then 1500.0 else 0.0)
    + (if tipoCarga == "media" && distKm > 50.0 && !urgencia then 400.0 else 0.0)
    + (if distKm <= 5.0 && !urgencia then 600.0 else -45.0)
  }

  function VanRules(distKm: real, urgencia: bool, tipoCarga: string): real
  {
    (if distKm < 5.0 && tipoCarga != "grande" then 500.0 else 0.0)
    + (if tipoCarga == "grande" && distKm > 80.0 then (if urgencia then 100.0 else 600.0) else 0.0)
    + (if tipoCarga == "grande" && distKm > 120.0 && !urgencia then 400.0 else 0.0)
  }

  function CaminhaoRules(distKm: real, urgencia: bool, tipoCarga: string): real
  {
    (if tipoCarga == "pequena" then 600.0 else 0.0)
    + (if tipoCarga == "media" then 400.0 else 0.0)
    + (if tipoCarga == "grande" && distKm > 80.0 && !urgencia then -800.0 else 0.0)
  }

  /** Sum of the fixed per-vehicle penalties and bonuses; none for an unknown vehicle. */
  function RuleAdjustment(vehicle: string, distKm: real, urgencia: bool, tipoCarga: string): real
  {
    if vehicle == "bike" then BikeRules(distKm, urgencia, tipoCarga)
    else if vehicle == "moto" then MotoRules(distKm, urgencia, tipoCarga)
    else if vehicle == "van" then VanRules(distKm, urgencia, tipoCarga)
    else if vehicle == "caminhao" then CaminhaoRules(distKm, urgencia, tipoCarga)
    else 0.0
  }

  /** `computeCost`: the simulated cost of serving the request with `vehicle`, floored at 0. */
  function ComputeCost(vehicle: string, distKm: real, baseCosts: map<string, real>, urgencia: bool,
                       tipoCarga: string, disponibilidade: Option<Fleet>): (c: real)
    ensures c >= 0.0
    ensures c >= PreRuleCost(vehicle, distKm, baseCosts, urgencia, disponibilidade)
                 + RuleAdjustment(vehicle, distKm, urgencia, tipoCarga)
  {
    var cost := PreRuleCost(vehicle, distKm, baseCosts, urgencia, disponibilidade)
                + RuleAdjustment(vehicle, distKm, urgencia, tipoCarga);
    MaxReal(0.0, cost)
  }

  /** An unavailable vehicle costs exactly the flat penalty more than with no fleet record, and is
      not scaled by the scarcity premium. */
  lemma UnavailableVehiclePenalty(vehicle: string, distKm: real, baseCosts: map<string, real>, urgencia: bool,
                                  f: Fleet)
    requires Available(f, vehicle) <= 0
    ensures PreRuleCost(vehicle, distKm, baseCosts, urgencia, Some(f))
            == PreRuleCost(vehicle, distKm, baseCosts, urgencia, None) + UNAVAILABLE_PENALTY
  {
  }

  /** An available vehicle's pre-rule cost is its cost without a fleet record scaled by a factor
      in [1, 1.3]. */
  lemma AvailableVehicleScarcity(vehicle: string, distKm: real, baseCosts: map<string, real>, urgencia: bool,
                                 f: Fleet)
    requires Available(f, vehicle) > 0
    ensures PreRuleCost(vehicle, distKm, baseCosts, urgencia, Some(f))
            == PreRuleCost(vehicle, distKm, baseCosts, urgencia, None) * ScarcityMultiplier(Available(f, vehicle))
    ensures PreRuleCost(vehicle, distKm, baseCosts, urgencia, None) >= 0.0 ==>
              PreRuleCost(vehicle, distKm, baseCosts, urgencia, None)
              <= PreRuleCost(vehicle, distKm, baseCosts, urgencia, Some(f))
              <= (1.0 + SCARCITY_WEIGHT) * PreRuleCost(vehicle, distKm, baseCosts, urgencia, None)
  {
  }

  /** A fleet with no vehicle at all still gives every vehicle a finite, rankable cost: each pays
      the same flat penalty on top of its cost without a fleet record. */
  lemma EmptyFleetUniformPenalty(distKm: real, baseCosts: map<string, real>, urgencia: bool, f: Fleet, k: nat)
    requires OrZero(f.motos) == 0 && OrZero(f.bikes) == 0 && OrZero(f.vans) == 0 && OrZero(f.caminhoes) == 0
    requires k < |VEHICLES|
    ensures PreRuleCost(VEHICLES[k], distKm, baseCosts, urgencia, Some(f))
            == PreRuleCost(VEHICLES[k], distKm, baseCosts, urgencia, None) + UNAVAILABLE_PENALTY
  {
    UnavailableVehiclePenalty(VEHICLES[k], distKm, baseCosts, urgencia, f);
  }

  /** Urgency never lowers the cost before the rules: it adds at least the 10-minute setup
      valued at 80 per hour. */
  lemma UrgencyAddsTimeCost(vehicle: string, distKm: real, baseCosts: map<string, real>,
                            disponibilidade: Option<Fleet>)
    requires distKm >= 0.0
    ensures PreRuleCost(vehicle, distKm, baseCosts, true, disponibilidade)
            >= PreRuleCost(vehicle, distKm, baseCosts, false, disponibilidade) + SETUP_HOURS * TIME_VALUE_PER_HOUR
  {
    var travel := TravelCost(vehicle, distKm, baseCosts);
    var u := UrgencyCost(vehicle, distKm);
    AvailabilityKeepsAddend(travel, u, vehicle, disponibilidade);
  }

  /** The availability block never absorbs a non-negative addend: adding `u` before it adds at
      least `u` after it. */
  lemma AvailabilityKeepsAddend(x: real, u: real, vehicle: string, disponibilidade: Option<Fleet>)
    requires u >= 0.0
    ensures ApplyAvailability(x + u, vehicle, disponibilidade) >= ApplyAvailability(x, vehicle, disponibilidade) + u
  {
    if disponibilidade.Some? && Available(disponibilidade.value, vehicle) > 0 {
      var f := disponibilidade.value;
      assert disponibilidade == Some(f);
      var m := ScarcityMultiplier(Available(f, vehicle));
      AvailableScales(x + u, vehicle, f);
      AvailableScales(x, vehicle, f);
      ScaledSumGap(x, u, m);
    }
  }

  /** With the vehicle available, the availability block is exactly the scarcity scaling. */
  lemma AvailableScales(cost: real, vehicle: string, f: Fleet)
    requires Available(f, vehicle) > 0
    ensures ApplyAvailability(cost, vehicle, Some(f)) == cost * ScarcityMultiplier(Available(f, vehicle))
  {
  }

  /** Scaling by a factor of at least 1 keeps at least the whole of a non-negative addend. */
  lemma ScaledSumGap(x: real, u: real, m: real)
    requires u >= 0.0 && m >= 1.0
    ensures (x + u) * m >= x * m + u
  {
    assert (x + u) * m == x * m + u * m;
    assert u * m - u == u * (m - 1.0);
  }

  /** A vehicle name outside VEHICLES uses per-km rate 1.0, speed 30, base 0 when not priced,
      no fixed rules, and counts as unavailable whenever a fleet record is given. */
  lemma UnknownVehicleCost(vehicle: string, distKm: real, baseCosts: map<string, real>, urgencia: bool,
                           tipoCarga: string, disponibilidade: Option<Fleet>)
    requires vehicle !in VEHICLES && vehicle !in baseCosts
    ensures ComputeCost(vehicle, distKm, baseCosts, urgencia, tipoCarga, disponibilidade)
            == MaxReal(0.0, 1.0 * distKm
                            + (if urgencia then (distKm / 30.0 + 0.16) * 80.0 else 0.0)
                            + (if disponibilidade.Some? then 5000.0 else 0.0))
  {
    assert vehicle != "moto" && vehicle != "bike" && vehicle != "van" && vehicle != "caminhao";
  }

  /** Large cargo makes moto and bike at least 4955 dearer than their pre-rule cost. */
  lemma LargeCargoSmallVehiclePenalty(vehicle: string, distKm: real, baseCosts: map<string, real>, urgencia: bool,
                                      disponibilidade: Option<Fleet>)
    requires vehicle == "moto" || vehicle == "bike"
    ensures RuleAdjustment(vehicle, distKm, urgencia, "grande") >= 4955.0
    ensures ComputeCost(vehicle, distKm, baseCosts, urgencia, "grande", disponibilidade)
            >= PreRuleCost(vehicle, distKm, baseCosts, urgencia, disponibilidade) + 4955.0
  {
  }

  /** The truck gets a bonus (its only negative adjustment, of exactly 800) precisely for large
      cargo over more than 80 km without urgency. */
  lemma TruckLongHaulBonus(distKm: real, urgencia: bool, tipoCarga: string)
    ensures RuleAdjustment("caminhao", distKm, urgencia, tipoCarga) < 0.0
            <==> tipoCarga == "grande" && distKm > 80.0 && !urgencia
    ensures RuleAdjustment("caminhao", distKm, urgencia, tipoCarga) < 0.0
            ==> RuleAdjustment("caminhao", distKm, urgencia, tipoCarga) == -800.0
  {
  }

  /** The van's adjustment is exactly the 500 short-hop penalty precisely when the hop is under
      5 km and the cargo is not large. */
  lemma VanShortHopPenalty(distKm: real, urgencia: bool, tipoCarga: string)
    ensures RuleAdjustment("van", distKm, urgencia, tipoCarga) == 500.0
            <==> distKm < 5.0 && tipoCarga != "grande"
  {
  }
}
