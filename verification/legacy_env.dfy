/** The older simulator of rl/env.js: an 8-slot state with an unclamped distance and counts scaled
    by the moto count, a cost with no availability or vehicle rules, and the unscaled reward. */
module LegacyEnv {
  import opened Common
  import Env

  const LEGACY_STATE_DIM: nat := 8
  const LEGACY_DIST_SCALE: real := 100.0
  const LEGACY_URGENCY_FACTOR: real := 1.5

  /** `x || 1` on a count: a missing or zero count reads as 1. */
  function OrOne(o: Option<int>): int
  {
    if o.Some? && o.value != 0 then o.value else 1
  }

  /** `Math.max(1, motos_ativas || 1)`: the divisor of every count slot. */
  function MaxVeh(f: Fleet): (m: real)
    ensures m >= 1.0
    ensures OrZero(f.motos) >= 1 ==> m == OrZero(f.motos) as real
  {
    var n := OrOne(f.motos);
    if n >= 1 then n as real else 1.0
  }

  /** `buildState` of the older revision; an absent urgency is false and an absent cargo type is
      "pequena". The fleet record is required. */
  function BuildStateLegacy(distKm: real, urgencia: Option<bool>, tipoCarga: Option<string>, disponibilidade: Fleet)
    : (s: seq<real>)
    ensures |s| == LEGACY_STATE_DIM
    ensures s[0] * LEGACY_DIST_SCALE == distKm
    ensures s[1] == 1.0 <==> urgencia == Some(true)
    ensures s[2] == 1.0 <==> tipoCarga.None? || tipoCarga == Some("pequena")
    ensures s[3] == 1.0 <==> tipoCarga == Some("grande")
    ensures forall k :: 1 <= k < 4 ==> s[k] == 0.0 || s[k] == 1.0
    ensures forall k :: 0 <= k < N_ACTIONS ==>
              s[4 + k] * MaxVeh(disponibilidade) == Available(disponibilidade, VEHICLES[k]) as real
  {
    var cargo := if tipoCarga.Some? then tipoCarga.value else "pequena";
    var maxVeh := MaxVeh(disponibilidade);
    [ distKm / LEGACY_DIST_SCALE,
      if urgencia == Some(true) then 1.0 else 0.0,
      if cargo == "pequena" then 1.0 else 0.0,
      if cargo == "grande" then 1.0 else 0.0,
      OrZero(disponibilidade.motos) as real / maxVeh,
      OrZero(disponibilidade.bikes) as real / maxVeh,
      OrZero(disponibilidade.vans) as real / maxVeh,
      OrZero(disponibilidade.caminhoes) as real / maxVeh ]
  }

  /** Unlike the newer encoder, the distance slot is not clamped: beyond 100 km it exceeds 1. */
  lemma LegacyDistanceUnclamped(distKm: real)
    requires distKm > LEGACY_DIST_SCALE
    ensures BuildStateLegacy(distKm, None, None, Fleet(None, None, None, None))[0] > 1.0
    ensures Env.BuildState(distKm, false, "pequena", None)[0] <= 1.0
  {
  }

  /** Medium cargo has no slot of its own: it encodes like an unknown cargo type. */
  lemma LegacyMediaHasNoSlot(distKm: real, urgencia: Option<bool>, f: Fleet)
    ensures BuildStateLegacy(distKm, urgencia, Some("media"), f)
            == BuildStateLegacy(distKm, urgencia, Some("geral"), f)
    ensures BuildStateLegacy(distKm, urgencia, Some("media"), f)[2..4] == [0.0, 0.0]
  {
  }

  /** With at least one moto, the moto slot is exactly 1, whatever the other counts. */
  lemma LegacyMotoSlotIsOne(distKm: real, urgencia: Option<bool>, tipoCarga: Option<string>, f: Fleet)
    requires OrZero(f.motos) >= 1
    ensures BuildStateLegacy(distKm, urgencia, tipoCarga, f)[4] == 1.0
  {
    var s := BuildStateLegacy(distKm, urgencia, tipoCarga, f);
    assert s[4] * MaxVeh(f) == OrZero(f.motos) as real;
  }

  /** `costPerKm[vehicle] || 1.0` of the older revision. */
  function LegacyPerKmRate(vehicle: string): real
  {
    if vehicle == "moto" then 0.3
    else if vehicle == "bike" then 0.05
    else if vehicle == "van" then 1.2
    else if vehicle == "caminhao" then 2.5
    else 1.0
  }

  /** `computeCost` of the older revision: distance cost, toll (default 0) and the vehicle's base
      cost (0 when missing), times 1.5 for an urgent request. No floor, no availability. */
  function ComputeCostLegacy(vehicle: string, distKm: real, baseCosts: map<string, real>, pedagio: real,
                             urgencia: bool): (c: real)
    ensures !urgencia ==> c == LegacyPerKmRate(vehicle) * distKm + pedagio + Env.BaseCost(baseCosts, vehicle)
  {
    var cost := LegacyPerKmRate(vehicle) * distKm + pedagio + Env.BaseCost(baseCosts, vehicle);
    if urgencia then cost * LEGACY_URGENCY_FACTOR else cost
  }

  /** An urgent request costs exactly one and a half times the same request without urgency. */
  lemma LegacyUrgencyScales(vehicle: string, distKm: real, baseCosts: map<string, real>, pedagio: real)
    ensures ComputeCostLegacy(vehicle, distKm, baseCosts, pedagio, true)
            == 1.5 * ComputeCostLegacy(vehicle, distKm, baseCosts, pedagio, false)
  {
  }

  /** An unpriced vehicle outside VEHICLES pays 1.0 per km plus the toll. */
  lemma LegacyUnknownVehicle(vehicle: string, distKm: real, baseCosts: map<string, real>, pedagio: real)
    requires vehicle !in VEHICLES && vehicle !in baseCosts
    ensures ComputeCostLegacy(vehicle, distKm, baseCosts, pedagio, false) == distKm + pedagio
  {
    assert vehicle != "moto" && vehicle != "bike" && vehicle != "van" && vehicle != "caminhao";
  }

  /** Over a positive distance, the per-km rates keep the order bike < moto < van < caminhao. */
  lemma LegacyRateOrder(distKm: real)
    requires distKm > 0.0
    ensures LegacyPerKmRate("bike") * distKm < LegacyPerKmRate("moto") * distKm
            < LegacyPerKmRate("van") * distKm < LegacyPerKmRate("caminhao") * distKm
  {
  }

  /** `rewardFromCost`: the negated cost. */
  function RewardFromCost(c: real): (r: real)
    ensures r + c == 0.0
  {
    -c
  }
}
