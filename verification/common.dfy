/** Shared vocabulary of the vehicle chooser: the fixed vehicle order, the fleet-availability record,
    an Option type and the JavaScript rounding operations (Math.round, Number.prototype.toFixed(2))
    written out over real numbers. */
module Common {

  datatype Option<T> = None | Some(value: T)

  /** The action space; an action index is a position in this list. */
  const VEHICLES: seq<string> := ["moto", "bike", "van", "caminhao"]
  const N_ACTIONS: nat := 4

  /** Fleet availability as the JavaScript object `{motos_ativas, bikes_ativas, vans_ativas,
      caminhoes_ativos}`; a field that is absent is `None`. */
  datatype Fleet = Fleet(motos: Option<int>, bikes: Option<int>, vans: Option<int>, caminhoes: Option<int>)

  /** `x || 0` and `x ?? 0` on an optional count (they agree on integers). */
  function OrZero(o: Option<int>): (n: int)
    ensures o.None? ==> n == 0
    ensures o.Some? ==> n == o.value
  {
    match o
    case None => 0
    case Some(n) => n
  }

  /** The count field that belongs to a vehicle name; `None` for an unknown name. */
  function CountOf(f: Fleet, vehicle: string): Option<int>
  {
    if vehicle == "moto" then f.motos
    else if vehicle == "bike" then f.bikes
    else if vehicle == "van" then f.vans
    else if vehicle == "caminhao" then f.caminhoes
    else None
  }

  /** Available count of a vehicle, missing counts read as 0. */
  function Available(f: Fleet, vehicle: string): int
  {
    OrZero(CountOf(f, vehicle))
  }

  /** Sum of the four counts, missing counts read as 0. */
  function FleetTotal(f: Fleet): int
  {
    OrZero(f.motos) + OrZero(f.bikes) + OrZero(f.vans) + OrZero(f.caminhoes)
  }

  predicate NonNegativeFleet(f: Fleet)
  {
    OrZero(f.motos) >= 0 && OrZero(f.bikes) >= 0 && OrZero(f.vans) >= 0 && OrZero(f.caminhoes) >= 0
  }

  function MinReal(a: real, b: real): real { if a <= b then a else b }
  function MaxReal(a: real, b: real): real { if a >= b then a else b }

  /** JavaScript `Math.round`: the nearest integer, halves rounded towards +infinity. */
  function MathRound(x: real): (n: int)
    ensures n as real - 0.5 <= x < n as real + 0.5
  {
    (x + 0.5).Floor
  }

  /** True when the value has at most two decimal places. */
  predicate IsCents(x: real)
  {
    (x * 100.0).Floor as real == x * 100.0
  }

  /** A whole number of cents has at most two decimal places. */
  lemma CentsOfInt(n: int)
    ensures IsCents(n as real / 100.0)
  {
    var y := n as real / 100.0;
    assert y * 100.0 == n as real;
    assert (n as real).Floor == n;
  }

  /** `Number(x.toFixed(2))`: the nearest multiple of 0.01, halves rounded away from zero
      (toFixed rounds the magnitude and keeps the sign). */
  function ToFixed2(x: real): (r: real)
    ensures IsCents(r)
    ensures x >= 0.0 ==> r >= 0.0 && x - 0.005 < r <= x + 0.005
    ensures x < 0.0 ==> r <= 0.0 && x - 0.005 <= r < x + 0.005
  {
    var m := if x >= 0.0 then x else -x;
    var n := MathRound(m * 100.0);
    CentsOfInt(n);
    CentsOfInt(-n);
    assert -(n as real / 100.0) == (-n) as real / 100.0;
    if x >= 0.0 then n as real / 100.0 else -(n as real / 100.0)
  }

  /** A value that already has two decimals is left unchanged by toFixed(2). */
  lemma ToFixed2OfCents(x: real)
    requires IsCents(x)
    ensures ToFixed2(x) == x
  {
    var n := (x * 100.0).Floor;
    if x >= 0.0 {
      assert x * 100.0 + 0.5 == n as real + 0.5;
      assert MathRound(x * 100.0) == n;
    } else {
      assert -x * 100.0 == -(n as real);
      assert MathRound(-x * 100.0) == -n;
    }
  }

  /** Math.round never reverses the order of two values. */
  lemma MathRoundMonotone(x: real, y: real)
    requires x <= y
    ensures MathRound(x) <= MathRound(y)
  {
    assert (x + 0.5).Floor as real <= x + 0.5 <= y + 0.5 < (y + 0.5).Floor as real + 1.0;
  }

  /** toFixed(2) never reverses the order of two values. */
  lemma ToFixed2Monotone(x: real, y: real)
    requires x <= y
    ensures ToFixed2(x) <= ToFixed2(y)
  {
    if x >= 0.0 {
      MathRoundMonotone(x * 100.0, y * 100.0);
    } else if y < 0.0 {
      MathRoundMonotone(-y * 100.0, -x * 100.0);
    }
  }
}
