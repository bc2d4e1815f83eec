/** How much can be carried for the mobility there is. */
module Haulage {
  const DELIVER_BONUS := 4.0
  const DIST_BONUS := 10.0

  /** What hauling one unit costs. */
  function UnitCost(weight: int, cost: real, pack: int, bonus: real): (r: real)
    requires weight >= 1 && cost > 0.0 && pack >= 1 && bonus > 0.0
    ensures r > 0.0
  {
    weight as real * cost / (pack as real * bonus)
  }

  /** The mobility that pays for all that is wanted. */
  function FullCost(want: int, weight: int, cost: real, pack: int, bonus: real): real
    requires pack >= 1 && bonus > 0.0
  {
    want as real * weight as real * cost / pack as real / bonus
  }

  /** How much of what is wanted the mobility pays for, and the whole units of mobility charged. */
  function Haul(want: int, mob: int, weight: int, cost: real, pack: int, bonus: real): (r: (int, int))
    requires want >= 0 && mob >= 0 && weight >= 1 && cost > 0.0 && pack >= 1 && bonus > 0.0
  {
    var full := FullCost(want, weight, cost, pack, bonus);
    if full <= mob as real then (want, full.Floor)
    else ((mob as real * pack as real * bonus / (weight as real * cost)).Floor, mob)
  }

  lemma {:induction false} FullIsPerUnit(want: int, weight: int, cost: real, pack: int, bonus: real)
    requires weight >= 1 && cost > 0.0 && pack >= 1 && bonus > 0.0
    ensures FullCost(want, weight, cost, pack, bonus) == want as real * UnitCost(weight, cost, pack, bonus)
  {
    var n, wt, p := want as real, weight as real, pack as real;
    var k := wt * cost;
    assert n * wt * cost == n * k;
    DivTwice(n * k, p, bonus);
    MulDiv(n, k, p * bonus);
  }

  lemma {:induction false} DivTwice(a: real, p: real, q: real)
    requires p > 0.0 && q > 0.0
    ensures p * q > 0.0 && a / p / q == a / (p * q)
  {
    var x := a / p / q;
    assert x * q == a / p;
    assert a / p * p == a;
    assert x * q * p == a;
    assert x * (p * q) == a;
  }

  lemma {:induction false} MulDiv(n: real, k: real, m: real)
    requires m > 0.0
    ensures n * k / m == n * (k / m)
  {
    var y := k / m;
    assert y * m == k;
    assert n * y * m == n * k;
  }

  /** mob units of mobility haul as many units as fit into them at the unit cost. */
  lemma {:induction false} LimitIsQuotient(mob: int, weight: int, cost: real, pack: int, bonus: real)
    requires weight >= 1 && cost > 0.0 && pack >= 1 && bonus > 0.0
    ensures weight as real * cost > 0.0
    ensures mob as real * pack as real * bonus / (weight as real * cost) * UnitCost(weight, cost, pack, bonus) ==
              mob as real
  {
    var m, p, k := mob as real, pack as real, weight as real * cost;
    assert k > 0.0;
    var q := p * bonus;
    assert q > 0.0;
    assert m * p * bonus == m * q;
    var y := m * q / k;
    assert y * k == m * q;
    MulDiv(y, k, q);
    assert y * k / q == y * (k / q);
    assert m * q / q == m;
  }

  lemma {:induction false} MulOrder(a: real, b: real, u: real)
    requires u > 0.0
    ensures a <= b <==> a * u <= b * u
    ensures a < b <==> a * u < b * u
  {}

  /** What is hauled is the greatest amount, up to what is wanted, that the mobility pays for. */
  lemma {:induction false} HaulIsGreatest(want: int, mob: int, weight: int, cost: real, pack: int, bonus: real,
                                          more: int)
    requires want >= 0 && mob >= 0 && weight >= 1 && cost > 0.0 && pack >= 1 && bonus > 0.0
    ensures var (amount, used) := Haul(want, mob, weight, cost, pack, bonus);
            var unit := UnitCost(weight, cost, pack, bonus);
            0 <= amount <= want && amount as real * unit <= mob as real
            && (amount < more <= want ==> more as real * unit > mob as real)
            && 0 <= used <= mob && (amount < want ==> used == mob)
  {
    var unit := UnitCost(weight, cost, pack, bonus);
    var (amount, used) := Haul(want, mob, weight, cost, pack, bonus);
    FullIsPerUnit(want, weight, cost, pack, bonus);
    var full := FullCost(want, weight, cost, pack, bonus);
    hide UnitCost, FullCost;
    if full <= mob as real {
      MulOrder(0.0, want as real, unit);
    } else {
      LimitIsQuotient(mob, weight, cost, pack, bonus);
      var y := mob as real * pack as real * bonus / (weight as real * cost);
      MulOrder(y, want as real, unit);
      MulOrder(0.0, y, unit);
      MulOrder(amount as real, y, unit);
      MulOrder(y, more as real, unit);
    }
  }

  /** What is charged is the whole part of what all that is wanted costs, or all the mobility there is. So
      nothing is charged exactly when that costs less than one point or there is no mobility. */
  lemma {:induction false} ChargeIs(want: int, mob: int, weight: int, cost: real, pack: int, bonus: real)
    requires want > 0 && mob >= 0 && weight >= 1 && cost > 0.0 && pack >= 1 && bonus > 0.0
    ensures var (amount, used) := Haul(want, mob, weight, cost, pack, bonus);
            var full := want as real * UnitCost(weight, cost, pack, bonus);
            used == (if full <= mob as real then full.Floor else mob)
            && (used == 0 <==> full < 1.0 || mob == 0)
            && (mob == 0 ==> amount == 0)
  {
    FullIsPerUnit(want, weight, cost, pack, bonus);
    HaulIsGreatest(want, mob, weight, cost, pack, bonus, 1);
    var unit := UnitCost(weight, cost, pack, bonus);
    hide UnitCost, FullCost;
    MulOrder(0.0, want as real, unit);
    if mob == 0 {
      MulOrder(0.0, Haul(want, mob, weight, cost, pack, bonus).0 as real, unit);
    }
  }
}
