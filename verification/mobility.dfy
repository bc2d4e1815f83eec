/** Mobility that sectors and units gain at the end of an update. */
module Mobility {
  import opened Basics
  import opened Game
  import Repair

  const MOB_MAX := 127

  /** What is gained in an update, a whole number, and what it may come to. */
  datatype Gain = Gain(inc: int, most: int)

  ghost predicate IsGain(g: Gain) {
    g.inc >= 0 && g.most >= -128
  }

  ghost predicate IsMobility(mobil: int) {
    -128 <= mobil <= MOB_MAX
  }

  function AsI8(n: int): int {
    (n + 128) % 256 - 128
  }

  function Accrued(mobil: int, g: Gain): int {
    AsI8(Smaller(Smaller(mobil + g.inc, g.most), MOB_MAX))
  }

  /** Mobility after any number of updates. */
  function Accruals(mobil: int, g: Gain, n: nat): int {
    if n == 0 then mobil else Accrued(Accruals(mobil, g, n - 1), g)
  }

  /** However often it is cut, mobility is what it would have grown to, up to the limit; 8 bits hold it. */
  lemma {:induction false} AccrualsAre(mobil: int, g: Gain, n: nat)
    requires IsMobility(mobil) && IsGain(g)
    ensures Accruals(mobil, g, n) == if n == 0 then mobil else Smaller(Smaller(mobil + n * g.inc, g.most), MOB_MAX)
    ensures IsMobility(Accruals(mobil, g, n))
  {
    if n > 0 {
      AccrualsAre(mobil, g, n - 1);
      TimesNext(n, g.inc);
      CutAgain(mobil, (n - 1) * g.inc, g);
      hide Accrued;
    }
  }

  lemma {:induction false} TimesNext(n: nat, inc: int)
    requires n >= 1 && inc >= 0
    ensures n * inc == (n - 1) * inc + inc && (n - 1) * inc >= 0
  {}

  /** Cutting in between changes nothing. */
  lemma {:induction false} CutAgain(mobil: int, a: int, g: Gain)
    requires IsMobility(mobil) && IsGain(g) && a >= 0
    ensures var cut := Smaller(Smaller(mobil + a, g.most), MOB_MAX);
            Accrued(cut, g) == Accrued(mobil + a, g) == Smaller(Smaller(mobil + a + g.inc, g.most), MOB_MAX)
    ensures a == 0 ==> Accrued(mobil, g) == Smaller(Smaller(mobil + g.inc, g.most), MOB_MAX)
    ensures IsMobility(Accrued(mobil + a, g))
  {}

  /** One update gains no more than the limit allows, in 8 bits. */
  lemma {:induction false} AccruedIs(mobil: int, g: Gain)
    requires IsMobility(mobil) && IsGain(g)
    ensures Accrued(mobil, g) == Smaller(Smaller(mobil + g.inc, g.most), MOB_MAX) && IsMobility(Accrued(mobil, g))
  {
    assert Accruals(mobil, g, 0) == mobil;
    AccrualsAre(mobil, g, 1);
  }

  /** Mobility is lost exactly where there is more of it than the limit, as after the limit was lowered. */
  lemma {:induction false} AccruedLosesIff(mobil: int, g: Gain)
    requires IsMobility(mobil) && IsGain(g)
    ensures Accrued(mobil, g) < mobil <==> g.most < mobil
  {
    AccruedIs(mobil, g);
  }

  /** Owned land gains mobility, but not a sanctuary. */
  function RestedSector(s: Sector, g: Gain): Sector {
    if s.own == 0 || IsWater(s.sectorType) || IsSanct(s.sectorType) then s else s.(mobil := Accrued(s.mobil, g))
  }

  function RestedUnit(u: Repair.Unit, g: Gain): Repair.Unit {
    if u.own == 0 then u else u.(mobil := Accrued(u.mobil, g))
  }

  method MobIncSects(sectors: array<Sector>, g: Gain)
    modifies sectors
    ensures forall i :: 0 <= i < sectors.Length ==> sectors[i] == RestedSector(old(sectors[i]), g)
  {
    hide Accrued;
    for i := 0 to sectors.Length
      invariant forall k :: 0 <= k < i ==> sectors[k] == RestedSector(old(sectors[k]), g)
      invariant forall k :: i <= k < sectors.Length ==> sectors[k] == old(sectors[k])
    {
      var s := sectors[i];
      if s.own != 0 && !IsWater(s.sectorType) && !IsSanct(s.sectorType) {
        sectors[i] := s.(mobil := Accrued(s.mobil, g));
      }
    }
  }

  method MobIncUnits(units: array<Repair.Unit>, g: Gain)
    modifies units
    ensures forall i :: 0 <= i < units.Length ==> units[i] == RestedUnit(old(units[i]), g)
  {
    hide Accrued;
    for i := 0 to units.Length
      invariant forall k :: 0 <= k < i ==> units[k] == RestedUnit(old(units[k]), g)
      invariant forall k :: i <= k < units.Length ==> units[k] == old(units[k])
    {
      if units[i].own != 0 {
        units[i] := units[i].(mobil := Accrued(units[i].mobil, g));
      }
    }
  }
}
