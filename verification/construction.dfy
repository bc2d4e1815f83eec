/** How a sector builds itself up, and recruits. */
module Construction {
  import opened Basics
  import opened Game
  import opened Ledger
  import opened Rounding

  // ---------------------------------------------------------------------------------------------
  // Building up
  // ---------------------------------------------------------------------------------------------

  /** Tears down a sector that was redesignated, then builds up one that has its designated type. Returns
      the sector and what it costs. */
  function BuildEff(s: Sector): (r: (Sector, real)) {
    var avail := s.avail / 2 * 100;
    var (torn, cost) :=
      if s.sectorType != s.newType then
        var build := Smaller(4 * avail / BUILD_WORK, s.effic);
        var left := s.effic - build;
        (if left <= 0 then s.(effic := 0, sectorType := s.newType) else s.(effic := left), build as real / 4.0)
      else (s, 0.0);
    var delta := Smaller(avail / BUILD_WORK, 100 - torn.effic);
    var (built, total) :=
      if torn.sectorType == torn.newType && delta > 0 then
        (torn.(effic := torn.effic + delta), cost + delta as real * BuildCost(torn.sectorType) as real / 100.0)
      else (torn, cost);
    (built.(avail := (s.avail + 1) / 2 + avail / 100), total)
  }

  /** A sector gets its new type exactly when its whole efficiency can be torn down, and then builds from
      nothing; the work available stays what it was. */
  lemma {:induction false} BuildEffKeeps(s: Sector)
    requires WellFormed(s)
    ensures var (t, cost) := BuildEff(s);
            WellFormed(t) && t == s.(effic := t.effic, sectorType := t.sectorType) && cost >= 0.0
            && (s.sectorType == s.newType ==> t.sectorType == s.sectorType && s.effic <= t.effic)
            && (s.sectorType != s.newType ==>
                  (t.sectorType == s.newType <==> s.effic <= 4 * (s.avail / 2))
                  && (t.sectorType == s.newType ==> t.effic == Smaller(s.avail / 2, 100))
                  && (t.sectorType != s.newType ==>
                        t.sectorType == s.sectorType && t.effic == s.effic - 4 * (s.avail / 2) > 0))
  {
    PoolIs(s.avail);
    CostIsPositive(BuildEff(s).0.sectorType);
    hide BuildCost, Stocked, Ordered;
  }

  lemma {:induction false} PoolIs(avail: int)
    requires avail >= 0
    ensures var pool := avail / 2;
            pool * 100 / BUILD_WORK == pool && 4 * (pool * 100) / BUILD_WORK == 4 * pool
              && (avail + 1) / 2 + pool == avail
  {}

  lemma {:induction false} CostIsPositive(t: int)
    ensures BuildCost(t) >= 0
  {}

  // ---------------------------------------------------------------------------------------------
  // Enlistment
  // ---------------------------------------------------------------------------------------------

  /** How many civilians an enlistment centre recruits. */
  function Recruits(civ: int, mil: int, etu: int): (n: int)
    requires 0 <= civ <= I16_MAX && 0 <= mil <= I16_MAX && etu >= 0
    ensures n > 0 ==> n <= civ / 2 - mil
    ensures n >= 0
  {
    var room := civ / 2 - mil;
    if room <= 0 then 0
    else
      var wanted := Trunc(etu as real * (10.0 + mil as real) * 0.05);
      var most := if wanted > I16_MAX then I16_MAX else wanted;
      var n := Smaller(most, room);
      if n <= 0 then 0 else n
  }

  /** Civilians become soldiers; the balance pays for them, but no line says so. */
  function Enlist(s: Sector, b: Budget, etu: nat): (r: (Sector, Budget))
    requires WellFormed(s) && Shaped(b)
  {
    var n := Recruits(s.items[CIVIL], s.items[MILIT], etu);
    if n <= 0 then (s, b) else (AddItem(AddItem(s, CIVIL, -n), MILIT, n), Charge(b, n as real * 3.0))
  }

  /** No stock saturates or is overdrawn: each recruit was a civilian, and costs the balance its pay. */
  lemma {:induction false} EnlistKeeps(s: Sector, b: Budget, etu: nat)
    requires WellFormed(s) && Shaped(b)
    ensures var n := Recruits(s.items[CIVIL], s.items[MILIT], etu);
            var (t, c) := Enlist(s, b, etu);
            WellFormed(t) && t == s.(items := s.items[CIVIL := s.items[CIVIL] - n][MILIT := s.items[MILIT] + n])
            && Shaped(c) && Continues(b, c)
            && Unrecorded(c) - Unrecorded(b) == PAY_PER_RECRUIT * (t.items[MILIT] - s.items[MILIT]) as real
  {
    var n := Recruits(s.items[CIVIL], s.items[MILIT], etu);
    ChargeUnbalances(b, n as real * 3.0);
    if n == 0 {
      assert s.items == s.items[CIVIL := s.items[CIVIL] - n][MILIT := s.items[MILIT] + n];
    }
  }
}
