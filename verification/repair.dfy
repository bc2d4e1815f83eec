/** Ships, planes and land units being built up where they are stationed. */
module Repair {
  import opened Basics
  import opened Hex
  import opened Game
  import opened Ledger
  import opened Rounding

  /** Only ships have people, oil and food aboard that matter here. */
  datatype Unit = Unit(own: int, x: int, y: int, kind: int, effic: int, off: bool, mobil: int,
                       civ: int, mil: int, uw: int, oil: int, food: int)

  /** Materials and cost of a whole unit, and the work of one percent of it. */
  datatype UnitChr = UnitChr(lcm: int, hcm: int, bwork: int, cost: int)

  datatype Yard = ShipYard | PlaneYard | LandYard

  ghost predicate IsUnit(u: Unit) {
    0 <= u.own <= MAX_NATIONS && 0 <= u.effic <= 100 && 0 <= u.civ <= I16_MAX && 0 <= u.mil <= I16_MAX
    && -128 <= u.mobil <= 127 && 0 <= u.uw <= I16_MAX && 0 <= u.oil <= I16_MAX && 0 <= u.food <= I16_MAX
  }

  ghost predicate IsChr(c: UnitChr) {
    c.lcm >= 0 && c.hcm >= 0 && c.cost >= 0
  }

  function Activity(yard: Yard): (i: int)
    ensures IsAccount(Bm(i))
  {
    match yard
    case ShipYard => SHIP_BUILD
    case PlaneYard => PLANE_BUILD
    case LandYard => UNIT_BUILD
  }

  /** Ships are built in harbors, planes on airfields, land units anywhere. */
  predicate Serves(yard: Yard, s: Sector, u: Unit) {
    s.own == u.own
    && match yard
       case ShipYard => s.sectorType == HARBOR && s.effic >= 2
       case PlaneYard => !u.off && !s.off && s.sectorType == AIRFIELD
       case LandYard => !u.off && !s.off
  }

  /** The work a ship's own crew does. */
  function Crew(yard: Yard, u: Unit, etu: nat): int {
    if yard == ShipYard then etu * (u.civ / 2 + u.mil / 5) else 0
  }

  function WorkPerPercent(c: UnitChr): (n: int)
    ensures n >= 1
  {
    if c.bwork > 1 then c.bwork else 1
  }

  /** How many percent the stock of a material allows. */
  function Affordable(delta: int, stock: int, need: int): int {
    if need > 0 then Smaller(delta, stock * 100 / need) else delta
  }

  /** How many percent work, the limit per update, and the materials allow; nothing if not positive. */
  function Delta(yard: Yard, u: Unit, c: UnitChr, s: Sector, etu: nat, cap: int): (d: int)
    requires |s.items| == ITEMS
  {
    var pool := Crew(yard, u, etu) + s.avail * 100;
    if pool <= 0 then 0
    else
      var d := Smaller(Smaller(pool / WorkPerPercent(c), cap), 100 - u.effic);
      if d <= 0 then 0 else Affordable(Affordable(d, s.items[LCM], c.lcm), s.items[HCM], c.hcm)
  }

  /** Away from headquarters and fortresses, land units are built at a third of the speed. */
  function Build(yard: Yard, s: Sector, delta: int): int {
    if yard == LandYard && s.sectorType != HEADQUARTERS && s.sectorType != FORTRESS then delta / 3 else delta
  }

  /** Materials for some percent of a unit, before rounding. */
  function Materials(need: int, percent: int): real {
    need as real * percent as real / 100.0
  }

  /** Sector work for some percent of a unit beyond what the crew does, before rounding. */
  function Labour(yard: Yard, u: Unit, c: UnitChr, etu: nat, delta: int): real {
    var work := delta * WorkPerPercent(c) - Crew(yard, u, etu);
    if work > 0 then work as real / 100.0 else 0.0
  }

  lemma {:induction false} DivTimes(a: int, n: int, d: int)
    requires n > 0 && d <= a / n
    ensures d * n <= a
  {
    DivModDef(a, n);
    MulMono(n, d, a / n);
  }

  lemma {:induction false} MaterialsAreWhole(need: int, percent: int)
    requires need >= 0 && percent >= 0
    ensures Materials(need, percent) == (percent * need) as real / 100.0 && percent * need >= 0
  {}

  /** The stock covers the materials, however they are rounded. */
  lemma {:induction false} MaterialsSuffice(delta: int, build: int, stock: int, need: int, used: int)
    requires need >= 0 && 0 <= build <= delta && 0 <= stock <= I16_MAX && (need > 0 ==> delta <= stock * 100 / need)
    requires RoundsTo(Materials(need, build), used)
    ensures 0 <= used <= stock && AsI16(used) == used
  {
    if need > 0 {
      DivTimes(stock * 100, need, build);
    }
    MaterialsAreWhole(need, build);
    hide Materials;
    RoundsWithin(Materials(need, build), 0, stock, used);
    FitsI16(used);
  }

  /** The sector's work covers the labour, however it is rounded. */
  lemma {:induction false} LabourSuffices(yard: Yard, u: Unit, c: UnitChr, s: Sector, etu: nat, delta: int, used: int)
    requires 0 <= s.avail <= AVAIL_MAX && delta <= (Crew(yard, u, etu) + s.avail * 100) / WorkPerPercent(c)
    requires RoundsTo(Labour(yard, u, c, etu, delta), used)
    ensures 0 <= used <= s.avail && AsI16(used) == used
  {
    var crew, work := Crew(yard, u, etu), WorkPerPercent(c);
    DivTimes(crew + s.avail * 100, work, delta);
    hide Crew, WorkPerPercent;
    RoundsWithin(Labour(yard, u, c, etu, delta), 0, s.avail, used);
    FitsI16(used);
  }

  /** What is left of a sector after materials and work are taken. */
  function Spent(s: Sector, lcm: int, hcm: int, work: int): Sector
    requires |s.items| == ITEMS
  {
    s.(items := s.items[LCM := s.items[LCM] - lcm][HCM := s.items[HCM] - hcm], avail := s.avail - work)
  }

  function BuildPrice(c: UnitChr, build: int): real {
    c.cost as real * build as real / 100.0
  }

  /** A unit was built up: the sector had all that was taken, the unit is not above 100%, and the owner pays. */
  ghost predicate BuiltUp(yard: Yard, u: Unit, u': Unit, c: UnitChr, s: Sector, s': Sector, etu: nat, cap: int,
                          b: Budget, b': Budget)
    requires |s.items| == ITEMS && Shaped(b)
  {
    var delta := Delta(yard, u, c, s, etu, cap);
    var build := Build(yard, s, delta);
    0 < build <= 100 - u.effic && u' == u.(effic := u.effic + build)
    && b' == Post(b, Bm(Activity(yard)), 1, -BuildPrice(c, build))
    && exists lcm, hcm, work ::
         RoundsTo(Materials(c.lcm, build), lcm) && RoundsTo(Materials(c.hcm, build), hcm)
         && RoundsTo(Labour(yard, u, c, etu, delta), work)
         && 0 <= lcm <= s.items[LCM] && 0 <= hcm <= s.items[HCM] && 0 <= work <= s.avail
         && s' == Spent(s, lcm, hcm, work)
  }

  lemma {:induction false} DeltaFits(yard: Yard, u: Unit, c: UnitChr, s: Sector, etu: nat, cap: int)
    requires WellFormed(s) && IsChr(c) && Delta(yard, u, c, s, etu, cap) > 0
    ensures var d := Delta(yard, u, c, s, etu, cap);
            d <= 100 - u.effic && (c.lcm > 0 ==> d <= s.items[LCM] * 100 / c.lcm)
            && (c.hcm > 0 ==> d <= s.items[HCM] * 100 / c.hcm)
            && d <= (Crew(yard, u, etu) + s.avail * 100) / WorkPerPercent(c)
  {
    hide Crew, WorkPerPercent;
  }

  lemma {:induction false} TakenFrom(s: Sector, lcm: int, hcm: int)
    requires Stocked(s) && 0 <= lcm <= s.items[LCM] && 0 <= hcm <= s.items[HCM]
    ensures |AddItem(s, LCM, -lcm).items| == ITEMS
    ensures AddItem(AddItem(s, LCM, -lcm), HCM, -hcm)
            == s.(items := s.items[LCM := s.items[LCM] - lcm][HCM := s.items[HCM] - hcm])
  {}

  /** Takes the materials for some percent of a unit from stock. */
  method TakeMaterials(s: Sector, c: UnitChr, delta: int, build: int) returns (t: Sector, ghost lcm: int,
                       ghost hcm: int)
    requires Stocked(s) && IsChr(c) && 0 <= build <= delta
    requires (c.lcm > 0 ==> delta <= s.items[LCM] * 100 / c.lcm) && (c.hcm > 0 ==> delta <= s.items[HCM] * 100 / c.hcm)
    ensures RoundsTo(Materials(c.lcm, build), lcm) && RoundsTo(Materials(c.hcm, build), hcm)
    ensures 0 <= lcm <= s.items[LCM] && 0 <= hcm <= s.items[HCM] && t == Spent(s, lcm, hcm, 0)
  {
    hide Materials, RoundsTo, AsI16;
    var lcmUse := RoundAvg(Materials(c.lcm, build));
    var hcmUse := RoundAvg(Materials(c.hcm, build));
    MaterialsSuffice(delta, build, s.items[LCM], c.lcm, lcmUse);
    MaterialsSuffice(delta, build, s.items[HCM], c.hcm, hcmUse);
    TakenFrom(s, lcmUse, hcmUse);
    hide AddItem;
    t := AddItem(AddItem(s, LCM, -AsI16(lcmUse)), HCM, -AsI16(hcmUse));
    lcm, hcm := lcmUse, hcmUse;
  }

  /** Builds up one unit in the sector it is in. */
  method RepairUnit(yard: Yard, u: Unit, c: UnitChr, s: Sector, etu: nat, cap: int, budget: Budget)
    returns (u': Unit, s': Sector, b: Budget)
    requires WellFormed(s) && IsUnit(u) && IsChr(c) && Shaped(budget)
    ensures if Build(yard, s, Delta(yard, u, c, s, etu, cap)) <= 0 then u' == u && s' == s && b == budget
            else BuiltUp(yard, u, u', c, s, s', etu, cap, budget, b)
  {
    u', s', b := u, s, budget;
    var delta := Delta(yard, u, c, s, etu, cap);
    var build := Build(yard, s, delta);
    if build > 0 {
      DeltaFits(yard, u, c, s, etu, cap);
      hide Delta, Materials, Labour, RoundsTo, AsI16, BuildPrice, Crew, WorkPerPercent, Ordered, Stocked, Post,
           Shaped, IsChr;
      ghost var lcm, hcm;
      s', lcm, hcm := TakeMaterials(s, c, delta, build);
      var work := RoundAvg(Labour(yard, u, c, etu, delta));
      LabourSuffices(yard, u, c, s, etu, delta, work);
      var left := s'.avail - AsI16(work);
      s' := s'.(avail := if left > 0 then left else 0);
      var effic := u.effic + build;
      u' := u.(effic := if effic > 100 then 100 else effic);
      b := Post(budget, Bm(Activity(yard)), 1, -BuildPrice(c, build));
      assert s' == Spent(s, lcm, hcm, work);
    }
  }

  // ---------------------------------------------------------------------------------------------
  // All units
  // ---------------------------------------------------------------------------------------------

  datatype Books = Books(sectors: seq<Sector>, budgets: seq<Budget>)

  ghost predicate BooksOk(k: Books, cmap: map<Pos, int>) {
    AllWellFormed(k.sectors) && AllShaped(k.budgets) && Indexed(k.sectors, cmap)
  }

  ghost predicate AllChrs(chrs: seq<UnitChr>) {
    forall i :: 0 <= i < |chrs| ==> IsChr(chrs[i])
  }

  /** The unit is unfinished, of a known type, in a sector that serves it, and its owner is not broke. */
  predicate IsServed(yard: Yard, u: Unit, chrs: seq<UnitChr>, k: Books, cmap: map<Pos, int>)
    requires BooksOk(k, cmap) && IsUnit(u)
  {
    u.own != 0 && u.effic < 100 && 0 <= u.kind < |chrs| && Pos(u.x, u.y) in cmap
    && Serves(yard, k.sectors[cmap[Pos(u.x, u.y)]], u) && k.budgets[u.own].money >= 0.0
  }

  /** What one unit's turn can come to. */
  ghost predicate RepairStep(yard: Yard, u: Unit, u': Unit, chrs: seq<UnitChr>, cmap: map<Pos, int>, etu: nat,
                             cap: int, k: Books, k': Books)
    requires BooksOk(k, cmap) && IsUnit(u)
  {
    if IsServed(yard, u, chrs, k, cmap) then
      var i := cmap[Pos(u.x, u.y)];
      var s := k.sectors[i];
      if Build(yard, s, Delta(yard, u, chrs[u.kind], s, etu, cap)) <= 0 then u' == u && k' == k
      else
        |k'.sectors| == |k.sectors| && |k'.budgets| == |k.budgets|
        && k' == Books(k.sectors[i := k'.sectors[i]], k.budgets[u.own := k'.budgets[u.own]])
        && BuiltUp(yard, u, u', chrs[u.kind], s, k'.sectors[i], etu, cap, k.budgets[u.own], k'.budgets[u.own])
    else u' == u && k' == k
  }

  /** Only work and stocks differ, and there is no more work than before. */
  ghost predicate SameStation(s: Sector, t: Sector) {
    t == s.(items := t.items, avail := t.avail) && t.avail <= s.avail
  }

  ghost predicate SameStations(s: seq<Sector>, t: seq<Sector>) {
    |s| == |t| && forall i :: 0 <= i < |s| ==> SameStation(s[i], t[i])
  }

  lemma {:induction false} BuiltUpKeeps(yard: Yard, u: Unit, u': Unit, c: UnitChr, s: Sector, s': Sector, etu: nat,
                                        cap: int, b: Budget, b': Budget)
    requires WellFormed(s) && Shaped(b) && BuiltUp(yard, u, u', c, s, s', etu, cap, b, b')
    ensures WellFormed(s') && SameStation(s, s') && BookedFor(s, s', b, b')
    ensures u' == u.(effic := u'.effic) && u.effic < u'.effic <= 100
  {
    hide Delta, Build, RoundsTo, BookedFor, BuildPrice;
    var build := Build(yard, s, Delta(yard, u, c, s, etu, cap));
    BookedByPost(s, s', b, Bm(Activity(yard)), 1, -BuildPrice(c, build));
  }

  lemma {:induction false} StationsStep(s: seq<Sector>, i: int, t: Sector, cmap: map<Pos, int>)
    requires AllWellFormed(s) && Indexed(s, cmap) && 0 <= i < |s| && WellFormed(t) && SameStation(s[i], t)
    ensures AllWellFormed(s[i := t]) && Indexed(s[i := t], cmap) && SameStations(s, s[i := t])
  {
    hide WellFormed;
  }

  lemma {:induction false} SameStationsChain(a: seq<Sector>, b: seq<Sector>, c: seq<Sector>)
    requires SameStations(a, b) && SameStations(b, c)
    ensures SameStations(a, c)
  {
    forall i | 0 <= i < |a|
      ensures SameStation(a[i], c[i])
    {
      assert SameStation(a[i], b[i]) && SameStation(b[i], c[i]);
    }
  }

  /** A unit's turn keeps the books; a unit only grows. */
  lemma {:induction false} RepairStepKeeps(yard: Yard, u: Unit, u': Unit, chrs: seq<UnitChr>, cmap: map<Pos, int>,
                                           etu: nat, cap: int, k: Books, k': Books)
    requires BooksOk(k, cmap) && IsUnit(u) && RepairStep(yard, u, u', chrs, cmap, etu, cap, k, k')
    ensures BooksOk(k', cmap) && SameStations(k.sectors, k'.sectors)
    ensures MissesRecruits(k.sectors, k'.sectors, k.budgets, k'.budgets)
    ensures u' == u.(effic := u'.effic) && u.effic <= u'.effic <= 100
  {
    hide Delta, Build, BuiltUp, WellFormed, Shaped, Held, Unrecorded, Serves;
    NothingMissed(k.sectors, k.budgets);
    if k' != k {
      var i := cmap[Pos(u.x, u.y)];
      var s, t := k.sectors[i], k'.sectors[i];
      WellFormedType(s);
      BuiltUpKeeps(yard, u, u', chrs[u.kind], s, t, etu, cap, k.budgets[u.own], k'.budgets[u.own]);
      StationsStep(k.sectors, i, t, cmap);
      assert s.own == u.own by { ServedByOwner(yard, s, u); }
      BookedIsStep(k.sectors, i, t, k.budgets, k'.budgets[u.own]);
    } else {
      if IsServed(yard, u, chrs, k, cmap) && u' != u {
        var i := cmap[Pos(u.x, u.y)];
        WellFormedType(k.sectors[i]);
        BuiltUpKeeps(yard, u, u', chrs[u.kind], k.sectors[i], k'.sectors[i], etu, cap, k.budgets[u.own],
                     k'.budgets[u.own]);
      }
    }
  }

  lemma {:induction false} ServedByOwner(yard: Yard, s: Sector, u: Unit)
    requires Serves(yard, s, u)
    ensures s.own == u.own
  {}

  /** trace holds the books before, between and after the units. */
  ghost predicate RepairRun(yard: Yard, us: seq<Unit>, us': seq<Unit>, chrs: seq<UnitChr>, cmap: map<Pos, int>,
                            etu: nat, cap: int, trace: seq<Books>) {
    |us| == |us'| && |trace| == |us| + 1
    && forall j :: 0 <= j < |us| ==>
         IsUnit(us[j]) && BooksOk(trace[j], cmap)
         && RepairStep(yard, us[j], us'[j], chrs, cmap, etu, cap, trace[j], trace[j + 1])
  }

  /** However many units share a sector, none takes what is not there, and all that is paid is booked. */
  lemma {:induction false} RepairKeeps(yard: Yard, us: seq<Unit>, us': seq<Unit>, chrs: seq<UnitChr>,
                                       cmap: map<Pos, int>, etu: nat, cap: int,
                                       trace: seq<Books>, n: nat)
    requires RepairRun(yard, us, us', chrs, cmap, etu, cap, trace) && n <= |us| && BooksOk(trace[0], cmap)
    ensures BooksOk(trace[n], cmap) && SameStations(trace[0].sectors, trace[n].sectors)
    ensures MissesRecruits(trace[0].sectors, trace[n].sectors, trace[0].budgets, trace[n].budgets)
    ensures forall j :: 0 <= j < n ==> us'[j] == us[j].(effic := us'[j].effic) && us[j].effic <= us'[j].effic <= 100
  {
    hide BooksOk, SameStations, MissesRecruits, RepairStep, IsUnit;
    if n == 0 {
      NothingMissed(trace[0].sectors, trace[0].budgets);
      StationsStay(trace[0].sectors);
    } else {
      var j := n - 1;
      RepairKeeps(yard, us, us', chrs, cmap, etu, cap, trace, j);
      RepairStepKeeps(yard, us[j], us'[j], chrs, cmap, etu, cap, trace[j], trace[j + 1]);
      SameStationsChain(trace[0].sectors, trace[j].sectors, trace[n].sectors);
      MissesRecruitsChain(trace[0].sectors, trace[j].sectors, trace[n].sectors, trace[0].budgets, trace[j].budgets,
                          trace[n].budgets);
    }
  }

  lemma {:induction false} StationsStay(s: seq<Sector>)
    ensures SameStations(s, s)
  {}

  /** The turn of unit j. */
  method TakeTurn(yard: Yard, units: array<Unit>, j: int, sectors: array<Sector>, budgets: array<Budget>,
                  chrs: seq<UnitChr>,
                  cmap: map<Pos, int>, etu: nat, cap: int)
    requires BooksOk(Books(sectors[..], budgets[..]), cmap) && AllChrs(chrs)
    requires 0 <= j < units.Length && IsUnit(units[j])
    modifies units, sectors, budgets
    ensures units[..] == old(units[..])[j := units[j]]
    ensures RepairStep(yard, old(units[j]), units[j], chrs, cmap, etu, cap,
                       Books(old(sectors[..]), old(budgets[..])), Books(sectors[..], budgets[..]))
  {
    hide WellFormed, Shaped, Build, Delta, BuiltUp, RepairStep, Serves;
    var u := units[j];
    ghost var k := Books(sectors[..], budgets[..]);
    if IsServed(yard, u, chrs, Books(sectors[..], budgets[..]), cmap) {
      var i := cmap[Pos(u.x, u.y)];
      var u', s, b := RepairUnit(yard, u, chrs[u.kind], sectors[i], etu, cap, budgets[u.own]);
      units[j] := u';
      sectors[i] := s;
      budgets[u.own] := b;
    }
    RepairStepIs(yard, u, units[j], chrs, cmap, etu, cap, k, Books(sectors[..], budgets[..]));
  }

  /** Builds up all ships, planes or land units. */
  method ProdUnits(yard: Yard, units: array<Unit>, sectors: array<Sector>, budgets: array<Budget>, chrs: seq<UnitChr>,
                   cmap: map<Pos, int>, etu: nat, cap: int)
    returns (ghost trace: seq<Books>)
    requires BooksOk(Books(sectors[..], budgets[..]), cmap) && AllChrs(chrs)
    requires forall j :: 0 <= j < units.Length ==> IsUnit(units[j])
    modifies units, sectors, budgets
    ensures RepairRun(yard, old(units[..]), units[..], chrs, cmap, etu, cap, trace)
    ensures trace[0] == Books(old(sectors[..]), old(budgets[..]))
            && trace[units.Length] == Books(sectors[..], budgets[..])
    ensures BooksOk(trace[units.Length], cmap)
  {
    hide BooksOk, RepairStep, AllChrs, IsUnit;
    ghost var us := units[..];
    trace := [Books(sectors[..], budgets[..])];
    for j := 0 to units.Length
      invariant |trace| == j + 1 && trace[0] == Books(old(sectors[..]), old(budgets[..]))
      invariant trace[j] == Books(sectors[..], budgets[..]) && BooksOk(trace[j], cmap)
      invariant forall m :: 0 <= m < j ==>
                  BooksOk(trace[m], cmap) && RepairStep(yard, us[m], units[m], chrs, cmap, etu, cap, trace[m],
                                                        trace[m + 1])
      invariant forall m :: j <= m < units.Length ==> units[m] == us[m]
    {
      ghost var k := Books(sectors[..], budgets[..]);
      ghost var before := units[..];
      assert IsUnit(us[j]);
      TakeTurn(yard, units, j, sectors, budgets, chrs, cmap, etu, cap);
      assert forall m :: 0 <= m < units.Length && m != j ==> units[m] == before[m];
      RepairStepKeeps(yard, us[j], units[j], chrs, cmap, etu, cap, k, Books(sectors[..], budgets[..]));
      trace := trace + [Books(sectors[..], budgets[..])];
    }
  }

  lemma {:induction false} RepairStepIs(yard: Yard, u: Unit, u': Unit, chrs: seq<UnitChr>, cmap: map<Pos, int>,
                                        etu: nat, cap: int, k: Books, k': Books)
    requires BooksOk(k, cmap) && IsUnit(u)
    requires IsServed(yard, u, chrs, k, cmap) ==>
               var i := cmap[Pos(u.x, u.y)];
               |k'.sectors| == |k.sectors| && |k'.budgets| == |k.budgets|
               && k' == Books(k.sectors[i := k'.sectors[i]], k.budgets[u.own := k'.budgets[u.own]])
               && if Build(yard, k.sectors[i], Delta(yard, u, chrs[u.kind], k.sectors[i], etu, cap)) <= 0
                  then u' == u && k'.sectors[i] == k.sectors[i] && k'.budgets[u.own] == k.budgets[u.own]
                  else BuiltUp(yard, u, u', chrs[u.kind], k.sectors[i], k'.sectors[i], etu, cap, k.budgets[u.own],
                               k'.budgets[u.own])
    requires !IsServed(yard, u, chrs, k, cmap) ==> u' == u && k' == k
    ensures RepairStep(yard, u, u', chrs, cmap, etu, cap, k, k')
  {
    hide WellFormed, Shaped, Build, Delta, BuiltUp, Serves;
  }
}
