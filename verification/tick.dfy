/** A whole update, and the budget command's preview of one. */
module Tick {
  import opened Basics
  import opened Hex
  import opened Game
  import opened Ledger
  import opened Rounding
  import Populace
  import Industry
  import Shipments
  import Delivery
  import Distribution
  import Repair
  import Ocean
  import Mobility
  import opened Nations

  /** The configured rates; how much a ship, plane or land unit is built up in one update at most; what is known
      of their types; and the mobility that sectors and units gain. */
  datatype Rules = Rules(
    rates: Populace.Rates, shipCap: int, planeCap: int, landCap: int,
    shipChrs: seq<Repair.UnitChr>, planeChrs: seq<Repair.UnitChr>, landChrs: seq<Repair.UnitChr>,
    gears: seq<Ocean.Gear>, levels: LevelRates, log: Log,
    sectGain: Mobility.Gain, shipGain: Mobility.Gain, planeGain: Mobility.Gain, landGain: Mobility.Gain)

  ghost predicate RulesOk(r: Rules, etu: nat) {
    Populace.Sensible(r.rates, etu) && Repair.AllChrs(r.shipChrs) && Repair.AllChrs(r.planeChrs)
    && Repair.AllChrs(r.landChrs) && Ocean.AllGear(r.gears) && Steady(r.levels)
    && GainsOk(r)
  }

  ghost predicate GainsOk(r: Rules) {
    Mobility.IsGain(r.sectGain) && Mobility.IsGain(r.shipGain) && Mobility.IsGain(r.planeGain)
    && Mobility.IsGain(r.landGain)
  }

  ghost predicate AreNations(ns: seq<Nation>) {
    (forall i :: 0 <= i < |ns| ==> IsNation(ns[i]))
    && forall i, j :: 0 <= i < j < |ns| ==> ns[i].cnum != ns[j].cnum
  }

  ghost predicate AllUnits(us: seq<Repair.Unit>) {
    forall j :: 0 <= j < |us| ==> Repair.IsUnit(us[j])
  }

  ghost predicate SamePlaces(s: seq<Sector>, t: seq<Sector>) {
    |s| == |t| && forall i :: 0 <= i < |s| ==> PosOfSector(t[i]) == PosOfSector(s[i])
  }

  lemma {:induction false} PlacesStayDistinct(s: seq<Sector>, t: seq<Sector>)
    requires SamePlaces(s, t) && DistinctPlaces(s)
    ensures DistinctPlaces(t)
  {}

  // ---------------------------------------------------------------------------------------------
  // Totals that stay
  // ---------------------------------------------------------------------------------------------

  lemma {:induction false} SameStocksSameHeld(s: seq<Sector>, t: seq<Sector>, who: Option<int>, item: int)
    requires |s| == |t| && forall i :: 0 <= i < |s| ==> t[i].own == s[i].own && t[i].items == s[i].items
    ensures Held(s, who, item) == Held(t, who, item)
  {
    if s != [] {
      SameStocksSameHeld(s[..|s| - 1], t[..|t| - 1], who, item);
    }
  }

  /** No nation's soldiers changed, and no account did. */
  lemma {:induction false} SameSoldiers(s: seq<Sector>, t: seq<Sector>, bs: seq<Budget>)
    requires forall n :: Soldiers(s, n) == Soldiers(t, n)
    ensures MissesRecruits(s, t, bs, bs)
  {
    hide Held, Unrecorded;
    forall n | 0 <= n < |bs|
      ensures Soldiers(t, n) - Soldiers(s, n) == 0
    {
      assert Soldiers(s, n) == Soldiers(t, n);
    }
  }

  lemma {:induction false} SameHeldSoldiers(s: seq<Sector>, t: seq<Sector>, bs: seq<Budget>)
    requires Shipments.SameHeld(s, t)
    ensures MissesRecruits(s, t, bs, bs)
  {
    forall n
      ensures Soldiers(s, n) == Soldiers(t, n)
    {
      assert Held(s, Some(n), MILIT) == Held(t, Some(n), MILIT);
    }
    SameSoldiers(s, t, bs);
  }

  // ---------------------------------------------------------------------------------------------
  // The phases
  // ---------------------------------------------------------------------------------------------

  /** Nothing is booked yet, and active nations start from their treasuries. */
  ghost predicate OpenedFor(ns: seq<Nation>, bs: seq<Budget>)
    requires AreNations(ns) && |bs| == MAX_NATIONS + 1
  {
    (forall n :: 0 <= n <= MAX_NATIONS ==> Unrecorded(bs[n]) == 0.0 && Counted(bs[n]))
    && forall i :: 0 <= i < |ns| && ns[i].Active() ==> bs[ns[i].cnum].startMoney == ns[i].money as real
  }

  /** Opens the accounts: active nations start from their treasuries, all others from nothing. */
  method OpenBudgets(ns: seq<Nation>) returns (budgets: array<Budget>)
    requires AreNations(ns)
    ensures fresh(budgets) && AllShaped(budgets[..]) && OpenedFor(ns, budgets[..])
  {
    OpenedBalances(0.0);
    OpenedStart(0.0);
    hide Unrecorded, Opened, Shaped, Counted;
    var blank := Opened(0.0);
    budgets := new Budget[MAX_NATIONS + 1](_ => blank);
    for i := 0 to |ns|
      invariant forall n :: 0 <= n <= MAX_NATIONS ==>
                  Shaped(budgets[n]) && Unrecorded(budgets[n]) == 0.0 && Counted(budgets[n])
      invariant forall k :: 0 <= k < i && ns[k].Active() ==> budgets[ns[k].cnum].startMoney == ns[k].money as real
    {
      if ns[i].Active() {
        OpenedBalances(ns[i].money as real);
        OpenedStart(ns[i].money as real);
        budgets[ns[i].cnum] := Opened(ns[i].money as real);
      }
    }
  }

  lemma {:induction false} OpenedStart(money: real)
    ensures Opened(money).startMoney == money && Shaped(Opened(money)) && Counted(Opened(money))
  {}

  /** The accounts after the first n nations' reserves are paid. */
  function ReservesPaid(ns: seq<Nation>, bs: seq<Budget>, etu: nat, r: Populace.Rates, n: nat): (rs: seq<Budget>)
    requires AreNations(ns) && AllShaped(bs) && n <= |ns|
    ensures AllShaped(rs)
  {
    if n == 0 then bs
    else
      var prev := ReservesPaid(ns, bs, etu, r, n - 1);
      var c := ns[n - 1].cnum;
      if ns[n - 1].Active() then
        Populace.ReserveIsBooked(ns[n - 1].reserve, prev[c], etu, r);
        prev[c := Populace.PayReserve(ns[n - 1].reserve, prev[c], etu, r)]
      else prev
  }

  lemma {:induction false} ReservesKeep(ns: seq<Nation>, bs: seq<Budget>, etu: nat, r: Populace.Rates, n: nat,
                                        s: seq<Sector>)
    requires AreNations(ns) && AllShaped(bs) && n <= |ns|
    ensures MissesRecruits(s, s, bs, ReservesPaid(ns, bs, etu, r, n))
  {
    hide Unrecorded, Held, Shaped, MissesRecruits;
    if n == 0 {
      NothingMissed(s, bs);
    } else {
      ReservesKeep(ns, bs, etu, r, n - 1, s);
      if ns[n - 1].Active() {
        var prev, c := ReservesPaid(ns, bs, etu, r, n - 1), ns[n - 1].cnum;
        var paid := Populace.PayReserve(ns[n - 1].reserve, prev[c], etu, r);
        Populace.ReserveIsBooked(ns[n - 1].reserve, prev[c], etu, r);
        PaidIsBooked(s, prev, c, paid);
        MissesRecruitsChain(s, s, s, bs, prev, prev[c := paid]);
      }
    }
  }

  method PayReserves(ns: seq<Nation>, budgets: array<Budget>, etu: nat, r: Populace.Rates)
    requires AreNations(ns) && AllShaped(budgets[..])
    modifies budgets
    ensures budgets[..] == ReservesPaid(ns, old(budgets[..]), etu, r, |ns|)
  {
    hide Shaped;
    ghost var b0 := budgets[..];
    for i := 0 to |ns|
      invariant budgets[..] == ReservesPaid(ns, b0, etu, r, i)
    {
      if ns[i].Active() {
        var n := ns[i].cnum;
        budgets[n] := Populace.PayReserve(ns[i].reserve, budgets[n], etu, r);
      }
    }
  }

  lemma {:induction false} PaidIsBooked(s: seq<Sector>, bs: seq<Budget>, n: int, b: Budget)
    requires 0 <= n < |bs| && Unrecorded(b) == Unrecorded(bs[n]) && Continues(bs[n], b)
    ensures MissesRecruits(s, s, bs, bs[n := b])
  {
    hide Unrecorded, Held;
  }

  /** A level by nation number, going by the first n nations; 0 where there is no nation. */
  function LevelsOf(ns: seq<Nation>, level: Nation -> real, n: nat): (r: seq<real>)
    requires AreNations(ns) && n <= |ns|
    ensures |r| == MAX_NATIONS + 1
  {
    if n == 0 then seq(MAX_NATIONS + 1, _ => 0.0)
    else LevelsOf(ns, level, n - 1)[ns[n - 1].cnum := level(ns[n - 1])]
  }

  method Levels(ns: seq<Nation>) returns (tech: seq<real>, edu: seq<real>)
    requires AreNations(ns)
    ensures tech == Techs(ns) && edu == Edus(ns)
  {
    tech, edu := seq(MAX_NATIONS + 1, _ => 0.0), seq(MAX_NATIONS + 1, _ => 0.0);
    for i := 0 to |ns|
      invariant tech == LevelsOf(ns, TechOf, i) && edu == LevelsOf(ns, EduOf, i)
    {
      tech := tech[ns[i].cnum := ns[i].tech];
      edu := edu[ns[i].cnum := ns[i].edu];
    }
  }

  function EduOf(n: Nation): real {
    n.edu
  }

  function Techs(ns: seq<Nation>): (r: seq<real>)
    requires AreNations(ns)
    ensures |r| == MAX_NATIONS + 1
  {
    LevelsOf(ns, TechOf, |ns|)
  }

  function Edus(ns: seq<Nation>): (r: seq<real>)
    requires AreNations(ns)
    ensures |r| == MAX_NATIONS + 1
  {
    LevelsOf(ns, EduOf, |ns|)
  }

  const ROLLOVER_MAX := 1000

  /** No sector has more work than may be left over. */
  ghost predicate Rolled(s: seq<Sector>) {
    forall i :: 0 <= i < |s| ==> s[i].avail <= ROLLOVER_MAX
  }

  function Finish(s: Sector): Sector {
    if s.avail > ROLLOVER_MAX then s.(avail := ROLLOVER_MAX) else s
  }

  ghost predicate Finished(s: seq<Sector>, t: seq<Sector>) {
    |s| == |t| && forall i :: 0 <= i < |s| ==> t[i] == Finish(s[i])
  }

  /** Work left at the end of the phases is capped. */
  method FinishSects(sectors: array<Sector>)
    modifies sectors
    ensures Finished(old(sectors[..]), sectors[..])
  {
    for i := 0 to sectors.Length
      invariant forall k :: 0 <= k < i ==> sectors[k] == Finish(old(sectors[k]))
      invariant forall k :: i <= k < sectors.Length ==> sectors[k] == old(sectors[k])
    {
      if sectors[i].avail > ROLLOVER_MAX {
        sectors[i] := sectors[i].(avail := ROLLOVER_MAX);
      }
    }
  }

  lemma {:induction false} PlotsPlaces(s: seq<Sector>, t: seq<Sector>)
    requires Populace.SamePlots(s, t)
    ensures SamePlaces(s, t)
  {
    forall i | 0 <= i < |s|
      ensures PosOfSector(t[i]) == PosOfSector(s[i])
    {
      assert Populace.SamePlot(s[i], t[i]);
    }
  }

  lemma {:induction false} PostsPlaces(s: seq<Sector>, t: seq<Sector>)
    requires Industry.SamePosts(s, t)
    ensures SamePlaces(s, t)
  {
    forall i | 0 <= i < |s|
      ensures PosOfSector(t[i]) == PosOfSector(s[i])
    {
      assert Industry.SamePost(s[i], t[i]);
    }
  }

  lemma {:induction false} KeptPlaces(s: seq<Sector>, t: seq<Sector>)
    requires Shipments.AllKept(s, t) && AllWellFormed(s)
    ensures SamePlaces(s, t) && AllWellFormed(t)
  {
    forall i | 0 <= i < |s|
      ensures PosOfSector(t[i]) == PosOfSector(s[i]) && WellFormed(t[i])
    {
      assert Shipments.Kept(s[i], t[i]) && WellFormed(s[i]);
    }
  }

  lemma {:induction false} StationsPlaces(s: seq<Sector>, t: seq<Sector>)
    requires Repair.SameStations(s, t)
    ensures SamePlaces(s, t) && (Rolled(s) ==> Rolled(t))
  {
    forall i | 0 <= i < |s|
      ensures PosOfSector(t[i]) == PosOfSector(s[i]) && t[i].avail <= s[i].avail
    {
      assert Repair.SameStation(s[i], t[i]);
    }
  }

  // ---------------------------------------------------------------------------------------------
  // A tick as a relation
  // ---------------------------------------------------------------------------------------------

  ghost predicate Prepared(k: Repair.Books, k': Repair.Books, etu: nat, r: Populace.Rates)
    requires AllWellFormed(k.sectors)
  {
    exists accounts :: Populace.PreparationRun(k.sectors, k'.sectors, etu, r, accounts)
                       && accounts[0] == k.budgets && accounts[|k.sectors|] == k'.budgets
  }

  ghost predicate Produced(k: Repair.Books, k': Repair.Books, ns: seq<Nation>, etu: nat)
    requires AllWellFormed(k.sectors) && AreNations(ns)
  {
    exists accounts :: Industry.ProductionRun(k.sectors, k'.sectors, Techs(ns), Edus(ns), etu, accounts)
                       && accounts[0] == k.budgets && accounts[|k.sectors|] == k'.budgets
  }

  ghost predicate Distributed(w: World, s: seq<Sector>, t: seq<Sector>, cmap: map<Pos, int>)
    requires w.Valid()
  {
    exists groups, order, trace :: IsDistribution(w, s, t, cmap, groups, order, trace)
  }

  ghost predicate IsDistribution(w: World, s: seq<Sector>, t: seq<Sector>, cmap: map<Pos, int>,
                                 groups: map<Distribution.Group, seq<int>>,
                                 order: seq<Distribution.Group>, trace: seq<seq<Sector>>)
    requires w.Valid()
  {
    Distribution.GroupsAre(s, groups) && Distribution.IsRun(w, cmap, groups, order, trace)
    && trace[0] == s && trace[|order|] == t && forall g :: g in groups <==> g in order
  }

  ghost predicate Repaired(yard: Repair.Yard, k: Repair.Books, k': Repair.Books, chrs: seq<Repair.UnitChr>,
                           cmap: map<Pos, int>,
                           etu: nat, cap: int, us: seq<Repair.Unit>, us': seq<Repair.Unit>)
  {
    exists trace :: Repair.RepairRun(yard, us, us', chrs, cmap, etu, cap, trace) && trace[0] == k && trace[|us|] == k'
  }

  /** The books between the phases; moved only holds sectors, whose accounts stay those of made. */
  datatype Stages = Stages(
    start: Repair.Books, prepared: Repair.Books, paid: Repair.Books, made: Repair.Books,
    delivered: seq<Sector>, moved: seq<Sector>, finished: seq<Sector>,
    ships: Repair.Books, planes: Repair.Books, lands: Repair.Books)

  datatype Fleets = Fleets(ships: seq<Repair.Unit>, planes: seq<Repair.Unit>, lands: seq<Repair.Unit>)

  /** The first phases follow from one another. */
  ghost predicate PeopleWorked(g: Stages, ns: seq<Nation>, etu: nat, rules: Rules)
    requires AreNations(ns)
  {
    AllWellFormed(g.start.sectors) && AllShaped(g.start.budgets) && Prepared(g.start, g.prepared, etu, rules.rates)
    && AllShaped(g.prepared.budgets)
    && g.paid == Repair.Books(g.prepared.sectors, ReservesPaid(ns, g.prepared.budgets, etu, rules.rates, |ns|))
    && AllWellFormed(g.paid.sectors) && Produced(g.paid, g.made, ns, etu)
  }

  /** Delivery, distribution and rollover follow; the budget preview leaves out the first two. */
  ghost predicate GoodsMoved(w: World, g: Stages, cmap: map<Pos, int>, moves: bool)
    requires w.Valid()
  {
    MovedBy(w, g.made.sectors, g.delivered, g.moved, g.finished, cmap, moves)
  }

  ghost predicate MovedBy(w: World, made: seq<Sector>, delivered: seq<Sector>, moved: seq<Sector>,
                          finished: seq<Sector>,
                          cmap: map<Pos, int>, moves: bool)
    requires w.Valid()
  {
    Indexed(made, cmap) && Shipments.Ready(made, cmap)
    && (if moves then delivered == Delivery.Delivered(w, made, cmap, |made|) && Distributed(w, delivered, moved, cmap)
        else delivered == moved == made)
    && Finished(moved, finished)
  }

  /** Ships were built up, and then worked at sea. */
  ghost predicate Shipped(k: Repair.Books, k': Repair.Books, ns: seq<Nation>, cmap: map<Pos, int>, etu: nat,
                          rules: Rules,
                          us: seq<Repair.Unit>, us': seq<Repair.Unit>)
    requires AreNations(ns)
  {
    exists mid, built :: IsShipping(k, mid, k', ns, cmap, etu, rules, us, built, us')
  }

  ghost predicate IsShipping(k: Repair.Books, mid: Repair.Books, k': Repair.Books, ns: seq<Nation>, cmap: map<Pos, int>,
                             etu: nat, rules: Rules, us: seq<Repair.Unit>, built: seq<Repair.Unit>,
                             us': seq<Repair.Unit>)
    requires AreNations(ns)
  {
    Repaired(Repair.ShipYard, k, mid, rules.shipChrs, cmap, etu, rules.shipCap, us, built)
    && Sailed(mid.sectors, k'.sectors, Ocean.Setting(rules.gears, Techs(ns), mid.budgets, cmap, etu), built, us')
    && k'.budgets == mid.budgets
  }

  ghost predicate Sailed(s: seq<Sector>, t: seq<Sector>, q: Ocean.Setting, us: seq<Repair.Unit>,
                         us': seq<Repair.Unit>) {
    exists trace, catches :: Ocean.SeaRun(us, us', q, trace, catches) && trace[0] == s && trace[|us|] == t
  }

  /** Repairs follow, and ships at sea produce oil and food. */
  ghost predicate UnitsBuilt(g: Stages, ns: seq<Nation>, cmap: map<Pos, int>, etu: nat, rules: Rules, f: Fleets,
                             f': Fleets)
    requires AreNations(ns)
  {
    Shipped(Repair.Books(g.finished, g.made.budgets), g.ships, ns, cmap, etu, rules, f.ships, f'.ships)
    && Repaired(Repair.PlaneYard, g.ships, g.planes, rules.planeChrs, cmap, etu, rules.planeCap, f.planes, f'.planes)
    && Repaired(Repair.LandYard, g.planes, g.lands, rules.landChrs, cmap, etu, rules.landCap, f.lands, f'.lands)
  }

  lemma {:induction false} PeopleWorkedKeeps(g: Stages, ns: seq<Nation>, etu: nat, rules: Rules)
    requires AreNations(ns) && RulesOk(rules, etu) && PeopleWorked(g, ns, etu, rules)
    ensures AllWellFormed(g.made.sectors) && AllShaped(g.made.budgets) && SamePlaces(g.start.sectors, g.made.sectors)
    ensures MissesRecruits(g.start.sectors, g.made.sectors, g.start.budgets, g.made.budgets)
  {
    hide MissesRecruits, AllWellFormed, AllShaped, Populace.Sensible, Populace.SamePlots, Industry.SamePosts,
         SamePlaces,
      Populace.PrepareStep, Industry.StepOutcome;
    var s0, s1, s2 := g.start.sectors, g.prepared.sectors, g.made.sectors;
    var accounts :| Populace.PreparationRun(s0, s1, etu, rules.rates, accounts)
                    && accounts[0] == g.start.budgets && accounts[|s0|] == g.prepared.budgets;
    Populace.PreparationKeeps(s0, s1, etu, rules.rates, accounts, |s0|);
    SofarIs(s0, s1, |s0|);
    PlotsPlaces(s0, s1);
    ReservesKeep(ns, g.prepared.budgets, etu, rules.rates, |ns|, s1);
    MissesRecruitsChain(s0, s1, s1, g.start.budgets, g.prepared.budgets, g.paid.budgets);
    var accounts' :| Industry.ProductionRun(s1, s2, Techs(ns), Edus(ns), etu, accounts')
                     && accounts'[0] == g.paid.budgets && accounts'[|s1|] == g.made.budgets;
    Industry.ProductionKeeps(s1, s2, Techs(ns), Edus(ns), etu, accounts', |s1|);
    SofarIs(s1, s2, |s1|);
    PostsPlaces(s1, s2);
    PlacesChain(s0, s1, s2);
    MissesRecruitsChain(s0, s1, s2, g.start.budgets, g.paid.budgets, g.made.budgets);
  }

  lemma {:induction false} FinishedKeeps(s: seq<Sector>, t: seq<Sector>, bs: seq<Budget>)
    requires Finished(s, t) && AllWellFormed(s)
    ensures SamePlaces(s, t) && MissesRecruits(s, t, bs, bs) && AllWellFormed(t) && Rolled(t)
  {
    forall n
      ensures Soldiers(s, n) == Soldiers(t, n)
    {
      SameStocksSameHeld(s, t, Some(n), MILIT);
    }
    SameSoldiers(s, t, bs);
    hide MissesRecruits;
    forall i | 0 <= i < |s|
      ensures WellFormed(t[i])
    {
      assert WellFormed(s[i]);
    }
  }

  lemma {:induction false} IndexedByPlace(s: seq<Sector>, t: seq<Sector>, cmap: map<Pos, int>)
    requires Indexed(s, cmap) && SamePlaces(s, t)
    ensures Indexed(t, cmap)
  {}

  lemma {:induction false} PlacesChain(a: seq<Sector>, b: seq<Sector>, c: seq<Sector>)
    requires SamePlaces(a, b) && SamePlaces(b, c)
    ensures SamePlaces(a, c)
  {}

  lemma {:induction false} SamePlacesSelf(a: seq<Sector>)
    ensures SamePlaces(a, a)
  {}

  lemma {:induction false} ReadyToMove(s: seq<Sector>, cmap: map<Pos, int>)
    requires AllWellFormed(s) && Indexed(s, cmap)
    ensures Shipments.Ready(s, cmap)
  {
    forall i | 0 <= i < |s|
      ensures Stocked(s[i]) && Ordered(s[i])
    {
      assert WellFormed(s[i]);
    }
  }

  /** Delivery, then distribution: goods only change places within a nation, no stock is overdrawn or filled
      beyond its limit, and only mobility there is gets spent. */
  lemma {:induction false} MovesKeep(w: World, s: seq<Sector>, t: seq<Sector>, u: seq<Sector>, cmap: map<Pos, int>,
                                     bs: seq<Budget>)
    requires w.Valid() && AllWellFormed(s) && Indexed(s, cmap) && Shipments.Ready(s, cmap)
    requires t == Delivery.Delivered(w, s, cmap, |s|) && Distributed(w, t, u, cmap)
    ensures AllWellFormed(u) && SamePlaces(s, u) && Shipments.SameHeld(s, u) && MissesRecruits(s, u, bs, bs)
    ensures Shipments.AllKept(s, u)
  {
    hide MissesRecruits, AllWellFormed, Indexed, Shipments.SameHeld, Shipments.AllKept, Shipments.Ready,
         Distribution.IsRun,
      SamePlaces, Delivery.Delivered, Distribution.GroupsAre;
    Delivery.DeliveryKeeps(w, s, cmap, |s|);
    KeptPlaces(s, t);
    IndexedByPlace(s, t, cmap);
    ReadyToMove(t, cmap);
    var groups, order, trace :| IsDistribution(w, t, u, cmap, groups, order, trace);
    Distribution.DistributionKeeps(w, cmap, groups, order, trace, |order|);
    KeptPlaces(t, u);
    PlacesChain(s, t, u);
    Shipments.SameHeldChain(s, t, u);
    Shipments.AllKeptChain(s, t, u);
    SameHeldSoldiers(s, u, bs);
  }

  lemma {:induction false} GoodsMovedKeeps(w: World, g: Stages, cmap: map<Pos, int>, moves: bool)
    requires w.Valid() && GoodsMoved(w, g, cmap, moves) && AllWellFormed(g.made.sectors)
    ensures AllWellFormed(g.finished) && Rolled(g.finished) && SamePlaces(g.made.sectors, g.finished)
            && Indexed(g.finished, cmap)
    ensures MissesRecruits(g.made.sectors, g.finished, g.made.budgets, g.made.budgets)
  {
    hide MissesRecruits, AllWellFormed, Indexed, Shipments.Ready, SamePlaces, Delivery.Delivered, Distributed,
         Finished, Rolled;
    var s, bs := g.made.sectors, g.made.budgets;
    if moves {
      MovesKeep(w, s, g.delivered, g.moved, cmap, bs);
    } else {
      NothingMissed(s, bs);
      SamePlacesSelf(s);
    }
    FinishedKeeps(g.moved, g.finished, bs);
    PlacesChain(s, g.moved, g.finished);
    IndexedByPlace(s, g.finished, cmap);
    MissesRecruitsChain(s, g.moved, g.finished, bs, bs, bs);
  }

  lemma {:induction false} StillUnits(yard: Repair.Yard, us: seq<Repair.Unit>, us': seq<Repair.Unit>,
                                      chrs: seq<Repair.UnitChr>, cmap: map<Pos, int>, etu: nat, cap: int,
                                      trace: seq<Repair.Books>)
    requires Repair.RepairRun(yard, us, us', chrs, cmap, etu, cap, trace) && Repair.BooksOk(trace[0], cmap)
    ensures forall j :: 0 <= j < |us'| ==> Repair.IsUnit(us'[j])
  {
    Repair.RepairKeeps(yard, us, us', chrs, cmap, etu, cap, trace, |us|);
    hide Repair.BooksOk, Repair.RepairStep;
  }

  lemma {:induction false} RepairedKeeps(yard: Repair.Yard, k: Repair.Books, k': Repair.Books,
                                         chrs: seq<Repair.UnitChr>, cmap: map<Pos, int>,
                      etu: nat, cap: int, us: seq<Repair.Unit>, us': seq<Repair.Unit>)
    requires Repair.BooksOk(k, cmap) && Repaired(yard, k, k', chrs, cmap, etu, cap, us, us')
    ensures Repair.BooksOk(k', cmap) && SamePlaces(k.sectors, k'.sectors) && (Rolled(k.sectors) ==> Rolled(k'.sectors))
    ensures MissesRecruits(k.sectors, k'.sectors, k.budgets, k'.budgets) && AllUnits(us')
  {
    hide MissesRecruits, Repair.BooksOk, Repair.SameStations, Repair.RepairStep, Repair.IsUnit, Rolled, SamePlaces;
    var trace :| Repair.RepairRun(yard, us, us', chrs, cmap, etu, cap, trace) && trace[0] == k && trace[|us|] == k';
    StillUnits(yard, us, us', chrs, cmap, etu, cap, trace);
    Repair.RepairKeeps(yard, us, us', chrs, cmap, etu, cap, trace, |us|);
    StationsPlaces(k.sectors, k'.sectors);
  }

  lemma {:induction false} SailedKeeps(s: seq<Sector>, t: seq<Sector>, q: Ocean.Setting, bs: seq<Budget>,
                                       us: seq<Repair.Unit>, us': seq<Repair.Unit>)
    requires Repair.BooksOk(Repair.Books(s, bs), q.cmap) && Sailed(s, t, q, us, us')
    ensures Repair.BooksOk(Repair.Books(t, bs), q.cmap) && SamePlaces(s, t) && (Rolled(s) ==> Rolled(t))
    ensures MissesRecruits(s, t, bs, bs) && AllUnits(us')
  {
    hide AllWellFormed, AllShaped, Indexed;
    var trace, catches :| Ocean.SeaRun(us, us', q, trace, catches) && trace[0] == s && trace[|us|] == t;
    Ocean.SeaRunKeeps(us, us', q, trace, catches, |us|);
    Ocean.StillShips(us, us', q, trace, catches);
    hide Ocean.SeaRun;
    forall i | 0 <= i < |s|
      ensures PosOfSector(t[i]) == PosOfSector(s[i]) && t[i].avail == s[i].avail && t[i].own == s[i].own
              && t[i].items == s[i].items
    {
      assert Ocean.SameBed(s[i], t[i]);
    }
    forall n
      ensures Soldiers(s, n) == Soldiers(t, n)
    {
      SameStocksSameHeld(s, t, Some(n), MILIT);
    }
    SameSoldiers(s, t, bs);
  }

  lemma {:induction false} ShippedKeeps(k: Repair.Books, k': Repair.Books, ns: seq<Nation>, cmap: map<Pos, int>,
                                        etu: nat, rules: Rules, us: seq<Repair.Unit>, us': seq<Repair.Unit>)
    requires AreNations(ns) && Repair.BooksOk(k, cmap) && Shipped(k, k', ns, cmap, etu, rules, us, us')
    ensures Repair.BooksOk(k', cmap) && SamePlaces(k.sectors, k'.sectors) && (Rolled(k.sectors) ==> Rolled(k'.sectors))
    ensures MissesRecruits(k.sectors, k'.sectors, k.budgets, k'.budgets) && AllUnits(us')
  {
    hide MissesRecruits, Repair.BooksOk, Repaired, Sailed, Rolled, SamePlaces, AreNations, AllUnits;
    var mid, built :| IsShipping(k, mid, k', ns, cmap, etu, rules, us, built, us');
    var q := Ocean.Setting(rules.gears, Techs(ns), mid.budgets, cmap, etu);
    RepairedKeeps(Repair.ShipYard, k, mid, rules.shipChrs, cmap, etu, rules.shipCap, us, built);
    assert mid == Repair.Books(mid.sectors, mid.budgets) && k' == Repair.Books(k'.sectors, mid.budgets);
    SailedKeeps(mid.sectors, k'.sectors, q, mid.budgets, built, us');
    MissesRecruitsChain(k.sectors, mid.sectors, k'.sectors, k.budgets, mid.budgets, k'.budgets);
    PlacesChain(k.sectors, mid.sectors, k'.sectors);
  }

  lemma {:induction false} UnitsBuiltKeeps(g: Stages, ns: seq<Nation>, cmap: map<Pos, int>, etu: nat, rules: Rules,
                                           f: Fleets, f': Fleets)
    requires AreNations(ns) && UnitsBuilt(g, ns, cmap, etu, rules, f, f') && Rolled(g.finished)
    requires Repair.BooksOk(Repair.Books(g.finished, g.made.budgets), cmap)
    ensures Repair.BooksOk(g.lands, cmap) && SamePlaces(g.finished, g.lands.sectors) && Rolled(g.lands.sectors)
    ensures MissesRecruits(g.finished, g.lands.sectors, g.made.budgets, g.lands.budgets)
    ensures AllUnits(f'.ships) && AllUnits(f'.planes) && AllUnits(f'.lands)
  {
    hide MissesRecruits, Repair.BooksOk, Repaired, Shipped, Rolled, SamePlaces, AreNations, AllUnits;
    var k := Repair.Books(g.finished, g.made.budgets);
    ShippedKeeps(k, g.ships, ns, cmap, etu, rules, f.ships, f'.ships);
    RepairedKeeps(Repair.PlaneYard, g.ships, g.planes, rules.planeChrs, cmap, etu, rules.planeCap, f.planes, f'.planes);
    RepairedKeeps(Repair.LandYard, g.planes, g.lands, rules.landChrs, cmap, etu, rules.landCap, f.lands, f'.lands);
    MissesRecruitsChain(k.sectors, g.ships.sectors, g.planes.sectors, k.budgets, g.ships.budgets, g.planes.budgets);
    MissesRecruitsChain(k.sectors, g.planes.sectors, g.lands.sectors, k.budgets, g.planes.budgets, g.lands.budgets);
    PlacesChain(k.sectors, g.ships.sectors, g.planes.sectors);
    PlacesChain(k.sectors, g.planes.sectors, g.lands.sectors);
  }

  /** A whole tick, for any outcome of the dice and any order of the distribution groups. */
  ghost predicate IsTick(w: World, g: Stages, ns: seq<Nation>, etu: nat, rules: Rules, cmap: map<Pos, int>,
                         moves: bool, f: Fleets, f': Fleets)
    requires w.Valid() && AreNations(ns)
  {
    PeopleWorked(g, ns, etu, rules) && GoodsMoved(w, g, cmap, moves) && UnitsBuilt(g, ns, cmap, etu, rules, f, f')
  }

  /** Every sector stays well-formed and in its place, and each nation's balance misses exactly the pay of
      the soldiers it gained. */
  lemma {:induction false} TickKeeps(w: World, g: Stages, ns: seq<Nation>, etu: nat, rules: Rules,
                                     cmap: map<Pos, int>, moves: bool, f: Fleets, f': Fleets)
    requires w.Valid() && AreNations(ns) && RulesOk(rules, etu) && IsTick(w, g, ns, etu, rules, cmap, moves, f, f')
    ensures AllWellFormed(g.lands.sectors) && AllShaped(g.lands.budgets)
    ensures SamePlaces(g.start.sectors, g.lands.sectors) && Rolled(g.lands.sectors)
    ensures MissesRecruits(g.start.sectors, g.lands.sectors, g.start.budgets, g.lands.budgets)
    ensures AllUnits(f'.ships) && AllUnits(f'.planes) && AllUnits(f'.lands)
  {
    var s, t, u, v := g.start.sectors, g.made.sectors, g.finished, g.lands.sectors;
    assert Indexed(t, cmap);
    hide MissesRecruits, AllWellFormed, AllShaped, PeopleWorked, GoodsMoved, UnitsBuilt, SamePlaces, Rolled, Indexed,
         RulesOk;
    PeopleWorkedKeeps(g, ns, etu, rules);
    GoodsMovedKeeps(w, g, cmap, moves);
    UnitsBuiltKeeps(g, ns, cmap, etu, rules, f, f');
    PlacesChain(s, t, u);
    PlacesChain(s, u, v);
    MissesRecruitsChain(s, t, u, g.start.budgets, g.made.budgets, g.made.budgets);
    MissesRecruitsChain(s, u, v, g.start.budgets, g.made.budgets, g.lands.budgets);
  }

  /** What the lines of an account that was just opened miss at the end of a tick: what its soldiers cost. */
  lemma {:induction false} MissedSinceStart(s: seq<Sector>, t: seq<Sector>, bs: seq<Budget>, bs': seq<Budget>, n: int)
    requires 0 <= n < |bs| && MissesRecruits(s, t, bs, bs') && Unrecorded(bs[n]) == 0.0
    ensures bs'[n].startMoney + Recorded(bs'[n]) - bs'[n].money ==
              PAY_PER_RECRUIT * (Soldiers(t, n) - Soldiers(s, n)) as real
  {
    hide Recorded, Held;
    assert Continues(bs[n], bs'[n]);
  }

  // ---------------------------------------------------------------------------------------------
  // The update and the preview
  // ---------------------------------------------------------------------------------------------

  method WorkPeople(sectors: array<Sector>, budgets: array<Budget>, ns: seq<Nation>, etu: nat, rules: Rules)
    returns (ghost prepared: Repair.Books, ghost paid: Repair.Books)
    requires AllWellFormed(sectors[..]) && AllShaped(budgets[..]) && AreNations(ns) && RulesOk(rules, etu)
    modifies sectors, budgets
    ensures AllWellFormed(prepared.sectors) && AllShaped(prepared.budgets)
    ensures Prepared(Repair.Books(old(sectors[..]), old(budgets[..])), prepared, etu, rules.rates)
    ensures paid == Repair.Books(prepared.sectors, ReservesPaid(ns, prepared.budgets, etu, rules.rates, |ns|))
    ensures Produced(paid, Repair.Books(sectors[..], budgets[..]), ns, etu)
  {
    hide AllWellFormed, AllShaped, AreNations, Populace.Sensible, Populace.SamePlots, Populace.PreparationRun,
         Industry.ProductionRun;
    ghost var s0, b0 := sectors[..], budgets[..];
    ghost var accounts := Populace.PrepareSects(sectors, budgets, etu, rules.rates);
    prepared := Repair.Books(sectors[..], budgets[..]);
    Populace.PreparationKeeps(s0, sectors[..], etu, rules.rates, accounts, |s0|);
    SofarIs(s0, sectors[..], |s0|);
    PayReserves(ns, budgets, etu, rules.rates);
    paid := Repair.Books(sectors[..], budgets[..]);
    var tech, edu := Levels(ns);
    accounts := Industry.ProduceSects(sectors, budgets, tech, edu, etu);
  }

  /** Ships are built up, and then produce oil and food at sea. */
  method BuildShips(sectors: array<Sector>, budgets: array<Budget>, ships: array<Repair.Unit>, ns: seq<Nation>,
                    cmap: map<Pos, int>, etu: nat, rules: Rules)
    requires Repair.BooksOk(Repair.Books(sectors[..], budgets[..]), cmap) && RulesOk(rules, etu)
    requires AllUnits(ships[..]) && AreNations(ns)
    modifies sectors, budgets, ships
    ensures Repair.BooksOk(Repair.Books(sectors[..], budgets[..]), cmap)
    ensures Shipped(Repair.Books(old(sectors[..]), old(budgets[..])), Repair.Books(sectors[..], budgets[..]), ns, cmap,
                    etu, rules, old(ships[..]), ships[..])
  {
    hide Repair.RepairRun, Repair.AllChrs, Repair.IsUnit, Populace.Sensible, AllWellFormed, Indexed, AllShaped,
         AreNations, Ocean.AllGear, Ocean.SeaRun, IsShipping;
    ghost var us, k := ships[..], Repair.Books(sectors[..], budgets[..]);
    ghost var trace := Repair.ProdUnits(Repair.ShipYard, ships, sectors, budgets, rules.shipChrs, cmap, etu,
                                        rules.shipCap);
    ghost var built, mid := ships[..], Repair.Books(sectors[..], budgets[..]);
    StillUnits(Repair.ShipYard, us, built, rules.shipChrs, cmap, etu, rules.shipCap, trace);
    AccountsCount(budgets[..]);
    var tech, edu := Levels(ns);
    var q := Ocean.Setting(rules.gears, tech, budgets[..], cmap, etu);
    ghost var seas, catches := Ocean.ShipProduceOcean(ships, sectors, q);
    ShippingIs(k, mid, sectors[..], ns, cmap, etu, rules, us, built, ships[..], seas, catches);
    ShippedKeeps(k, Repair.Books(sectors[..], budgets[..]), ns, cmap, etu, rules, us, ships[..]);
  }

  lemma {:induction false} ShippingIs(k: Repair.Books, mid: Repair.Books, t: seq<Sector>, ns: seq<Nation>,
                                      cmap: map<Pos, int>, etu: nat, rules: Rules, us: seq<Repair.Unit>,
                                      built: seq<Repair.Unit>, us': seq<Repair.Unit>, seas: seq<seq<Sector>>,
                                      catches: seq<Ocean.Catch>)
    requires AreNations(ns) && Repaired(Repair.ShipYard, k, mid, rules.shipChrs, cmap, etu, rules.shipCap, us, built)
    requires Ocean.SeaRun(built, us', Ocean.Setting(rules.gears, Techs(ns), mid.budgets, cmap, etu), seas, catches)
    requires seas[0] == mid.sectors && seas[|built|] == t
    ensures Shipped(k, Repair.Books(t, mid.budgets), ns, cmap, etu, rules, us, us')
  {
    hide Repaired, Ocean.SeaRun, AreNations;
    assert Sailed(mid.sectors, t, Ocean.Setting(rules.gears, Techs(ns), mid.budgets, cmap, etu), built, us');
    assert IsShipping(k, mid, Repair.Books(t, mid.budgets), ns, cmap, etu, rules, us, built, us');
  }

  method BuildUnits(sectors: array<Sector>, budgets: array<Budget>, ships: array<Repair.Unit>,
                    planes: array<Repair.Unit>,
                    lands: array<Repair.Unit>, ns: seq<Nation>, cmap: map<Pos, int>, etu: nat, rules: Rules)
    returns (ghost afterShips: Repair.Books, ghost afterPlanes: Repair.Books)
    requires Repair.BooksOk(Repair.Books(sectors[..], budgets[..]), cmap) && RulesOk(rules, etu) && AreNations(ns)
    requires AllUnits(ships[..]) && AllUnits(planes[..]) && AllUnits(lands[..])
    requires ships != planes && planes != lands && lands != ships
    modifies sectors, budgets, ships, planes, lands
    ensures Shipped(Repair.Books(old(sectors[..]), old(budgets[..])), afterShips, ns, cmap, etu, rules,
                    old(ships[..]), ships[..])
    ensures Repaired(Repair.PlaneYard, afterShips, afterPlanes, rules.planeChrs, cmap, etu, rules.planeCap,
                     old(planes[..]), planes[..])
    ensures Repaired(Repair.LandYard, afterPlanes, Repair.Books(sectors[..], budgets[..]), rules.landChrs, cmap, etu,
                     rules.landCap,
                     old(lands[..]), lands[..])
  {
    hide Repair.BooksOk, Repair.RepairRun, Repair.AllChrs, Repair.IsUnit, Populace.Sensible, Shipped, AreNations;
    BuildShips(sectors, budgets, ships, ns, cmap, etu, rules);
    afterShips := Repair.Books(sectors[..], budgets[..]);
    AllUnitsAre(planes[..]);
    ghost var trace := Repair.ProdUnits(Repair.PlaneYard, planes, sectors, budgets, rules.planeChrs, cmap, etu,
                                        rules.planeCap);
    afterPlanes := Repair.Books(sectors[..], budgets[..]);
    AllUnitsAre(lands[..]);
    trace := Repair.ProdUnits(Repair.LandYard, lands, sectors, budgets, rules.landChrs, cmap, etu, rules.landCap);
  }

  lemma {:induction false} AllUnitsAre(us: seq<Repair.Unit>)
    requires AllUnits(us)
    ensures forall j :: 0 <= j < |us| ==> Repair.IsUnit(us[j])
  {}

  /** All phases on the given sectors, units and freshly opened accounts. */
  method RunTick(w: World, sectors: array<Sector>, budgets: array<Budget>, ships: array<Repair.Unit>,
                 planes: array<Repair.Unit>,
                 lands: array<Repair.Unit>, ns: seq<Nation>, etu: nat, rules: Rules, moves: bool)
    returns (ghost g: Stages, ghost cmap: map<Pos, int>)
    requires w.Valid() && AllWellFormed(sectors[..]) && DistinctPlaces(sectors[..]) && AreNations(ns)
             && RulesOk(rules, etu)
    requires AllShaped(budgets[..]) && AllUnits(ships[..]) && AllUnits(planes[..]) && AllUnits(lands[..])
    requires ships != planes && planes != lands && lands != ships
    modifies sectors, budgets, ships, planes, lands
    ensures IsTick(w, g, ns, etu, rules, cmap, moves, Fleets(old(ships[..]), old(planes[..]), old(lands[..])),
                   Fleets(ships[..], planes[..], lands[..]))
    ensures g.start == Repair.Books(old(sectors[..]), old(budgets[..]))
            && g.lands == Repair.Books(sectors[..], budgets[..])
  {
    hide *;
    ghost var start := Repair.Books(sectors[..], budgets[..]);
    ghost var prepared, paid := WorkPeople(sectors, budgets, ns, etu, rules);
    ghost var made := Repair.Books(sectors[..], budgets[..]);
    g := Stages(start, prepared, paid, made, made.sectors, made.sectors, made.sectors, made, made, made);
    PeopleWorkedIs(g, ns, etu, rules);
    PeopleWorkedKeeps(g, ns, etu, rules);
    PlacesStayDistinct(start.sectors, made.sectors);
    var found := BuildCoordMap(sectors[..]);
    cmap := found;
    ghost var delivered, moved := MoveAndFinish(w, sectors, found, moves);
    g := g.(delivered := delivered, moved := moved, finished := sectors[..]);
    GoodsMovedIs(w, g, found, moves);
    GoodsMovedKeeps(w, g, found, moves);
    BooksAre(sectors[..], budgets[..], cmap);
    ghost var afterShips, afterPlanes := BuildUnits(sectors, budgets, ships, planes, lands, ns, found, etu, rules);
    g := g.(ships := afterShips, planes := afterPlanes, lands := Repair.Books(sectors[..], budgets[..]));
    GoodsMovedIs(w, g, found, moves);
    TickIs(w, g, ns, etu, rules, cmap, moves, Fleets(old(ships[..]), old(planes[..]), old(lands[..])),
           Fleets(ships[..], planes[..], lands[..]));
  }

  lemma {:induction false} PeopleWorkedIs(g: Stages, ns: seq<Nation>, etu: nat, rules: Rules)
    requires AreNations(ns) && AllWellFormed(g.start.sectors) && AllShaped(g.start.budgets)
    requires Prepared(g.start, g.prepared, etu, rules.rates) && AllWellFormed(g.prepared.sectors)
             && AllShaped(g.prepared.budgets)
    requires g.paid == Repair.Books(g.prepared.sectors, ReservesPaid(ns, g.prepared.budgets, etu, rules.rates, |ns|))
    requires Produced(g.paid, g.made, ns, etu)
    ensures PeopleWorked(g, ns, etu, rules)
  {}

  lemma {:induction false} GoodsMovedIs(w: World, g: Stages, cmap: map<Pos, int>, moves: bool)
    requires w.Valid() && MovedBy(w, g.made.sectors, g.delivered, g.moved, g.finished, cmap, moves)
    ensures GoodsMoved(w, g, cmap, moves)
  {}

  lemma {:induction false} BooksAre(s: seq<Sector>, bs: seq<Budget>, cmap: map<Pos, int>)
    requires AllWellFormed(s) && AllShaped(bs) && Indexed(s, cmap)
    ensures Repair.BooksOk(Repair.Books(s, bs), cmap)
  {}

  lemma {:induction false} TickIs(w: World, g: Stages, ns: seq<Nation>, etu: nat, rules: Rules, cmap: map<Pos, int>,
                                  moves: bool, f: Fleets, f': Fleets)
    requires w.Valid() && AreNations(ns) && GoodsMoved(w, g, cmap, moves)
    requires PeopleWorked(g.(delivered := g.made.sectors, moved := g.made.sectors, finished := g.made.sectors,
                             ships := g.made, planes := g.made, lands := g.made), ns, etu, rules)
    requires Shipped(Repair.Books(g.finished, g.made.budgets), g.ships, ns, cmap, etu, rules, f.ships, f'.ships)
    requires Repaired(Repair.PlaneYard, g.ships, g.planes, rules.planeChrs, cmap, etu, rules.planeCap, f.planes,
                      f'.planes)
    requires Repaired(Repair.LandYard, g.planes, g.lands, rules.landChrs, cmap, etu, rules.landCap, f.lands, f'.lands)
    ensures IsTick(w, g, ns, etu, rules, cmap, moves, f, f')
  {
    hide Repaired, Shipped, GoodsMoved;
  }

  /** Delivery and distribution, unless they are left out, and the rollover. */
  method MoveAndFinish(w: World, sectors: array<Sector>, cmap: map<Pos, int>, moves: bool)
    returns (ghost delivered: seq<Sector>, ghost moved: seq<Sector>)
    requires w.Valid() && AllWellFormed(sectors[..]) && Indexed(sectors[..], cmap)
    modifies sectors
    ensures MovedBy(w, old(sectors[..]), delivered, moved, sectors[..], cmap, moves)
  {
    hide AllWellFormed, Indexed, Distributed, Delivery.Delivered, Finished, Shipments.Ready;
    ReadyToMove(sectors[..], cmap);
    delivered := sectors[..];
    if moves {
      delivered := MoveGoods(w, sectors, cmap);
    }
    moved := sectors[..];
    FinishSects(sectors);
  }

  /** What the tick means for each nation. */
  ghost predicate Accounted(ns: seq<Nation>, s: seq<Sector>, t: seq<Sector>, bs: seq<Budget>)
    requires AreNations(ns) && |bs| == MAX_NATIONS + 1
  {
    forall i :: 0 <= i < |ns| && ns[i].Active() ==>
      var b, n := bs[ns[i].cnum], ns[i].cnum;
      ns[i].money as real + Recorded(b) - b.money == PAY_PER_RECRUIT * (Soldiers(t, n) - Soldiers(s, n)) as real
  }

  lemma {:induction false} TickAccounts(ns: seq<Nation>, s: seq<Sector>, t: seq<Sector>, bs: seq<Budget>,
                                        bs': seq<Budget>)
    requires AreNations(ns) && |bs| == |bs'| == MAX_NATIONS + 1 && OpenedFor(ns, bs) && MissesRecruits(s, t, bs, bs')
    ensures Accounted(ns, s, t, bs')
  {
    hide Recorded, Held, MissesRecruits, Unrecorded;
    forall i | 0 <= i < |ns| && ns[i].Active()
      ensures var b, n := bs'[ns[i].cnum], ns[i].cnum;
              ns[i].money as real + Recorded(b) - b.money == PAY_PER_RECRUIT * (Soldiers(t, n) - Soldiers(s, n)) as real
    {
      MissedSinceStart(s, t, bs, bs', ns[i].cnum);
      StartStays(s, t, bs, bs', ns[i].cnum);
    }
  }

  lemma {:induction false} StartStays(s: seq<Sector>, t: seq<Sector>, bs: seq<Budget>, bs': seq<Budget>, n: int)
    requires MissesRecruits(s, t, bs, bs') && 0 <= n < |bs|
    ensures bs'[n].startMoney == bs[n].startMoney
  {}

  /** The levels and treasuries the update makes, before they age. */
  function Levelleds(ns: seq<Nation>, bs: seq<Budget>, etu: nat, rules: Rules): (ms: seq<Nation>)
    requires AreNations(ns) && AllCounted(bs) && Steady(rules.levels) && etu >= 1
    ensures |ms| == |ns|
  {
    seq(|ns|, i requires 0 <= i < |ns| => Levelled(ns[i], bs, etu, rules.levels, rules.log))
  }

  ghost predicate AllCounted(bs: seq<Budget>) {
    |bs| == MAX_NATIONS + 1 && forall n :: 0 <= n < |bs| ==> Counted(bs[n])
  }

  /** Nations learned and earned, and then aged with some luck. */
  ghost predicate Learned(ns: seq<Nation>, ms: seq<Nation>, bs: seq<Budget>, etu: nat, rules: Rules, lucks: seq<Luck>)
  {
    AreNations(ns) && AllCounted(bs) && Steady(rules.levels) && etu >= 1 && |ms| == |lucks| == |ns|
    && var made := Levelleds(ns, bs, etu, rules);
       forall i :: 0 <= i < |ns| ==>
         CanFall(made[i], etu, lucks[i])
         && ms[i] == Aged(made[i], etu, rules.levels.ageRate, Best(made, TechOf, |ns|), Best(made, ResearchOf, |ns|),
                          lucks[i])
  }

  /** After the update, the treasury of each nation that takes part is its balance, and all are nations still:
      no level is negative unless more is forgotten than there was. */
  lemma {:induction false} LearnedKeeps(ns: seq<Nation>, ms: seq<Nation>, bs: seq<Budget>, etu: nat, rules: Rules,
                                        lucks: seq<Luck>)
    requires etu <= 2400 && Learned(ns, ms, bs, etu, rules, lucks)
    ensures forall i :: 0 <= i < |ns| ==>
              ms[i].money == if ns[i].Active() then Nearest(bs[ns[i].cnum].money) else ns[i].money
    ensures rules.levels.ageRate == 0.0 || etu as real <= 100.0 * rules.levels.ageRate ==> AreNations(ms)
    ensures AreNations(ns) && |bs| == MAX_NATIONS + 1 && |ms| == |ns|
  {
    hide CanFall, Best, WithLevels, Decayed, CaughtUp, Steady, Nearest;
    var made := Levelleds(ns, bs, etu, rules);
    forall i | 0 <= i < |ns|
      ensures ms[i].money == (if ns[i].Active() then Nearest(bs[ns[i].cnum].money) else ns[i].money)
              && ms[i].cnum == ns[i].cnum
      ensures rules.levels.ageRate == 0.0 || etu as real <= 100.0 * rules.levels.ageRate ==> IsNation(ms[i])
    {
      assert made[i] == Levelled(ns[i], bs, etu, rules.levels, rules.log);
      LearnedOne(ns[i], bs, etu, rules, Best(made, TechOf, |ns|), Best(made, ResearchOf, |ns|), lucks[i]);
    }
  }

  lemma {:induction false} LearnedOne(n: Nation, bs: seq<Budget>, etu: nat, rules: Rules, bestTech: real,
                                      bestResearch: real, l: Luck)
    requires IsNation(n) && AllCounted(bs) && Steady(rules.levels) && 1 <= etu <= 2400
    requires CanFall(Levelled(n, bs, etu, rules.levels, rules.log), etu, l)
    ensures var made := Levelled(n, bs, etu, rules.levels, rules.log);
            var m := Aged(made, etu, rules.levels.ageRate, bestTech, bestResearch, l);
            m.cnum == n.cnum && m.money == (if n.Active() then Nearest(bs[n.cnum].money) else n.money)
            && (rules.levels.ageRate == 0.0 || etu as real <= 100.0 * rules.levels.ageRate ==> IsNation(m))
  {
    var made := Levelled(n, bs, etu, rules.levels, rules.log);
    if n.Active() {
      WithLevelsKeeps(n, bs[n.cnum], etu, rules.levels, rules.log);
    }
    if rules.levels.ageRate == 0.0 || etu as real <= 100.0 * rules.levels.ageRate {
      AgedKeeps(made, etu, rules.levels.ageRate, bestTech, bestResearch, l);
    }
  }

  /** Counts begin at nothing and nothing is taken back. */
  lemma {:induction false} StillCounted(ns: seq<Nation>, s: seq<Sector>, t: seq<Sector>, bs: seq<Budget>,
                                        bs': seq<Budget>)
    requires AreNations(ns) && |bs| == MAX_NATIONS + 1 && OpenedFor(ns, bs) && MissesRecruits(s, t, bs, bs')
    requires AllShaped(bs')
    ensures AllCounted(bs')
  {
    forall n | 0 <= n < |bs'|
      ensures Counted(bs'[n])
    {
      assert Continues(bs[n], bs'[n]) && Counted(bs[n]) && Shaped(bs'[n]);
    }
  }

  /** Levels and treasuries of the nations after the update. */
  method LearnAndAge(ns: seq<Nation>, budgets: array<Budget>, etu: nat, rules: Rules)
    returns (nations: array<Nation>, ghost lucks: seq<Luck>)
    requires AreNations(ns) && AllCounted(budgets[..]) && Steady(rules.levels) && etu >= 1
    ensures fresh(nations) && Learned(ns, nations[..], budgets[..], etu, rules, lucks)
  {
    hide Steady, Counted, IsNation, Levelled, Aged, CanFall, Best;
    nations := new Nation[|ns|](i requires 0 <= i < |ns| => ns[i]);
    ProdNat(nations, budgets, etu, rules.levels, rules.log);
    assert nations[..] == Levelleds(ns, budgets[..], etu, rules);
    lucks := AgeLevels(nations, etu, rules.levels.ageRate);
  }

  /** Everything gained its mobility. */
  ghost predicate Rested(s: seq<Sector>, t: seq<Sector>, f: Fleets, f': Fleets, rules: Rules) {
    |s| == |t| && (forall i :: 0 <= i < |s| ==> t[i] == Mobility.RestedSector(s[i], rules.sectGain))
    && RestedUnits(f.ships, f'.ships, rules.shipGain) && RestedUnits(f.planes, f'.planes, rules.planeGain)
    && RestedUnits(f.lands, f'.lands, rules.landGain)
  }

  ghost predicate RestedUnits(us: seq<Repair.Unit>, us': seq<Repair.Unit>, g: Mobility.Gain) {
    |us| == |us'| && forall i :: 0 <= i < |us| ==> us'[i] == Mobility.RestedUnit(us[i], g)
  }

  predicate Moves(s: Sector) {
    s.own != 0 && !IsWater(s.sectorType) && !IsSanct(s.sectorType)
  }

  /** No owned land and no owned unit has more mobility than configured. */
  ghost predicate Limited(t: seq<Sector>, f: Fleets, rules: Rules) {
    (forall i :: 0 <= i < |t| && Moves(t[i]) ==> t[i].mobil <= rules.sectGain.most)
    && UnitsLimited(f.ships, rules.shipGain) && UnitsLimited(f.planes, rules.planeGain)
    && UnitsLimited(f.lands, rules.landGain)
  }

  ghost predicate UnitsLimited(us: seq<Repair.Unit>, g: Mobility.Gain) {
    forall j :: 0 <= j < |us| && us[j].own != 0 ==> us[j].mobil <= g.most
  }

  lemma {:induction false} UnitsRested(us: seq<Repair.Unit>, us': seq<Repair.Unit>, g: Mobility.Gain)
    requires RestedUnits(us, us', g) && AllUnits(us) && Mobility.IsGain(g)
    ensures AllUnits(us') && UnitsLimited(us', g)
  {
    hide Mobility.Accrued;
    forall j | 0 <= j < |us|
      ensures Repair.IsUnit(us'[j]) && (us'[j].own != 0 ==> us'[j].mobil <= g.most)
    {
      assert Repair.IsUnit(us[j]);
      Mobility.AccruedIs(us[j].mobil, g);
    }
  }

  lemma {:induction false} RestedKeeps(s: seq<Sector>, t: seq<Sector>, f: Fleets, f': Fleets, rules: Rules,
                                       bs: seq<Budget>)
    requires Rested(s, t, f, f', rules) && AllWellFormed(s) && Rolled(s) && GainsOk(rules)
    requires AllUnits(f.ships) && AllUnits(f.planes) && AllUnits(f.lands)
    ensures AllWellFormed(t) && Rolled(t) && SamePlaces(s, t) && MissesRecruits(s, t, bs, bs)
    ensures AllUnits(f'.ships) && AllUnits(f'.planes) && AllUnits(f'.lands) && Limited(t, f', rules)
  {
    hide Mobility.Accrued;
    forall i | 0 <= i < |s|
      ensures WellFormed(t[i]) && (Moves(t[i]) ==> t[i].mobil <= rules.sectGain.most)
    {
      assert WellFormed(s[i]);
      Mobility.AccruedIs(s[i].mobil, rules.sectGain);
    }
    UnitsRested(f.ships, f'.ships, rules.shipGain);
    UnitsRested(f.planes, f'.planes, rules.planeGain);
    UnitsRested(f.lands, f'.lands, rules.landGain);
    hide WellFormed, Mobility.RestedUnit, AllUnits;
    forall n
      ensures Soldiers(s, n) == Soldiers(t, n)
    {
      SameStocksSameHeld(s, t, Some(n), MILIT);
    }
    SameSoldiers(s, t, bs);
  }

  /** Everything gains its mobility. */
  method MobIncAll(sectors: array<Sector>, ships: array<Repair.Unit>, planes: array<Repair.Unit>,
                   lands: array<Repair.Unit>, rules: Rules)
    requires ships != planes && planes != lands && lands != ships
    modifies sectors, ships, planes, lands
    ensures Rested(old(sectors[..]), sectors[..], Fleets(old(ships[..]), old(planes[..]), old(lands[..])),
                   Fleets(ships[..], planes[..], lands[..]), rules)
  {
    hide Mobility.RestedSector, Mobility.RestedUnit;
    Mobility.MobIncSects(sectors, rules.sectGain);
    Mobility.MobIncUnits(ships, rules.shipGain);
    Mobility.MobIncUnits(planes, rules.planeGain);
    Mobility.MobIncUnits(lands, rules.landGain);
  }

  /** What an update makes of sectors, units and nations: a tick, what nations learn and forget, and rest. */
  ghost predicate IsUpdate(w: World, g: Stages, ns: seq<Nation>, etu: nat, rules: Rules, cmap: map<Pos, int>,
                           f: Fleets, built: Fleets, f': Fleets, t: seq<Sector>, ms: seq<Nation>, lucks: seq<Luck>)
  {
    w.Valid() && AreNations(ns) && Rested(g.lands.sectors, t, built, f', rules)
    && Learned(ns, ms, g.lands.budgets, etu, rules, lucks) && IsTick(w, g, ns, etu, rules, cmap, true, f, built)
  }

  /** What the next update wants of sectors and units. */
  ghost predicate WorldOk(t: seq<Sector>, f: Fleets) {
    AllWellFormed(t) && DistinctPlaces(t) && AllUnits(f.ships) && AllUnits(f.planes) && AllUnits(f.lands)
  }

  /** How the world stands after an update: sectors are where they were and well-formed, no sector kept too much
      work and nothing too much mobility,
      every account that was opened explains its balance but for the pay of recruits, and the new treasuries
      are the balances. Nations are nations still unless an update has so many time units that more is
      forgotten than was known. */
  ghost predicate InOrder(ns: seq<Nation>, ms: seq<Nation>, s: seq<Sector>, t: seq<Sector>, f: Fleets, bs: seq<Budget>,
                          etu: nat, rules: Rules)
  {
    WorldOk(t, f) && SamePlaces(s, t) && Rolled(t) && Limited(t, f, rules) && AreNations(ns) && AllShaped(bs)
      && Accounted(ns, s, t, bs)
    && |ms| == |ns| && (forall i :: 0 <= i < |ns| ==>
         ms[i].money == if ns[i].Active() then Nearest(bs[ns[i].cnum].money) else ns[i].money)
    && (rules.levels.ageRate == 0.0 || etu as real <= 100.0 * rules.levels.ageRate ==> AreNations(ms))
  }

  lemma {:induction false} InOrderIs(ns: seq<Nation>, ms: seq<Nation>, s: seq<Sector>, t: seq<Sector>, f: Fleets,
                                     bs: seq<Budget>, etu: nat, rules: Rules)
    requires AllWellFormed(t) && DistinctPlaces(t) && AllUnits(f.ships) && AllUnits(f.planes) && AllUnits(f.lands)
    requires SamePlaces(s, t) && Rolled(t) && Limited(t, f, rules) && AreNations(ns) && AllShaped(bs)
             && |bs| == MAX_NATIONS + 1
    requires Accounted(ns, s, t, bs) && |ms| == |ns|
    requires forall i :: 0 <= i < |ns| ==>
               ms[i].money == if ns[i].Active() then Nearest(bs[ns[i].cnum].money) else ns[i].money
    requires rules.levels.ageRate == 0.0 || etu as real <= 100.0 * rules.levels.ageRate ==> AreNations(ms)
    ensures InOrder(ns, ms, s, t, f, bs, etu, rules)
  {}

  lemma {:induction false} UpdateParts(w: World, g: Stages, ns: seq<Nation>, etu: nat, rules: Rules,
                                       cmap: map<Pos, int>, f: Fleets, built: Fleets, f': Fleets, t: seq<Sector>,
                                       ms: seq<Nation>, lucks: seq<Luck>)
    requires IsUpdate(w, g, ns, etu, rules, cmap, f, built, f', t, ms, lucks)
    ensures w.Valid() && AreNations(ns) && Rested(g.lands.sectors, t, built, f', rules)
    ensures Learned(ns, ms, g.lands.budgets, etu, rules, lucks)
    ensures IsTick(w, g, ns, etu, rules, cmap, true, f, built)
  {
    hide IsTick, Rested, Learned;
  }

  /** Whatever the dice, an update leaves all as the next update wants it, and explains every nation's new
      treasury; only levels may be forgotten to below nothing, by updates of very many time units. */
  lemma {:induction false} UpdateKeeps(w: World, g: Stages, ns: seq<Nation>, etu: nat, rules: Rules,
                                       cmap: map<Pos, int>,
                                       f: Fleets, built: Fleets, f': Fleets, t: seq<Sector>, ms: seq<Nation>,
                                       lucks: seq<Luck>)
    requires w.Valid() && AreNations(ns) && RulesOk(rules, etu) && etu >= 1
    requires DistinctPlaces(g.start.sectors) && |g.start.budgets| == MAX_NATIONS + 1 && OpenedFor(ns, g.start.budgets)
    requires IsUpdate(w, g, ns, etu, rules, cmap, f, built, f', t, ms, lucks)
    ensures InOrder(ns, ms, g.start.sectors, t, f', g.lands.budgets, etu, rules)
  {
    hide *;
    SteadyRules(rules, etu);
    UpdateParts(w, g, ns, etu, rules, cmap, f, built, f', t, ms, lucks);
    TickKeeps(w, g, ns, etu, rules, cmap, true, f, built);
    var s0, s, b0, bs := g.start.sectors, g.lands.sectors, g.start.budgets, g.lands.budgets;
    RestedKeeps(s, t, built, f', rules, bs);
    MissesRecruitsChain(s0, s, t, b0, bs, bs);
    PlacesChain(s0, s, t);
    PlacesStayDistinct(s0, t);
    AccountsCount(bs);
    TickAccounts(ns, s0, t, b0, bs);
    LearnedKeeps(ns, ms, bs, etu, rules, lucks);
    InOrderIs(ns, ms, s0, t, f', bs, etu, rules);
  }

  /** The world between two updates. */
  datatype State = State(sectors: seq<Sector>, fleets: Fleets, nations: seq<Nation>)

  ghost predicate StateOk(a: State) {
    WorldOk(a.sectors, a.fleets) && AreNations(a.nations)
  }

  /** An update leads from one state to the next, with some dice and with accounts opened from the treasuries. */
  ghost predicate Follows(w: World, a: State, b: State, etu: nat, rules: Rules)
    requires w.Valid()
  {
    exists g, cmap, built, lucks :: UpdatesTo(w, a, b, etu, rules, g, cmap, built, lucks)
  }

  ghost predicate UpdatesTo(w: World, a: State, b: State, etu: nat, rules: Rules, g: Stages, cmap: map<Pos, int>,
                            built: Fleets, lucks: seq<Luck>)
    requires w.Valid()
  {
    AreNations(a.nations) && g.start.sectors == a.sectors && |g.start.budgets| == MAX_NATIONS + 1
    && OpenedFor(a.nations, g.start.budgets)
    && IsUpdate(w, g, a.nations, etu, rules, cmap, a.fleets, built, b.fleets, b.sectors, b.nations, lucks)
  }

  /** Over any number of updates, whatever the dice, all sectors stay well-formed and where they are, all units and
      nations stay within their bounds, and after an update no sector has too much work left, and nothing has more
      mobility than configured. */
  lemma {:induction false} UpdatesKeep(w: World, run: seq<State>, etu: nat, rules: Rules, n: nat)
    requires w.Valid() && RulesOk(rules, etu) && etu >= 1 && n < |run| && StateOk(run[0])
    requires rules.levels.ageRate == 0.0 || etu as real <= 100.0 * rules.levels.ageRate
    requires forall k :: 0 <= k < n ==> Follows(w, run[k], run[k + 1], etu, rules)
    ensures StateOk(run[n]) && SamePlaces(run[0].sectors, run[n].sectors) && |run[n].nations| == |run[0].nations|
    ensures n > 0 ==> Rolled(run[n].sectors) && Limited(run[n].sectors, run[n].fleets, rules)
  {
    hide WorldOk, AreNations, SamePlaces, Rolled, Limited, RulesOk, UpdatesTo;
    if n == 0 {
      SamePlacesSelf(run[0].sectors);
    } else {
      UpdatesKeep(w, run, etu, rules, n - 1);
      FollowsKeeps(w, run[n - 1], run[n], etu, rules);
      PlacesChain(run[0].sectors, run[n - 1].sectors, run[n].sectors);
    }
  }

  lemma {:induction false} FollowsKeeps(w: World, a: State, b: State, etu: nat, rules: Rules)
    requires w.Valid() && RulesOk(rules, etu) && etu >= 1 && StateOk(a) && Follows(w, a, b, etu, rules)
    requires rules.levels.ageRate == 0.0 || etu as real <= 100.0 * rules.levels.ageRate
    ensures StateOk(b) && SamePlaces(a.sectors, b.sectors) && Rolled(b.sectors) && |b.nations| == |a.nations|
    ensures Limited(b.sectors, b.fleets, rules)
  {
    hide AreNations, SamePlaces, Rolled, Limited, RulesOk, OpenedFor, IsUpdate, Accounted, AllShaped, AllWellFormed,
      AllUnits,
         DistinctPlaces;
    var g, cmap, built, lucks :| UpdatesTo(w, a, b, etu, rules, g, cmap, built, lucks);
    UpdateKeeps(w, g, a.nations, etu, rules, cmap, a.fleets, built, b.fleets, b.sectors, b.nations, lucks);
  }

  lemma {:induction false} SteadyRules(rules: Rules, etu: nat)
    requires RulesOk(rules, etu)
    ensures Steady(rules.levels) && etu <= 1000 && GainsOk(rules)
  {}

  lemma {:induction false} UpdateIs(w: World, g: Stages, ns: seq<Nation>, etu: nat, rules: Rules, cmap: map<Pos, int>,
                                    f: Fleets, built: Fleets, f': Fleets, t: seq<Sector>, ms: seq<Nation>,
                                    lucks: seq<Luck>)
    requires w.Valid() && AreNations(ns) && Rested(g.lands.sectors, t, built, f', rules)
    requires Learned(ns, ms, g.lands.budgets, etu, rules, lucks)
    requires IsTick(w, g, ns, etu, rules, cmap, true, f, built)
    ensures IsUpdate(w, g, ns, etu, rules, cmap, f, built, f', t, ms, lucks)
  {
    hide IsTick, Rested, Learned;
  }

  lemma {:induction false} WorldIs(t: seq<Sector>, ships: seq<Repair.Unit>, planes: seq<Repair.Unit>,
                                   lands: seq<Repair.Unit>)
    requires WorldOk(t, Fleets(ships, planes, lands))
    ensures AllWellFormed(t) && DistinctPlaces(t) && AllUnits(ships) && AllUnits(planes) && AllUnits(lands)
  {}

  lemma {:induction false} BudgetsCounted(w: World, g: Stages, ns: seq<Nation>, etu: nat, rules: Rules,
                                          cmap: map<Pos, int>, f: Fleets, f': Fleets)
    requires w.Valid() && AreNations(ns) && RulesOk(rules, etu) && IsTick(w, g, ns, etu, rules, cmap, true, f, f')
    requires |g.start.budgets| == MAX_NATIONS + 1 && OpenedFor(ns, g.start.budgets)
    ensures AllCounted(g.lands.budgets)
  {
    hide *;
    TickKeeps(w, g, ns, etu, rules, cmap, true, f, f');
    StillCounted(ns, g.start.sectors, g.lands.sectors, g.start.budgets, g.lands.budgets);
  }

  /** After the tick, nations learn and age, and everything gains its mobility. */
  method EndUpdate(sectors: array<Sector>, ships: array<Repair.Unit>, planes: array<Repair.Unit>,
                   lands: array<Repair.Unit>, budgets: array<Budget>, ns: seq<Nation>, etu: nat, rules: Rules)
    returns (nations: array<Nation>, ghost lucks: seq<Luck>)
    requires ships != planes && planes != lands && lands != ships
    requires AreNations(ns) && AllCounted(budgets[..]) && Steady(rules.levels) && etu >= 1
    modifies sectors, ships, planes, lands
    ensures Learned(ns, nations[..], budgets[..], etu, rules, lucks)
    ensures Rested(old(sectors[..]), sectors[..], Fleets(old(ships[..]), old(planes[..]), old(lands[..])),
                   Fleets(ships[..], planes[..], lands[..]), rules)
  {
    hide *;
    nations, lucks := LearnAndAge(ns, budgets, etu, rules);
    MobIncAll(sectors, ships, planes, lands, rules);
  }

  /** One update: preparation, production, delivery, distribution, rollover, repairs, levels and mobility.
      It leaves all as the next update wants it, and every nation's new treasury is explained. */
  method Update(w: World, sectors: array<Sector>, ships: array<Repair.Unit>, planes: array<Repair.Unit>,
                lands: array<Repair.Unit>,
                ns: seq<Nation>, etu: nat, rules: Rules)
    returns (budgets: array<Budget>, nations: array<Nation>, ghost g: Stages, ghost cmap: map<Pos, int>,
             ghost built: Fleets, ghost lucks: seq<Luck>)
    requires w.Valid() && WorldOk(sectors[..], Fleets(ships[..], planes[..], lands[..]))
    requires AreNations(ns) && RulesOk(rules, etu) && etu >= 1
    requires ships != planes && planes != lands && lands != ships
    modifies sectors, ships, planes, lands
    ensures IsUpdate(w, g, ns, etu, rules, cmap, Fleets(old(ships[..]), old(planes[..]), old(lands[..])), built,
                     Fleets(ships[..], planes[..], lands[..]), sectors[..], nations[..], lucks)
    ensures g.start.sectors == old(sectors[..]) && g.lands.budgets == budgets[..]
    ensures InOrder(ns, nations[..], old(sectors[..]), sectors[..], Fleets(ships[..], planes[..], lands[..]),
                    budgets[..],
                    etu, rules)
  {
    hide *;
    budgets := OpenBudgets(ns);
    AccountsCount(budgets[..]);
    SteadyRules(rules, etu);
    WorldIs(sectors[..], ships[..], planes[..], lands[..]);
    ghost var f, b0, s0 := Fleets(ships[..], planes[..], lands[..]), budgets[..], sectors[..];
    g, cmap := RunTick(w, sectors, budgets, ships, planes, lands, ns, etu, rules, true);
    built := Fleets(ships[..], planes[..], lands[..]);
    BudgetsCounted(w, g, ns, etu, rules, cmap, f, built);
    nations, lucks := EndUpdate(sectors, ships, planes, lands, budgets, ns, etu, rules);
    ghost var f' := Fleets(ships[..], planes[..], lands[..]);
    UpdateIs(w, g, ns, etu, rules, cmap, f, built, f', sectors[..], nations[..], lucks);
    UpdateKeeps(w, g, ns, etu, rules, cmap, f, built, f', sectors[..], nations[..], lucks);
  }

  /** Previews an update for one nation on copies of the world, without delivery and distribution, and
      forecasts its treasury from the lines of its account. The forecast exceeds the balance the same update
      would leave by just the pay of the soldiers recruited. */
  method BudgetPreview(w: World, sectors: seq<Sector>, fleets: Fleets, ns: seq<Nation>, who: nat, etu: nat,
                       rules: Rules)
    returns (forecast: real, balance: real, ghost g: Stages, ghost cmap: map<Pos, int>, ghost fleets': Fleets)
    requires w.Valid() && AllWellFormed(sectors) && DistinctPlaces(sectors) && AreNations(ns) && RulesOk(rules, etu)
    requires AllUnits(fleets.ships) && AllUnits(fleets.planes) && AllUnits(fleets.lands)
    requires who < |ns| && ns[who].Active()
    ensures IsTick(w, g, ns, etu, rules, cmap, false, fleets, fleets') && g.start.sectors == sectors
    ensures AllShaped(g.lands.budgets) && balance == g.lands.budgets[ns[who].cnum].money
    ensures forecast - balance
            == PAY_PER_RECRUIT * (Soldiers(g.lands.sectors, ns[who].cnum) - Soldiers(sectors, ns[who].cnum)) as real
  {
    hide *;
    var budgets := OpenBudgets(ns);
    AccountsCount(budgets[..]);
    var sims := new Sector[|sectors|](i requires 0 <= i < |sectors| => sectors[i]);
    var ships := new Repair.Unit[|fleets.ships|](i requires 0 <= i < |fleets.ships| => fleets.ships[i]);
    var planes := new Repair.Unit[|fleets.planes|](i requires 0 <= i < |fleets.planes| => fleets.planes[i]);
    var lands := new Repair.Unit[|fleets.lands|](i requires 0 <= i < |fleets.lands| => fleets.lands[i]);
    assert sims[..] == sectors && ships[..] == fleets.ships && planes[..] == fleets.planes && lands[..] == fleets.lands;
    ghost var b0 := budgets[..];
    g, cmap := RunTick(w, sims, budgets, ships, planes, lands, ns, etu, rules, false);
    fleets' := Fleets(ships[..], planes[..], lands[..]);
    TickKeeps(w, g, ns, etu, rules, cmap, false, fleets, fleets');
    AccountsCount(budgets[..]);
    TickAccounts(ns, sectors, sims[..], b0, budgets[..]);
    AccountOf(ns, sectors, sims[..], budgets[..], who);
    balance := budgets[ns[who].cnum].money;
    forecast := EstimateTreasury(budgets[ns[who].cnum], ns[who].money as real);
  }

  lemma {:induction false} AccountsCount(bs: seq<Budget>)
    requires AllShaped(bs)
    ensures |bs| == MAX_NATIONS + 1
  {}

  lemma {:induction false} AccountOf(ns: seq<Nation>, s: seq<Sector>, t: seq<Sector>, bs: seq<Budget>, i: int)
    requires AreNations(ns) && 0 <= i < |ns| && ns[i].Active() && AllShaped(bs) && Accounted(ns, s, t, bs)
    ensures 0 <= ns[i].cnum <= MAX_NATIONS && Shaped(bs[ns[i].cnum])
    ensures var b, n := bs[ns[i].cnum], ns[i].cnum;
            ns[i].money as real + Recorded(b) - b.money == PAY_PER_RECRUIT * (Soldiers(t, n) - Soldiers(s, n)) as real
  {}

  /** Delivery, then distribution. */
  method MoveGoods(w: World, sectors: array<Sector>, cmap: map<Pos, int>) returns (ghost delivered: seq<Sector>)
    requires w.Valid() && AllWellFormed(sectors[..]) && Indexed(sectors[..], cmap)
    modifies sectors
    ensures Shipments.Ready(old(sectors[..]), cmap)
    ensures delivered == Delivery.Delivered(w, old(sectors[..]), cmap, |old(sectors[..])|)
    ensures Distributed(w, delivered, sectors[..], cmap)
  {
    hide AllWellFormed, Indexed, Shipments.SameHeld, Shipments.AllKept, Shipments.Ready, Distribution.IsRun,
      Delivery.Delivered, Distribution.GroupsAre;
    ghost var s := sectors[..];
    ReadyToMove(s, cmap);
    Delivery.DoDeliver(w, sectors, cmap);
    delivered := sectors[..];
    Delivery.DeliveryKeeps(w, s, cmap, |s|);
    KeptPlaces(s, delivered);
    IndexedByPlace(s, delivered, cmap);
    ReadyToMove(delivered, cmap);
    ghost var groups, order, trace := Distribution.DoDistribute(w, sectors, cmap);
    assert IsDistribution(w, delivered, sectors[..], cmap, groups, order, trace);
  }
}
