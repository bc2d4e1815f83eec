/** Ships that drill for oil and catch fish where they lie at sea. */
module Ocean {
  import opened Basics
  import opened Hex
  import opened Game
  import opened Ledger
  import opened Products
  import opened Production
  import opened Rounding
  import Populace
  import Repair

  /** What a type of ship can do at sea, and how much oil and food it holds. */
  datatype Gear = Gear(drills: bool, fishes: bool, oilCap: int, foodCap: int)

  ghost predicate AllGear(gears: seq<Gear>) {
    forall i :: 0 <= i < |gears| ==> 0 <= gears[i].oilCap <= I16_MAX && 0 <= gears[i].foodCap <= I16_MAX
  }

  const AGRI := 15
  const OIL_FIELD := 16

  /** What an oil field makes: ten units of oil take one from the resource. */
  function Oil(): (p: Product)
    ensures Sound(p) && p.resource == OilRes && p.nrdep == 10
  {
    ProductOf(PrdOf(OIL_FIELD)).value
  }

  function Food(): (p: Product)
    ensures Sound(p)
  {
    ProductOf(PrdOf(AGRI)).value
  }

  function OilEff(tech: real): (r: real)
    ensures r >= 0.0
  {
    ProdEff(Oil(), tech, PeffOf(OIL_FIELD))
  }

  function FoodEff(tech: real): (r: real)
    ensures r >= 0.0
  {
    ProdEff(Food(), tech, PeffOf(AGRI))
  }

  /** What work comes to with a ship of some efficiency where there is so much of a resource. */
  function Yield(work: int, effic: int, resource: int, pe: real): real {
    work as real * effic as real / 100.0 * (resource as real / 100.0) * pe
  }

  /** Oil that can be drilled, before rounding: no more than the resource bears. */
  function OilThere(u: Repair.Unit, s: Sector, work: int, tech: real): real {
    Least(Yield(work, u.effic, s.oil, OilEff(tech)), ResourceLimit(s, Oil()))
  }

  function FishThere(u: Repair.Unit, s: Sector, work: int, tech: real): real {
    Yield(work, u.effic, s.fertil, FoodEff(tech))
  }

  function Positive(n: int): int {
    if n > 0 then n else 0
  }

  /** How much of a catch is taken aboard: it is cut to 16 bits, and to the room there is. */
  function Taken(roll: int, cap: int, have: int): int {
    Positive(if AsI16(roll) > cap - have then Positive(cap - have) else AsI16(roll))
  }

  /** A ship never takes more than it holds. */
  lemma {:induction false} TakenFits(roll: int, cap: int, have: int)
    requires 0 <= roll && 0 <= cap <= I16_MAX && 0 <= have <= I16_MAX
    ensures 0 <= Taken(roll, cap, have) <= roll
    ensures Taken(roll, cap, have) > 0 ==> have + Taken(roll, cap, have) <= cap
    ensures SatAdd(have, Taken(roll, cap, have)) == have + Taken(roll, cap, have)
  {}

  /** Cut to 16 bits, a catch still fills the room. */
  ghost predicate Keeps(roll: int, room: int) {
    roll <= I16_MAX || room == 0 || room <= roll % 65536 <= I16_MAX
  }

  /** A ship takes all it has room for, unless the catch is too great for 16 bits and what they hold of it is
      negative or less than the room. */
  lemma {:induction false} TakenIff(roll: int, cap: int, have: int)
    requires 0 <= roll
    ensures Taken(roll, cap, have) == Smaller(roll, Positive(cap - have)) <==> Keeps(roll, Positive(cap - have))
  {}

  // ---------------------------------------------------------------------------------------------
  // One ship
  // ---------------------------------------------------------------------------------------------

  /** How the dice fall for a ship: its work, oil and what that takes from the sea bed, and fish. */
  datatype Catch = Catch(work: int, oil: int, used: int, fish: int)

  function OilTaken(u: Repair.Unit, g: Gear, c: Catch): int {
    Taken(c.oil, g.oilCap, u.oil)
  }

  ghost predicate CanCatch(u: Repair.Unit, g: Gear, s: Sector, etu: nat, tech: real, c: Catch) {
    RoundsTo(Populace.WorkOf(100, etu, u.civ, u.mil, u.uw, ITEM_MAX), c.work)
    && (if g.drills && OilEff(tech) > 0.0 then RoundsTo(OilThere(u, s, c.work, tech), c.oil) else c.oil == 0)
    && RoundsTo(Depletion(Oil(), OilTaken(u, g, c) as real), c.used)
    && if g.fishes && FoodEff(tech) > 0.0 then RoundsTo(FishThere(u, s, c.work, tech), c.fish) else c.fish == 0
  }

  function Laden(u: Repair.Unit, g: Gear, c: Catch): Repair.Unit {
    u.(oil := u.oil + OilTaken(u, g, c), food := u.food + Taken(c.fish, g.foodCap, u.food))
  }

  function Drained(s: Sector, used: int): Sector {
    s.(oil := s.oil - used)
  }

  lemma {:induction false} YieldPositive(work: int, effic: int, resource: int, pe: real)
    requires work >= 0 && effic >= 0 && resource >= 0 && pe >= 0.0
    ensures Yield(work, effic, resource, pe) >= 0.0
  {
    var w, r := work as real * effic as real, resource as real / 100.0;
    TimesMono(work as real, 0.0, effic as real);
    TimesMono(w / 100.0, 0.0, r);
    TimesMono(w / 100.0 * r, 0.0, pe);
  }

  /** The crew's work is not negative. */
  lemma {:induction false} WorkPositive(u: Repair.Unit, etu: nat, work: int)
    requires Repair.IsUnit(u) && RoundsTo(Populace.WorkOf(100, etu, u.civ, u.mil, u.uw, ITEM_MAX), work)
    ensures work >= 0
  {
    Populace.WillingFits(Smaller(u.civ, ITEM_MAX), 100);
    var hands := Populace.Hands(100, u.civ, u.mil, u.uw, ITEM_MAX);
    assert hands >= 0.0 by {
      hide Populace.Willing;
    }
    hide Populace.Hands;
    TimesMono(hands, 0.0, etu as real);
  }

  /** Whatever is caught, the sea bed has it: ten barrels of oil take one part from it, but for the rounding. */
  lemma {:induction false} BedSuffices(u: Repair.Unit, g: Gear, s: Sector, etu: nat, tech: real, c: Catch)
    requires Repair.IsUnit(u) && WellFormed(s) && CanCatch(u, g, s, etu, tech, c)
    requires 0 <= g.oilCap <= I16_MAX && 0 <= g.foodCap <= I16_MAX
    ensures c.work >= 0 && c.oil >= 0 && c.fish >= 0
    ensures c.oil <= 10 * s.oil && 0 <= c.used <= s.oil && -9 <= 10 * c.used - OilTaken(u, g, c) <= 9
  {
    WorkPositive(u, etu, c.work);
    assert s.oil >= 0 && s.fertil >= 0;
    hide Yield, OilEff, FoodEff, Populace.WorkOf, Taken, RoundsTo, OilThere, FishThere, WellFormed, Depletion;
    if g.drills && OilEff(tech) > 0.0 {
      OilWithin(u, s, c.work, tech, c.oil);
    }
    if g.fishes && FoodEff(tech) > 0.0 {
      FishPositive(u, s, c.work, tech, c.fish);
    }
    TakenFits(c.oil, g.oilCap, u.oil);
    UsedWithin(OilTaken(u, g, c), s.oil, c.used);
  }

  lemma {:induction false} OilWithin(u: Repair.Unit, s: Sector, work: int, tech: real, oil: int)
    requires work >= 0 && u.effic >= 0 && s.oil >= 0 && RoundsTo(OilThere(u, s, work, tech), oil)
    ensures 0 <= oil <= 10 * s.oil
  {
    YieldPositive(work, u.effic, s.oil, OilEff(tech));
    hide Yield, OilEff, RoundsTo;
    assert ResourceLimit(s, Oil()) == (10 * s.oil) as real;
    RoundsWithin(OilThere(u, s, work, tech), 0, 10 * s.oil, oil);
  }

  lemma {:induction false} FishPositive(u: Repair.Unit, s: Sector, work: int, tech: real, fish: int)
    requires work >= 0 && u.effic >= 0 && s.fertil >= 0 && RoundsTo(FishThere(u, s, work, tech), fish)
    ensures fish >= 0
  {
    YieldPositive(work, u.effic, s.fertil, FoodEff(tech));
    hide Yield, FoodEff;
  }

  lemma {:induction false} UsedWithin(taken: int, bed: int, used: int)
    requires 0 <= taken <= 10 * bed && RoundsTo(Depletion(Oil(), taken as real), used)
    ensures 0 <= used <= bed && -9 <= 10 * used - taken <= 9
  {
    assert Depletion(Oil(), taken as real) == taken as real / 10.0;
  }

  /** No oil is lost: a sea bed, whose oil is 8 bits wide, does not bear as much as 16 bits hold. */
  lemma {:induction false} OilIsKept(u: Repair.Unit, g: Gear, s: Sector, etu: nat, tech: real, c: Catch)
    requires Repair.IsUnit(u) && WellFormed(s) && CanCatch(u, g, s, etu, tech, c) && s.oil <= 255
    requires 0 <= g.oilCap <= I16_MAX && 0 <= g.foodCap <= I16_MAX
    ensures OilTaken(u, g, c) == Smaller(c.oil, Positive(g.oilCap - u.oil))
  {
    BedSuffices(u, g, s, etu, tech, c);
    hide CanCatch, Taken;
    TakenIff(c.oil, g.oilCap, u.oil);
  }

  /** Whether fish can be lost is known before the catch is rounded: none are, whatever the dice, exactly if both
      whole numbers next to what is there keep. */
  lemma {:induction false} FishAreKeptIff(u: Repair.Unit, g: Gear, s: Sector, etu: nat, tech: real, work: int)
    requires Repair.IsUnit(u) && WellFormed(s) && 0 <= g.oilCap <= I16_MAX && 0 <= g.foodCap <= I16_MAX
    requires RoundsTo(Populace.WorkOf(100, etu, u.civ, u.mil, u.uw, ITEM_MAX), work)
    requires g.fishes && FoodEff(tech) > 0.0
    ensures var x, room := FishThere(u, s, work, tech), Positive(g.foodCap - u.food);
            (forall c :: CanCatch(u, g, s, etu, tech, c) && c.work == work ==>
               Taken(c.fish, g.foodCap, u.food) == Smaller(c.fish, room))
            <==> Keeps(x.Floor, room) && (x > x.Floor as real ==> Keeps(x.Floor + 1, room))
  {
    var x := FishThere(u, s, work, tech);
    WorkPositive(u, etu, work);
    YieldPositive(work, u.effic, s.fertil, FoodEff(tech));
    hide Yield, OilEff, FoodEff, Populace.WorkOf, Taken, Keeps;
    forall roll | RoundsTo(x, roll)
      ensures roll >= 0 && exists c :: CanCatch(u, g, s, etu, tech, c) && c.work == work && c.fish == roll
      ensures Taken(roll, g.foodCap, u.food) == Smaller(roll, Positive(g.foodCap - u.food))
              <==> Keeps(roll, Positive(g.foodCap - u.food))
    {
      TakenIff(roll, g.foodCap, u.food);
      var c := SomeCatch(u, g, s, etu, tech, work, roll);
    }
    assert RoundsTo(x, x.Floor) && (x > x.Floor as real ==> RoundsTo(x, x.Floor + 1));
    assert forall roll :: RoundsTo(x, roll) ==> roll == x.Floor || (roll == x.Floor + 1 && x > x.Floor as real);
  }

  /** Any work and fish the dice allow go with some oil. */
  lemma {:induction false} SomeCatch(u: Repair.Unit, g: Gear, s: Sector, etu: nat, tech: real, work: int, fish: int)
    returns (c: Catch)
    requires RoundsTo(Populace.WorkOf(100, etu, u.civ, u.mil, u.uw, ITEM_MAX), work)
    requires g.fishes && FoodEff(tech) > 0.0 && RoundsTo(FishThere(u, s, work, tech), fish)
    ensures CanCatch(u, g, s, etu, tech, c) && c.work == work && c.fish == fish
  {
    hide OilThere, FishThere, OilEff, FoodEff, Populace.WorkOf, Taken;
    var oil := if g.drills && OilEff(tech) > 0.0 then Trunc(OilThere(u, s, work, tech)) else 0;
    var used := Trunc(Depletion(Oil(), Taken(oil, g.oilCap, u.oil) as real));
    c := Catch(work, oil, used, fish);
  }

  /** A fishing boat with all its crew, over the best fishing ground, comes back empty from an update of 1200 time
      units. */
  lemma {:induction false} BoatLosesCatch(u: Repair.Unit, g: Gear, s: Sector, tech: real, c: Catch)
    requires u.civ == 300 && u.mil == 10 && u.uw == 15 && u.effic == 100 && u.food == 0 && s.fertil == 100
    requires g.fishes && g.foodCap == 900 && tech == 390.0 && CanCatch(u, g, s, 1200, tech, c)
    ensures c.fish > I16_MAX && Taken(c.fish, g.foodCap, u.food) == 0
  {
    assert Populace.WorkOf(100, 1200, 300, 10, 15, ITEM_MAX) == 3828.0;
    assert c.work == 3828;
    assert FoodEff(390.0) == 360.0 / 41.0;
    assert FishThere(u, s, 3828, 390.0) == 3828.0 * (360.0 / 41.0);
  }

  /** A ship at sea drills and fishes. */
  method CatchAt(u: Repair.Unit, g: Gear, s: Sector, etu: nat, tech: real)
    returns (u': Repair.Unit, s': Sector, ghost c: Catch)
    requires Repair.IsUnit(u) && WellFormed(s) && 0 <= g.oilCap <= I16_MAX && 0 <= g.foodCap <= I16_MAX
    ensures CanCatch(u, g, s, etu, tech, c) && u' == Laden(u, g, c) && s' == Drained(s, c.used)
  {
    hide Yield, OilEff, FoodEff, Populace.WorkOf, RoundsTo, Taken, AsI16, SatAdd, WellFormed;
    u', s' := u, s;
    var work := RoundAvg(Populace.WorkOf(100, etu, u.civ, u.mil, u.uw, ITEM_MAX));
    var oil, used, fish := 0, 0, 0;
    if g.drills && OilEff(tech) > 0.0 {
      oil := RoundAvg(OilThere(u, s, work, tech));
    }
    var gained := Taken(oil, g.oilCap, u.oil);
    used := RoundAvg(Depletion(Oil(), gained as real));
    if g.fishes && FoodEff(tech) > 0.0 {
      fish := RoundAvg(FishThere(u, s, work, tech));
    }
    c := Catch(work, oil, used, fish);
    BedSuffices(u, g, s, etu, tech, c);
    TakenFits(oil, g.oilCap, u.oil);
    TakenFits(fish, g.foodCap, u.food);
    if gained > 0 {
      u' := u'.(oil := SatAdd(u'.oil, gained));
      s' := s'.(oil := Positive(s'.oil - used));
    }
    var netted := Taken(fish, g.foodCap, u.food);
    if netted > 0 {
      u' := u'.(food := SatAdd(u'.food, netted));
    }
  }

  // ---------------------------------------------------------------------------------------------
  // All ships
  // ---------------------------------------------------------------------------------------------

  /** The ship is switched on, of a type that works at sea, at sea, and its owner is not broke. */
  predicate AtSea(u: Repair.Unit, gears: seq<Gear>, s: seq<Sector>, bs: seq<Budget>, cmap: map<Pos, int>)
    requires Repair.IsUnit(u) && |bs| == MAX_NATIONS + 1 && Indexed(s, cmap)
  {
    u.own != 0 && !u.off && bs[u.own].money >= 0.0 && 0 <= u.kind < |gears|
    && (gears[u.kind].drills || gears[u.kind].fishes) && Pos(u.x, u.y) in cmap
    && s[cmap[Pos(u.x, u.y)]].sectorType == SEA
  }

  /** What all ships of the phase share. */
  datatype Setting = Setting(gears: seq<Gear>, techs: seq<real>, bs: seq<Budget>, cmap: map<Pos, int>, etu: nat)

  ghost predicate IsSetting(q: Setting) {
    AllGear(q.gears) && |q.techs| == |q.bs| == MAX_NATIONS + 1
  }

  /** What one ship's turn can come to. */
  ghost predicate SeaStep(u: Repair.Unit, u': Repair.Unit, q: Setting, s: seq<Sector>, s': seq<Sector>, c: Catch)
    requires Repair.IsUnit(u) && IsSetting(q) && Indexed(s, q.cmap)
  {
    if AtSea(u, q.gears, s, q.bs, q.cmap) then
      var i := q.cmap[Pos(u.x, u.y)];
      CanCatch(u, q.gears[u.kind], s[i], q.etu, q.techs[u.own], c) && u' == Laden(u, q.gears[u.kind], c)
      && s' == s[i := Drained(s[i], c.used)]
    else u' == u && s' == s
  }

  /** Only the oil of the sea bed differs, and there is no more of it than before. */
  ghost predicate SameBed(s: Sector, t: Sector) {
    t == s.(oil := t.oil) && 0 <= t.oil <= s.oil && (t.oil != s.oil ==> s.sectorType == SEA)
  }

  ghost predicate SameBeds(s: seq<Sector>, t: seq<Sector>) {
    |s| == |t| && forall i :: 0 <= i < |s| ==> SameBed(s[i], t[i])
  }

  lemma {:induction false} SameBedsChain(a: seq<Sector>, b: seq<Sector>, c: seq<Sector>)
    requires SameBeds(a, b) && SameBeds(b, c)
    ensures SameBeds(a, c)
  {
    forall i | 0 <= i < |a|
      ensures SameBed(a[i], c[i])
    {
      assert SameBed(a[i], b[i]) && SameBed(b[i], c[i]);
    }
  }

  lemma {:induction false} SameBedsSelf(s: seq<Sector>)
    requires AllWellFormed(s)
    ensures SameBeds(s, s)
  {
    forall i | 0 <= i < |s|
      ensures SameBed(s[i], s[i])
    {
      assert WellFormed(s[i]);
    }
  }

  lemma {:induction false} BedsKeep(s: seq<Sector>, t: seq<Sector>, cmap: map<Pos, int>)
    requires SameBeds(s, t) && AllWellFormed(s) && Indexed(s, cmap)
    ensures AllWellFormed(t) && Indexed(t, cmap)
  {
    forall i | 0 <= i < |s|
      ensures WellFormed(t[i]) && PosOfSector(t[i]) == PosOfSector(s[i])
    {
      assert SameBed(s[i], t[i]) && WellFormed(s[i]);
    }
  }

  /** A ship only gains oil and food, and no more than it holds. */
  ghost predicate Gains(u: Repair.Unit, u': Repair.Unit, gears: seq<Gear>) {
    u' == u.(oil := u'.oil, food := u'.food) && u.oil <= u'.oil && u.food <= u'.food
    && (u'.oil > u.oil ==> 0 <= u.kind < |gears| && u'.oil <= gears[u.kind].oilCap)
    && (u'.food > u.food ==> 0 <= u.kind < |gears| && u'.food <= gears[u.kind].foodCap)
  }

  /** A ship's turn. */
  lemma {:induction false} SeaStepKeeps(u: Repair.Unit, u': Repair.Unit, q: Setting, s: seq<Sector>, s': seq<Sector>,
                                        c: Catch)
    requires Repair.IsUnit(u) && IsSetting(q) && AllWellFormed(s) && Indexed(s, q.cmap)
    requires SeaStep(u, u', q, s, s', c)
    ensures SameBeds(s, s') && AllWellFormed(s') && Indexed(s', q.cmap) && Gains(u, u', q.gears)
  {
    SameBedsSelf(s);
    if AtSea(u, q.gears, s, q.bs, q.cmap) {
      var i, g := q.cmap[Pos(u.x, u.y)], q.gears[u.kind];
      assert WellFormed(s[i]);
      BedSuffices(u, g, s[i], q.etu, q.techs[u.own], c);
      TakenFits(c.oil, g.oilCap, u.oil);
      TakenFits(c.fish, g.foodCap, u.food);
      hide CanCatch, WellFormed, Taken, AllGear;
      assert forall k :: 0 <= k < |s| ==> SameBed(s[k], s[k]);
    }
    BedsKeep(s, s', q.cmap);
  }

  /** trace holds the sectors before, between and after the ships. */
  ghost predicate SeaRun(us: seq<Repair.Unit>, us': seq<Repair.Unit>, q: Setting, trace: seq<seq<Sector>>,
                         catches: seq<Catch>)
  {
    IsSetting(q) && |us| == |us'| == |catches| && |trace| == |us| + 1
    && forall j :: 0 <= j < |us| ==>
         Repair.IsUnit(us[j]) && Indexed(trace[j], q.cmap)
         && SeaStep(us[j], us'[j], q, trace[j], trace[j + 1], catches[j])
  }

  /** However many ships share a place, the sea bed has all they drill. */
  lemma {:induction false} SeaRunKeeps(us: seq<Repair.Unit>, us': seq<Repair.Unit>, q: Setting,
                                       trace: seq<seq<Sector>>, catches: seq<Catch>, n: nat)
    requires SeaRun(us, us', q, trace, catches) && n <= |us| && AllWellFormed(trace[0]) && Indexed(trace[0], q.cmap)
    ensures AllWellFormed(trace[n]) && Indexed(trace[n], q.cmap) && SameBeds(trace[0], trace[n])
    ensures forall j :: 0 <= j < n ==> Gains(us[j], us'[j], q.gears)
  {
    hide AllWellFormed, Indexed, SameBeds, SeaStep, IsSetting, Gains;
    if n == 0 {
      SameBedsSelf(trace[0]);
    } else {
      var j := n - 1;
      SeaRunKeeps(us, us', q, trace, catches, j);
      SeaStepKeeps(us[j], us'[j], q, trace[j], trace[n], catches[j]);
      SameBedsChain(trace[0], trace[j], trace[n]);
    }
  }

  lemma {:induction false} StillShips(us: seq<Repair.Unit>, us': seq<Repair.Unit>, q: Setting,
                                      trace: seq<seq<Sector>>, catches: seq<Catch>)
    requires SeaRun(us, us', q, trace, catches) && AllWellFormed(trace[0]) && Indexed(trace[0], q.cmap)
    ensures forall j :: 0 <= j < |us'| ==> Repair.IsUnit(us'[j])
  {
    SeaRunKeeps(us, us', q, trace, catches, |us|);
    hide SeaStep, Indexed, AllWellFormed;
    forall j | 0 <= j < |us'|
      ensures Repair.IsUnit(us'[j])
    {
      assert Gains(us[j], us'[j], q.gears) && Repair.IsUnit(us[j]);
    }
  }

  // ---------------------------------------------------------------------------------------------
  // Where the oil comes from
  // ---------------------------------------------------------------------------------------------

  /** Oil aboard the first n ships that are at a place. */
  ghost function OilAboard(us: seq<Repair.Unit>, n: nat, p: Pos): int
    requires n <= |us|
  {
    if n == 0 then 0 else OilAboard(us, n - 1, p) + if Pos(us[n - 1].x, us[n - 1].y) == p then us[n - 1].oil else 0
  }

  /** A ship's turn takes from the sea bed under it what it gains, at ten barrels to a part. */
  lemma {:induction false} StepBalances(u: Repair.Unit, u': Repair.Unit, q: Setting, s: seq<Sector>, s': seq<Sector>,
                                        c: Catch, i: int)
    requires Repair.IsUnit(u) && IsSetting(q) && AllWellFormed(s) && Indexed(s, q.cmap) && 0 <= i < |s|
    requires SeaStep(u, u', q, s, s', c)
    ensures |s'| == |s| && u'.x == u.x && u'.y == u.y
    ensures Pos(u.x, u.y) != PosOfSector(s[i]) ==> s'[i] == s[i]
    ensures Pos(u.x, u.y) == PosOfSector(s[i]) ==> -9 <= 10 * (s[i].oil - s'[i].oil) - (u'.oil - u.oil) <= 9
  {
    if AtSea(u, q.gears, s, q.bs, q.cmap) {
      var k, g := q.cmap[Pos(u.x, u.y)], q.gears[u.kind];
      assert WellFormed(s[k]);
      BedSuffices(u, g, s[k], q.etu, q.techs[u.own], c);
      hide CanCatch, WellFormed, Taken, AllGear;
    }
  }

  /** At every place, the oil that ships gain comes out of the sea bed: ten barrels for each part that is gone,
      up to the rounding of each ship's share. */
  lemma {:induction false} OilBalances(us: seq<Repair.Unit>, us': seq<Repair.Unit>, q: Setting,
                                       trace: seq<seq<Sector>>, catches: seq<Catch>, n: nat, i: int)
    requires SeaRun(us, us', q, trace, catches) && n <= |us| && AllWellFormed(trace[0]) && Indexed(trace[0], q.cmap)
    requires 0 <= i < |trace[0]|
    ensures |trace[n]| == |trace[0]|
    ensures var p := PosOfSector(trace[0][i]);
            -9 * n <= 10 * (trace[0][i].oil - trace[n][i].oil) - (OilAboard(us', n, p) - OilAboard(us, n, p)) <= 9 * n
  {
    if n > 0 {
      var j := n - 1;
      OilBalances(us, us', q, trace, catches, j, i);
      SeaRunKeeps(us, us', q, trace, catches, j);
      assert SameBed(trace[0][i], trace[j][i]);
      assert SeaStep(us[j], us'[j], q, trace[j], trace[n], catches[j]);
      StepBalances(us[j], us'[j], q, trace[j], trace[n], catches[j], i);
      hide SeaStep, AllWellFormed, Indexed, SameBeds, IsSetting, SeaRun;
    }
  }

  /** The turn of ship j. */
  method SeaTurn(ships: array<Repair.Unit>, j: int, sectors: array<Sector>, q: Setting) returns (ghost c: Catch)
    requires 0 <= j < ships.Length && Repair.IsUnit(ships[j]) && IsSetting(q)
    requires AllWellFormed(sectors[..]) && Indexed(sectors[..], q.cmap)
    modifies ships, sectors
    ensures ships[..] == old(ships[..])[j := ships[j]]
    ensures SeaStep(old(ships[j]), ships[j], q, old(sectors[..]), sectors[..], c)
  {
    hide CanCatch, Laden, Drained;
    var u := ships[j];
    c := Catch(0, 0, 0, 0);
    if AtSea(u, q.gears, sectors[..], q.bs, q.cmap) {
      var i := q.cmap[Pos(u.x, u.y)];
      assert WellFormed(sectors[i]);
      hide WellFormed;
      ships[j], sectors[i], c := CatchAt(u, q.gears[u.kind], sectors[i], q.etu, q.techs[u.own]);
    }
  }

  /** All ships take their turns. */
  method ShipProduceOcean(ships: array<Repair.Unit>, sectors: array<Sector>, q: Setting)
    returns (ghost trace: seq<seq<Sector>>, ghost catches: seq<Catch>)
    requires IsSetting(q) && AllWellFormed(sectors[..]) && Indexed(sectors[..], q.cmap)
    requires forall j :: 0 <= j < ships.Length ==> Repair.IsUnit(ships[j])
    modifies ships, sectors
    ensures SeaRun(old(ships[..]), ships[..], q, trace, catches)
    ensures trace[0] == old(sectors[..]) && trace[ships.Length] == sectors[..]
  {
    hide AllWellFormed, Indexed, SeaStep, IsSetting, Repair.IsUnit;
    ghost var us := ships[..];
    trace, catches := [sectors[..]], [];
    for j := 0 to ships.Length
      invariant |catches| == j && |trace| == j + 1 && trace[0] == old(sectors[..]) && trace[j] == sectors[..]
      invariant AllWellFormed(sectors[..]) && Indexed(sectors[..], q.cmap)
      invariant forall m :: 0 <= m < j ==>
                  Indexed(trace[m], q.cmap) && SeaStep(us[m], ships[m], q, trace[m], trace[m + 1], catches[m])
      invariant forall m :: j <= m < ships.Length ==> ships[m] == us[m]
    {
      ghost var s, before := sectors[..], ships[..];
      assert Repair.IsUnit(us[j]);
      ghost var c := SeaTurn(ships, j, sectors, q);
      assert forall m :: 0 <= m < ships.Length && m != j ==> ships[m] == before[m];
      SeaStepKeeps(us[j], ships[j], q, s, sectors[..], c);
      trace, catches := trace + [sectors[..]], catches + [c];
    }
  }
}
