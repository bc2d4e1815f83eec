/** The preparation phase of an update: work, taxes, and feeding the population. */
module Populace {
  import opened Basics
  import opened Game
  import opened Ledger
  import opened Rounding

  /** The configured rates; none of them lets a population more than double in one update. */
  datatype Rates = Rates(
    moneyCiv: real, moneyUw: real, moneyMil: real, moneyRes: real, bankInt: real,
    obrate: real, uwbrate: real, eatrate: real, babyeat: real)

  const ETU_MAX := 1000

  ghost predicate Sensible(r: Rates, etu: nat) {
    etu <= ETU_MAX && r.obrate >= 0.0 && r.uwbrate >= 0.0 && r.eatrate >= 0.0 && r.babyeat >= 0.0
    && Births(1, etu, r.obrate) <= 1.0 && Births(1, etu, r.uwbrate) <= 1.0
  }

  // ---------------------------------------------------------------------------------------------
  // Work
  // ---------------------------------------------------------------------------------------------

  /** The civilians that work, as far as they are willing. */
  function Willing(civ: int, work: int): real {
    civ as real * work as real / 100.0
  }

  /** The hands that work: civilians as far as they are willing, soldiers a little, others fully. */
  function Hands(work: int, civ: int, mil: int, uw: int, maxPop: int): real {
    Willing(Smaller(civ, maxPop), work) + Smaller(mil, maxPop) as real / 2.5 + Smaller(uw, maxPop) as real
  }

  /** The work a population does, before rounding. */
  function WorkOf(work: int, etu: nat, civ: int, mil: int, uw: int, maxPop: int): real {
    Hands(work, civ, mil, uw, maxPop) * etu as real / 100.0
  }

  lemma {:induction false} PartWithin(x: real, part: real)
    requires 0.0 <= x && 0.0 <= part <= 1.0
    ensures 0.0 <= x * part <= x
  {}

  lemma {:induction false} ProductWithin(a: real, b: real, x: real, y: real)
    requires 0.0 <= a <= x && 0.0 <= b <= y
    ensures 0.0 <= a * b <= x * y
  {
    assert a * (y - b) >= 0.0;
    assert (x - a) * y >= 0.0;
  }

  lemma {:induction false} WillingFits(civ: nat, work: int)
    requires 0 <= work <= 100
    ensures 0.0 <= Willing(civ, work) <= civ as real
  {
    ProductWithin(civ as real, work as real, civ as real, 100.0);
  }

  lemma {:induction false} HandsFit(work: int, civ: nat, mil: nat, uw: nat, maxPop: int)
    requires 0 <= work <= 100 && 1 <= maxPop <= 1000
    ensures 0.0 <= Hands(work, civ, mil, uw, maxPop) <= 2400.0
  {
    WillingFits(Smaller(civ, maxPop), work);
    hide Willing;
  }

  /** No outcome overflows the 16 bits it is cut to, even with the work left over from before. */
  lemma {:induction false} WorkFits(work: int, etu: nat, civ: nat, mil: nat, uw: nat, maxPop: int, n: int)
    requires 0 <= work <= 100 && etu <= ETU_MAX && 1 <= maxPop <= 1000
    requires RoundsTo(WorkOf(work, etu, civ, mil, uw, maxPop), n)
    ensures 0 <= n <= 24000 && AsI16(n) == n
  {
    HandsFit(work, civ, mil, uw, maxPop);
    hide Hands;
    ProductWithin(Hands(work, civ, mil, uw, maxPop), etu as real, 2400.0, 1000.0);
    RoundsWithin(WorkOf(work, etu, civ, mil, uw, maxPop), 0, 24000, n);
    FitsI16(n);
  }

  // ---------------------------------------------------------------------------------------------
  // Feeding
  // ---------------------------------------------------------------------------------------------

  function Births(people: int, etu: nat, rate: real): real {
    people as real * etu as real * rate
  }

  function Babies(people: int, etu: nat, rate: real): int {
    Births(people, etu, rate).Floor
  }

  /** Food for everybody, babies included, and to raise the babies. */
  function FoodNeed(civ: int, mil: int, uw: int, newCiv: int, newUw: int, etu: nat, r: Rates): real {
    (civ + newCiv + mil + uw + newUw) as real * r.eatrate * etu as real + (newCiv + newUw) as real * r.babyeat
  }

  lemma {:induction false} TimesAgain(a: real, b: real, c: real)
    ensures a * b * c == a * (b * c)
  {}

  /** No more babies than parents. */
  lemma {:induction false} BabiesFit(people: nat, etu: nat, rate: real)
    requires people <= I16_MAX && rate >= 0.0 && Births(1, etu, rate) <= 1.0
    ensures 0 <= Babies(people, etu, rate) <= people
    ensures AsI16(Babies(people, etu, rate)) == Babies(people, etu, rate)
  {
    var e, p := etu as real * rate, people as real;
    assert Births(1, etu, rate) == e by { TimesAgain(1.0, etu as real, rate); }
    assert Births(people, etu, rate) == p * e by { TimesAgain(p, etu as real, rate); }
    hide Births;
    ProductWithin(0.0, 0.0, etu as real, rate);
    PartWithin(p, e);
    FitsI16(Babies(people, etu, rate));
  }

  /** The share of the need that is missing. */
  function Hunger(food: int, need: real): real
    requires need > 0.0
  {
    if food > 0 then 1.0 - food as real / need else 1.0
  }

  function Starving(people: int, hunger: real): real {
    people as real * hunger
  }

  function Deaths(people: int, hunger: real): real {
    Starving(people, hunger) * 0.5
  }

  lemma {:induction false} HungerIsPart(food: nat, need: real)
    requires need > 0.0 && (food as real) < need
    ensures 0.0 < Hunger(food, need) <= 1.0
  {
    var q := food as real / need;
    assert q * need == food as real;
    assert q >= 1.0 ==> (q - 1.0) * need >= 0.0;
    assert q < 0.0 ==> q * need < 0.0;
  }

  lemma {:induction false} StarvingFits(people: nat, hunger: real)
    requires 0.0 <= hunger <= 1.0
    ensures 0.0 <= Starving(people, hunger) <= people as real
  {
    var p := people as real;
    assert Starving(people, hunger) == p * hunger;
    hide Starving;
    PartWithin(p, hunger);
  }

  /** Starvation kills at most half, rounded up. */
  lemma {:induction false} DeathsFit(people: nat, hunger: real, dead: int)
    requires people <= I16_MAX && 0.0 <= hunger <= 1.0 && RoundsTo(Deaths(people, hunger), dead)
    ensures 0 <= dead <= (people + 1) / 2 && dead <= people && AsI16(dead) == dead
  {
    StarvingFits(people, hunger);
    hide Starving;
    RoundsWithin(Deaths(people, hunger), 0, (people + 1) / 2, dead);
    FitsI16(dead);
  }

  /** People and their babies, whose number is cut to 16 bits. */
  function Grown(people: int, babies: int): int {
    SatAdd(people, AsI16(babies))
  }

  /** What feeding can do to a sector. With enough food, everybody eats, babies are born and people work
      more; without, all food goes and at most half the civilians and the uncompensated workers die. */
  ghost predicate Fed(s: Sector, t: Sector, etu: nat, r: Rates)
    requires Stocked(s)
  {
    var civ, mil, uw, food := s.items[CIVIL], s.items[MILIT], s.items[UW], s.items[FOOD];
    var newCiv, newUw := Babies(civ, etu, r.obrate), Babies(uw, etu, r.uwbrate);
    var need := FoodNeed(civ, mil, uw, newCiv, newUw, etu, r);
    if civ + mil + uw == 0 || need <= 0.0 then t == s
    else if food as real >= need then
      t == s.(work := Smaller(s.work + Nearest(etu as real * 0.5), 100),
              items := s.items[FOOD := (food as real - need).Floor][CIVIL := Grown(civ, newCiv)]
                              [UW := Grown(uw, newUw)])
    else
      exists deadCiv, deadUw ::
        RoundsTo(Deaths(civ, Hunger(food, need)), deadCiv) && RoundsTo(Deaths(uw, Hunger(food, need)), deadUw)
        && 0 <= deadCiv <= (civ + 1) / 2 && 0 <= deadUw <= (uw + 1) / 2
        && t == s.(items := s.items[CIVIL := civ - deadCiv][UW := uw - deadUw][FOOD := 0])
  }

  /** There is food for everybody, and somebody to eat it. */
  predicate Plenty(s: Sector, etu: nat, r: Rates)
    requires |s.items| == ITEMS
  {
    var civ, mil, uw := s.items[CIVIL], s.items[MILIT], s.items[UW];
    var need := FoodNeed(civ, mil, uw, Babies(civ, etu, r.obrate), Babies(uw, etu, r.uwbrate), etu, r);
    civ + mil + uw > 0 && 0.0 < need <= s.items[FOOD] as real
  }

  /** With plenty, the civilians grow by all their babies, up to what 16 bits hold, exactly if 16 bits hold the
      number of babies, or what they hold of it fills the population up all the same. */
  lemma {:induction false} BirthsKeptIff(s: Sector, t: Sector, etu: nat, r: Rates)
    requires Stocked(s) && r.obrate >= 0.0 && Plenty(s, etu, r) && Fed(s, t, etu, r)
    ensures var civ := s.items[CIVIL];
            var babies := Babies(civ, etu, r.obrate);
            t.items[CIVIL] == Smaller(civ + babies, I16_MAX)
            <==> babies <= I16_MAX || civ + AsI16(babies) >= I16_MAX
  {
    var civ := s.items[CIVIL];
    BabiesPositive(civ, etu, r.obrate);
    PlentyGrows(s, t, etu, r);
    hide *;
    GrownIff(civ, Babies(civ, etu, r.obrate));
    StockedCivil(s);
  }

  lemma {:induction false} PlentyGrows(s: Sector, t: Sector, etu: nat, r: Rates)
    requires Stocked(s) && Plenty(s, etu, r) && Fed(s, t, etu, r)
    ensures |t.items| == ITEMS && t.items[CIVIL] == Grown(s.items[CIVIL], Babies(s.items[CIVIL], etu, r.obrate))
  {
    hide FoodNeed, Babies, Grown, Nearest;
  }

  lemma {:induction false} StockedCivil(s: Sector)
    requires Stocked(s)
    ensures |s.items| == ITEMS && 0 <= s.items[CIVIL] <= I16_MAX
  {}

  lemma {:induction false} GrownIff(people: int, babies: int)
    requires 0 <= people <= I16_MAX && 0 <= babies
    ensures Grown(people, babies) == Smaller(people + babies, I16_MAX)
            <==> babies <= I16_MAX || people + AsI16(babies) >= I16_MAX
  {}

  lemma {:induction false} BabiesPositive(people: nat, etu: nat, rate: real)
    requires rate >= 0.0
    ensures Babies(people, etu, rate) >= 0
  {
    ProductWithin(0.0, 0.0, people as real, etu as real);
    ProductWithin(0.0, 0.0, people as real * etu as real, rate);
  }

  /** A thousand civilians with forty thousand babies become less than none. */
  lemma {:induction false} BirthsWrap(s: Sector, t: Sector, r: Rates)
    requires Stocked(s) && Fed(s, t, 100, r) && s.items[CIVIL] == 1000 && s.items[MILIT] == s.items[UW] == 0
    requires s.items[FOOD] == ITEM_MAX && r.obrate == 0.4 && r.uwbrate == 0.4 && r.eatrate == 0.0005
    requires r.babyeat == 0.006
    ensures t.items[CIVIL] == 1000 + AsI16(40000) == -24536
  {
    assert Babies(1000, 100, 0.4) == 40000 && Babies(0, 100, 0.4) == 0;
    assert FoodNeed(1000, 0, 0, 40000, 0, 100, r) == 2290.0;
  }

  lemma {:induction false} WholeStays(n: int, m: int)
    requires RoundsTo(n as real, m)
    ensures m == n
  {}

  lemma {:induction false} LeftoverFits(food: nat, need: real)
    requires 0.0 < need <= food as real && food <= I16_MAX
    ensures 0 <= (food as real - need).Floor <= food
            && AsI16((food as real - need).Floor) == (food as real - need).Floor
  {
    FitsI16((food as real - need).Floor);
  }

  /** Feeds the population of a sector, whatever the rates. */
  method DoFeed(s: Sector, etu: nat, r: Rates) returns (t: Sector)
    requires WellFormed(s)
    ensures Fed(s, t, etu, r)
  {
    t := s;
    var civ, mil, uw, food := s.items[CIVIL], s.items[MILIT], s.items[UW], s.items[FOOD];
    hide Births, FoodNeed, Deaths, Hunger, Nearest, RoundsTo, AsI16, Sensible, Babies, Ordered;
    if civ + mil + uw == 0 {
      return;
    }
    var newCiv, newUw := Babies(civ, etu, r.obrate), Babies(uw, etu, r.uwbrate);
    var need := FoodNeed(civ, mil, uw, newCiv, newUw, etu, r);
    if need <= 0.0 {
      return;
    }
    if food as real >= need {
      LeftoverFits(food, need);
      var nc := RoundAvg(newCiv as real);
      var nu := RoundAvg(newUw as real);
      WholeStays(newCiv, nc);
      WholeStays(newUw, nu);
      t := t.(items := t.items[FOOD := AsI16((food as real - need).Floor)]);
      t := AddItem(AddItem(t, CIVIL, AsI16(nc)), UW, AsI16(nu));
      t := t.(work := Smaller(t.work + Nearest(etu as real * 0.5), 100));
    } else {
      HungerIsPart(food, need);
      var hunger := Hunger(food, need);
      var deadCiv := RoundAvg(Deaths(civ, hunger));
      var deadUw := RoundAvg(Deaths(uw, hunger));
      DeathsFit(civ, hunger, deadCiv);
      DeathsFit(uw, hunger, deadUw);
      t := AddItem(AddItem(t, CIVIL, -AsI16(deadCiv)), UW, -AsI16(deadUw));
      t := t.(items := t.items[FOOD := 0]);
    }
  }

  /** Feeding neither creates nor kills soldiers, never adds food, and kills nobody who is fed. */
  lemma {:induction false} FedKeeps(s: Sector, t: Sector, etu: nat, r: Rates)
    requires WellFormed(s) && Sensible(r, etu) && Fed(s, t, etu, r)
    ensures WellFormed(t) && t == s.(items := t.items, work := t.work)
    ensures t.items[MILIT] == s.items[MILIT] && t.items[FOOD] <= s.items[FOOD]
    ensures t.items[FOOD] > 0 ==> t.items[CIVIL] >= s.items[CIVIL] && t.items[UW] >= s.items[UW] && t.work >= s.work
    ensures 2 * t.items[CIVIL] + 1 >= s.items[CIVIL] && 2 * t.items[UW] + 1 >= s.items[UW]
    ensures forall k :: 0 <= k < ITEMS && k != CIVIL && k != UW && k != FOOD ==> t.items[k] == s.items[k]
  {
    var civ, uw, food := s.items[CIVIL], s.items[UW], s.items[FOOD];
    BabiesFit(civ, etu, r.obrate);
    BabiesFit(uw, etu, r.uwbrate);
    var newCiv, newUw := Babies(civ, etu, r.obrate), Babies(uw, etu, r.uwbrate);
    var need := FoodNeed(civ, s.items[MILIT], uw, newCiv, newUw, etu, r);
    hide Births, FoodNeed, Deaths, Hunger, RoundsTo, AsI16, Sensible, Babies;
    if 0.0 < need <= food as real {
      LeftoverFits(food, need);
    }
  }

  // ---------------------------------------------------------------------------------------------
  // One sector of the preparation phase
  // ---------------------------------------------------------------------------------------------

  /** An empty sector forgets its past, and without soldiers its owner. */
  function CheckPopLoss(s: Sector): Sector
    requires |s.items| == ITEMS
  {
    var civ, mil := s.items[CIVIL], s.items[MILIT];
    var t := if civ == 0 then s.(work := 100, loyal := 0, oldOwn := s.own) else s;
    if t.own != 0 && civ == 0 && mil == 0 then t.(own := 0, oldOwn := 0, mobil := 0) else t
  }

  function PopLimit(t: int): (n: int)
    ensures 1 <= n <= 1000
  {
    if MaxPop(t) > 1 then MaxPop(t) else 1
  }

  /** A sector after feeding: too many people leave, and an empty sector is given up. */
  function Settled(s: Sector): Sector
    requires |s.items| == ITEMS
  {
    var most := PopLimit(s.sectorType);
    var a := s.(items := s.items[CIVIL := Smaller(s.items[CIVIL], most)]);
    var b := a.(items := a.items[UW := Smaller(a.items[UW], most)]);
    var c := CheckPopLoss(b);
    if c.loyal == 0 && c.oldOwn != c.own && c.own != 0 then c.(oldOwn := c.own) else c
  }

  /** The taxes of a sector's civilians; a quarter from those who were conquered. */
  function CivTax(s: Sector, etu: nat, r: Rates): real
    requires |s.items| == ITEMS
  {
    var full := s.items[CIVIL] as real * etu as real * r.moneyCiv * s.effic as real / 100.0;
    if s.oldOwn == s.own then full else full / 4.0
  }

  function UwTax(s: Sector, etu: nat, r: Rates): real
    requires |s.items| == ITEMS
  {
    s.items[UW] as real * etu as real * r.moneyUw * s.effic as real / 100.0
  }

  function MilPay(s: Sector, etu: nat, r: Rates): real
    requires |s.items| == ITEMS
  {
    s.items[MILIT] as real * etu as real * r.moneyMil
  }

  function BankIncome(s: Sector, etu: nat, r: Rates): real
    requires |s.items| == ITEMS
  {
    s.items[BAR] as real * etu as real * r.bankInt * s.effic as real / 100.0
  }

  /** The owner's account after a sector's taxes, payroll and bank income. */
  function Taxed(s: Sector, etu: nat, r: Rates, b: Budget): (c: Budget)
    requires |s.items| == ITEMS && Shaped(b)
    ensures Shaped(c)
  {
    var b0 := if s.oldOwn == s.own then b.(oldOwnedCivs := b.oldOwnedCivs + s.items[CIVIL]) else b;
    var b1 := Post(b0, Civ, s.items[CIVIL], CivTax(s, etu, r));
    var b2 := Post(b1, Uw, s.items[UW], UwTax(s, etu, r));
    var b3 := Post(b2, Mil, s.items[MILIT], MilPay(s, etu, r));
    if s.sectorType == BANK then Post(b3, Bars, s.items[BAR], BankIncome(s, etu, r)) else b3
  }

  lemma {:induction false} TaxedBalances(s: Sector, etu: nat, r: Rates, b: Budget)
    requires |s.items| == ITEMS && Shaped(b)
    ensures Unrecorded(Taxed(s, etu, r, b)) == Unrecorded(b)
    ensures s.items[CIVIL] >= 0 ==> Continues(b, Taxed(s, etu, r, b))
  {
    var b0 := if s.oldOwn == s.own then b.(oldOwnedCivs := b.oldOwnedCivs + s.items[CIVIL]) else b;
    var b1 := Post(b0, Civ, s.items[CIVIL], CivTax(s, etu, r));
    var b2 := Post(b1, Uw, s.items[UW], UwTax(s, etu, r));
    var b3 := Post(b2, Mil, s.items[MILIT], MilPay(s, etu, r));
    assert Unrecorded(b0) == Unrecorded(b);
    PostBalances(b0, Civ, s.items[CIVIL], CivTax(s, etu, r));
    PostBalances(b1, Uw, s.items[UW], UwTax(s, etu, r));
    PostBalances(b2, Mil, s.items[MILIT], MilPay(s, etu, r));
    PostBalances(b3, Bars, s.items[BAR], BankIncome(s, etu, r));
  }

  /** The sector with its work for this update: half of what was left, and the work of its people. */
  ghost predicate Worked(s: Sector, t: Sector, etu: nat)
    requires |s.items| == ITEMS
  {
    exists n :: RoundsTo(WorkOf(s.work, etu, s.items[CIVIL], s.items[MILIT], s.items[UW], PopLimit(s.sectorType)), n)
                && t == s.(avail := Smaller(s.avail / 2 + n, AVAIL_MAX)) && 0 <= n
  }

  /** What one sector of the preparation phase can come to. */
  ghost predicate PrepareOutcome(s: Sector, t: Sector, etu: nat, r: Rates, b: Budget, b': Budget)
    requires Stocked(s) && Shaped(b)
  {
    if s.own == 0 then Worked(s, t, etu) && b' == b
    else
      b' == Taxed(s, etu, r, b)
      && exists w, f :: PreparedVia(s, w, f, t, etu, r)
  }

  ghost predicate PreparedVia(s: Sector, w: Sector, f: Sector, t: Sector, etu: nat, r: Rates)
    requires Stocked(s)
  {
    Worked(s, w, etu) && Fed(w, f, etu, r) && |f.items| == ITEMS && t == Settled(f)
  }

  /** What the preparation phase can change of a sector. */
  ghost predicate SamePlot(s: Sector, t: Sector) {
    t == s.(own := t.own, oldOwn := t.oldOwn, mobil := t.mobil, loyal := t.loyal, avail := t.avail, work := t.work,
            items := t.items)
    && (t.own == s.own || t.own == 0)
  }

  lemma {:induction false} WorkedKeeps(s: Sector, t: Sector, etu: nat)
    requires WellFormed(s) && etu <= ETU_MAX && Worked(s, t, etu)
    ensures WellFormed(t) && t == s.(avail := t.avail)
  {
    hide WorkOf, RoundsTo;
  }

  /** A sector is given up only when neither civilians nor soldiers are left. */
  lemma {:induction false} SettledKeeps(s: Sector)
    requires WellFormed(s)
    ensures WellFormed(Settled(s)) && SamePlot(s, Settled(s))
    ensures Settled(s).items[MILIT] == s.items[MILIT]
    ensures Settled(s).own != s.own ==> s.items[CIVIL] == 0 && s.items[MILIT] == 0
    ensures Settled(s).items[CIVIL] <= PopLimit(s.sectorType) && Settled(s).items[UW] <= PopLimit(s.sectorType)
  {
    hide MaxPop;
  }

  lemma {:induction false} PreparedKeeps(s: Sector, w: Sector, f: Sector, t: Sector, etu: nat, r: Rates)
    requires WellFormed(s) && Sensible(r, etu) && PreparedVia(s, w, f, t, etu, r)
    ensures WellFormed(t) && SamePlot(s, t) && t.items[MILIT] == s.items[MILIT]
    ensures t.own == s.own || t.items[MILIT] == s.items[MILIT] == 0
  {
    hide Fed, Worked, WellFormed, Settled;
    WorkedKeeps(s, w, etu);
    WellFormedType(s);
    FedKeeps(w, f, etu, r);
    WellFormedType(f);
    SettledKeeps(f);
  }

  /** A sector stays well-formed, and all that is taxed and paid for it is booked. */
  lemma {:induction false} PrepareKeeps(s: Sector, t: Sector, etu: nat, r: Rates, b: Budget, b': Budget)
    requires WellFormed(s) && Sensible(r, etu) && Shaped(b) && PrepareOutcome(s, t, etu, r, b, b')
    ensures WellFormed(t) && SamePlot(s, t) && BookedFor(s, t, b, b')
    ensures t.own == s.own || t.items[MILIT] == s.items[MILIT] == 0
  {
    hide Worked, PreparedVia, Taxed, Unrecorded, WorkOf;
    WellFormedType(s);
    if s.own == 0 {
      WorkedKeeps(s, t, etu);
      BookedByNothing(s, t, b);
    } else {
      var w, f :| PreparedVia(s, w, f, t, etu, r);
      PreparedKeeps(s, w, f, t, etu, r);
      WellFormedType(t);
      StockedPeople(s);
      TaxedBalances(s, etu, r, b);
    }
  }

  lemma {:induction false} StockedPeople(s: Sector)
    requires WellFormed(s)
    ensures |s.items| == ITEMS && s.items[CIVIL] >= 0
  {}

  method PrepareSector(s: Sector, etu: nat, r: Rates, budget: Budget) returns (t: Sector, b: Budget)
    requires WellFormed(s) && Sensible(r, etu) && Shaped(budget)
    ensures PrepareOutcome(s, t, etu, r, budget, b)
  {
    var most := PopLimit(s.sectorType);
    var work := RoundAvg(WorkOf(s.work, etu, s.items[CIVIL], s.items[MILIT], s.items[UW], most));
    WorkFits(s.work, etu, s.items[CIVIL], s.items[MILIT], s.items[UW], most, work);
    t, b := s.(avail := Smaller(s.avail / 2 + AsI16(work), AVAIL_MAX)), budget;
    hide WorkOf, RoundsTo, AsI16, MaxPop, Taxed, Fed, Settled, Sensible;
    assert Worked(s, t, etu);
    if s.own != 0 {
      b := Taxed(s, etu, r, budget);
      ghost var w := t;
      WorkedKeeps(s, t, etu);
      var f := DoFeed(t, etu, r);
      FedKeeps(t, f, etu, r);
      t := Settled(f);
      assert PreparedVia(s, w, f, t, etu, r);
    }
  }

  predicate Preparing(s: Sector) {
    !IsWater(s.sectorType) && !IsSanct(s.sectorType)
  }

  /** What a sector came to, with all accounts before and after it. */
  ghost predicate PrepareStep(s: Sector, t: Sector, etu: nat, r: Rates, bs: seq<Budget>, bs': seq<Budget>)
    requires WellFormed(s) && AllShaped(bs)
  {
    if Preparing(s) then
      |bs'| == |bs| && bs' == bs[s.own := bs'[s.own]] && PrepareOutcome(s, t, etu, r, bs[s.own], bs'[s.own])
    else t == s && bs' == bs
  }

  /** accounts lists all accounts before, between and after the sectors. */
  ghost predicate PreparationRun(s: seq<Sector>, t: seq<Sector>, etu: nat, r: Rates, accounts: seq<seq<Budget>>)
    requires AllWellFormed(s)
  {
    |s| == |t| && |accounts| == |s| + 1
    && forall i :: 0 <= i < |s| ==>
         AllShaped(accounts[i]) && PrepareStep(s[i], t[i], etu, r, accounts[i], accounts[i + 1])
  }

  ghost predicate SamePlots(s: seq<Sector>, t: seq<Sector>) {
    |s| == |t| && forall i :: 0 <= i < |s| ==> SamePlot(s[i], t[i])
  }

  lemma {:induction false} PrepareStepKeeps(s: seq<Sector>, i: int, t: Sector, etu: nat, r: Rates, bs: seq<Budget>,
                                            bs': seq<Budget>)
    requires 0 <= i < |s| && WellFormed(s[i]) && Sensible(r, etu) && AllShaped(bs)
    requires PrepareStep(s[i], t, etu, r, bs, bs')
    ensures WellFormed(t) && SamePlot(s[i], t) && AllShaped(bs')
    ensures MissesRecruits(s, s[i := t], bs, bs')
  {
    hide Unrecorded, Held, PrepareOutcome, Shaped, Stocked, Ordered, Sensible;
    if Preparing(s[i]) {
      var own := s[i].own;
      PrepareKeeps(s[i], t, etu, r, bs[own], bs'[own]);
      BookedIsStep(s, i, t, bs, bs'[own]);
    } else {
      assert s[i := t] == s;
    }
  }

  lemma {:induction false} PlotsStep(s: seq<Sector>, mid: seq<Sector>, i: int, t: Sector)
    requires SamePlots(s, mid) && AllWellFormed(mid) && 0 <= i < |s| && WellFormed(t) && SamePlot(s[i], t)
    ensures SamePlots(s, mid[i := t]) && AllWellFormed(mid[i := t])
  {
    hide WellFormed, SamePlot;
  }

  /** The preparation phase keeps every sector well-formed and in its place, and books all it moves. */
  lemma {:induction false} PreparationKeeps(s: seq<Sector>, t: seq<Sector>, etu: nat, r: Rates,
                                            accounts: seq<seq<Budget>>, n: nat)
    requires AllWellFormed(s) && Sensible(r, etu) && PreparationRun(s, t, etu, r, accounts)
    requires n <= |s| && AllShaped(accounts[0])
    ensures AllWellFormed(Sofar(s, t, n)) && SamePlots(s, Sofar(s, t, n)) && AllShaped(accounts[n])
    ensures MissesRecruits(s, Sofar(s, t, n), accounts[0], accounts[n])
  {
    hide Unrecorded, Held, WellFormed, SamePlot, Shaped, PrepareStep, Sofar, MissesRecruits, Sensible;
    SofarIs(s, t, n);
    if n == 0 {
      NothingMissed(s, accounts[0]);
      forall i | 0 <= i < |s|
        ensures SamePlot(s[i], s[i])
      {
        SamePlotSelf(s[i]);
      }
    } else {
      var mid, i := Sofar(s, t, n - 1), n - 1;
      PreparationKeeps(s, t, etu, r, accounts, i);
      assert WellFormed(s[i]) && PrepareStep(s[i], t[i], etu, r, accounts[i], accounts[i + 1]);
      PrepareStepKeeps(mid, i, t[i], etu, r, accounts[i], accounts[n]);
      MissesRecruitsChain(s, mid, mid[i := t[i]], accounts[0], accounts[i], accounts[n]);
      PlotsStep(s, mid, i, t[i]);
    }
  }

  lemma {:induction false} SamePlotSelf(s: Sector)
    ensures SamePlot(s, s)
  {}

  /** The preparation phase. */
  method PrepareSects(sectors: array<Sector>, budgets: array<Budget>, etu: nat, r: Rates)
    returns (ghost accounts: seq<seq<Budget>>)
    requires AllWellFormed(sectors[..]) && AllShaped(budgets[..]) && Sensible(r, etu)
    modifies sectors, budgets
    ensures PreparationRun(old(sectors[..]), sectors[..], etu, r, accounts)
    ensures accounts[0] == old(budgets[..]) && accounts[sectors.Length] == budgets[..]
  {
    hide WellFormed, Shaped, PrepareOutcome, IsWater, IsSanct, Sensible;
    ghost var s0 := sectors[..];
    accounts := [budgets[..]];
    for i := 0 to sectors.Length
      invariant AllShaped(budgets[..]) && |accounts| == i + 1
      invariant accounts[0] == old(budgets[..]) && accounts[i] == budgets[..]
      invariant forall k :: 0 <= k < i ==>
                  AllShaped(accounts[k]) && PrepareStep(s0[k], sectors[k], etu, r, accounts[k], accounts[k + 1])
      invariant forall k :: i <= k < sectors.Length ==> sectors[k] == s0[k]
    {
      var s := sectors[i];
      ghost var b0 := budgets[..];
      assert WellFormed(s0[i]);
      if Preparing(s) {
        WellFormedType(s);
        var t, b := PrepareSector(s, etu, r, budgets[s.own]);
        PrepareKeeps(s, t, etu, r, budgets[s.own], b);
        sectors[i] := t;
        budgets[s.own] := b;
        assert budgets[..] == b0[s.own := b];
      }
      accounts := accounts + [budgets[..]];
      assert PrepareStep(s0[i], sectors[i], etu, r, accounts[i], accounts[i + 1]);
    }
  }

  function ReservePay(reserve: int, etu: nat, r: Rates): real {
    reserve as real * r.moneyRes * etu as real
  }

  /** Pays a nation's reserve. */
  function PayReserve(reserve: int, b: Budget, etu: nat, r: Rates): Budget
    requires Shaped(b)
  {
    Post(b, Mil, 0, ReservePay(reserve, etu, r))
  }

  lemma {:induction false} ReserveIsBooked(reserve: int, b: Budget, etu: nat, r: Rates)
    requires Shaped(b)
    ensures var c := PayReserve(reserve, b, etu, r);
            Shaped(c) && Unrecorded(c) == Unrecorded(b) && Continues(b, c)
  {
    hide Unrecorded;
    PostBalances(b, Mil, 0, ReservePay(reserve, etu, r));
  }
}
