/** The production phase of an update: maintenance, building, recruiting and production, sector by sector. */
module Industry {
  import opened Basics
  import opened Game
  import opened Ledger
  import opened Products
  import opened Production
  import opened Construction
  import opened Rounding

  /** What the production phase can change of a sector. */
  ghost predicate SamePost(s: Sector, t: Sector) {
    t == s.(effic := t.effic, sectorType := t.sectorType, avail := t.avail, items := t.items,
            min := t.min, gmin := t.gmin, fertil := t.fertil, oil := t.oil, uran := t.uran)
  }

  /** A sector keeps its type, or was redesignated and had its whole efficiency torn down. */
  ghost predicate Redesignated(s: Sector, t: Sector) {
    t.sectorType == s.sectorType
    || (t.sectorType == s.newType && s.effic <= 4 * (s.avail / 2) && t.effic == Smaller(s.avail / 2, 100))
  }

  lemma {:induction false} BookedByLevel(s: Sector, t: Sector, b: Budget, b': Budget, l: int, output: real)
    requires BookedFor(s, t, b, b') && 0 <= l < |b'.level| && output >= 0.0
    ensures BookedFor(s, t, b, b'.(level := b'.level[l := b'.level[l] + output]))
  {}

  function ProductionCost(p: Product, output: real, pe: real): real
    requires pe > 0.0
  {
    p.cost as real * output / pe
  }

  /** The account after a production run. */
  function PaidFor(b: Budget, sectorType: int, p: Product, output: real, pe: real): (r: Budget)
    requires Shaped(b) && 0 <= sectorType < SECTOR_TYPES && Sound(p) && pe > 0.0
    ensures Shaped(r)
  {
    var c := Post(b, Prod(sectorType), Trunc(output), -ProductionCost(p, output, pe));
    if p.level.Some? then c.(level := c.level[p.level.value := c.level[p.level.value] + output]) else c
  }

  /** What running production for a sector can do. */
  ghost predicate ProduceOutcome(s: Sector, t: Sector, p: Product, pe: real, b: Budget, b': Budget)
    requires WellFormed(s) && Sound(p) && pe >= 0.0 && Shaped(b)
  {
    SoundInputs(p);
    if pe <= 0.0 || s.avail <= 0 || BatchesMade(s, p) <= 0.0 then t == s && b' == b
    else exists output, count, work, taken :: ProducedAndPaid(s, t, p, pe, output, count, work, taken, b, b')
  }

  ghost predicate ProducedAndPaid(s: Sector, t: Sector, p: Product, pe: real, output: real, count: real,
                                  work: int, taken: int, b: Budget, b': Budget)
    requires WellFormed(s) && Sound(p) && AreInputs(p.inputs) && pe > 0.0 && Shaped(b)
  {
    Produced(s, t, p, pe, output, count, work, taken)
    && b' == if output > 0.0 then PaidFor(b, s.sectorType, p, output, pe) else b
  }

  lemma {:induction false} ProducedIsBooked(s: Sector, t: Sector, p: Product, pe: real, output: real, count: real,
                         work: int, taken: int, b: Budget, b': Budget)
    requires WellFormed(s) && Sound(p) && AreInputs(p.inputs) && pe > 0.0 && Shaped(b)
    requires ProducedAndPaid(s, t, p, pe, output, count, work, taken, b, b')
    ensures WellFormed(t) && SameButGoods(s, t) && BookedFor(s, t, b, b')
  {
    hide BookedFor, AreInputs, PaidFor;
    MadeKeeps(s.items, t.items, p, output, count);
    WellFormedType(s);
    WellFormedType(t);
    BookedByNothing(s, t, b);
    PaidIsBooked(s, t, p, pe, output, b);
  }

  /** Production books all it costs, and leaves the soldiers alone. */
  lemma {:induction false} OutcomeIsBooked(s: Sector, t: Sector, p: Product, pe: real, b: Budget, b': Budget)
    requires WellFormed(s) && Sound(p) && pe >= 0.0 && Shaped(b) && ProduceOutcome(s, t, p, pe, b, b')
    ensures WellFormed(t) && SameButGoods(s, t) && BookedFor(s, t, b, b')
  {
    hide WellFormed, BookedFor, Sound, AreInputs, ProducedAndPaid;
    SoundInputs(p);
    SoundWork(p);
    WellFormedGoods(s);
    WellFormedType(s);
    BookedByNothing(s, s, b);
    if pe > 0.0 && s.avail > 0 && BatchesMade(s, p) > 0.0 {
      var output, count, work, taken :| ProducedAndPaid(s, t, p, pe, output, count, work, taken, b, b');
      ProducedIsBooked(s, t, p, pe, output, count, work, taken, b, b');
    }
  }

  lemma {:induction false} PaidIsBooked(s: Sector, t: Sector, p: Product, pe: real, output: real, b: Budget)
    requires |s.items| == |t.items| == ITEMS && t.items[MILIT] == s.items[MILIT] && Shaped(b)
    requires 0 <= s.sectorType < SECTOR_TYPES && Sound(p) && pe > 0.0 && output >= 0.0
    ensures BookedFor(s, t, b, PaidFor(b, s.sectorType, p, output, pe))
  {
    hide ProductionCost, Trunc;
    var cost := ProductionCost(p, output, pe);
    BookedByPost(s, t, b, Prod(s.sectorType), Trunc(output), -cost);
    var c := Post(b, Prod(s.sectorType), Trunc(output), -cost);
    if p.level.Some? {
      LevelIsSound(p);
      ShapedLevels(c);
      BookedByLevel(s, t, b, c, p.level.value, output);
    }
  }

  /** Runs production for one sector and books what it costs. */
  method Produce(s: Sector, p: Product, pe: real, budget: Budget) returns (t: Sector, b: Budget)
    requires WellFormed(s) && Sound(p) && pe >= 0.0 && Shaped(budget)
    ensures ProduceOutcome(s, t, p, pe, budget, b)
  {
    t, b := s, budget;
    if pe > 0.0 {
      SoundInputs(p);
      SoundWork(p);
      WellFormedGoods(s);
      hide *;
      ghost var count, work, taken;
      var output;
      t, output, count, work, taken := ProdOutput(s, p, pe);
      if output > 0.0 {
        WellFormedType(t);
        var cost := ProductionCost(p, output, pe);
        b := Post(budget, Prod(t.sectorType), Trunc(output), -cost);
        if p.level.Some? {
          LevelIsSound(p);
          ShapedLevels(b);
          var l := p.level.value;
          b := b.(level := b.level[l := b.level[l] + output]);
        }
      }
      OutcomeIs(s, t, p, pe, output, count, work, taken, budget, b);
    }
  }

  lemma {:induction false} ShapedLevels(b: Budget)
    requires Shaped(b)
    ensures |b.level| == 4
  {}

  lemma {:induction false} OutcomeIs(s: Sector, t: Sector, p: Product, pe: real, output: real, count: real, work: int,
                                     taken: int, b: Budget, b': Budget)
    requires WellFormed(s) && Sound(p) && AreInputs(p.inputs) && pe > 0.0 && Shaped(b)
    requires if s.avail <= 0 || BatchesMade(s, p) <= 0.0 then t == s && output == 0.0
             else Produced(s, t, p, pe, output, count, work, taken)
    requires 0 <= t.sectorType < SECTOR_TYPES && t.sectorType == s.sectorType
    requires b' == if output > 0.0 then PaidFor(b, t.sectorType, p, output, pe) else b
    ensures ProduceOutcome(s, t, p, pe, b, b')
  {
    SoundWork(p);
    hide BatchesMade, Produced, PaidFor, Sound, AreInputs;
    if s.avail > 0 && BatchesMade(s, p) > 0.0 {
      assert ProducedAndPaid(s, t, p, pe, output, count, work, taken, b, b');
    }
  }

  lemma {:induction false} LevelIsSound(p: Product)
    requires Sound(p) && p.level.Some?
    ensures 0 <= p.level.value < 4
  {}

  /** The national level a product depends on. */
  function LevelFor(p: Product, tech: real, edu: real): real {
    if p.needs == Some(TECH) then tech else if p.needs == Some(EDUCATION) then edu else 0.0
  }

  /** The account after a sector's maintenance. */
  function Maintained(b: Budget, sectorType: int, etu: nat): (r: Budget)
    requires Shaped(b)
    ensures Shaped(r)
  {
    if Maint(sectorType) > 0 then Post(b, Bm(SECTOR_MAINT), 0, -(etu as real * Maint(sectorType) as real)) else b
  }

  /** A sector, and its owner's account, after it built up or was torn down. */
  function Built(s: Sector, b: Budget): (r: (Sector, Budget))
    requires WellFormed(s) && Shaped(b)
    ensures WellFormed(r.0) && Shaped(r.1)
  {
    if s.effic < 100 || s.sectorType != s.newType then
      BuildEffKeeps(s);
      (BuildEff(s).0, Post(b, Bm(SECTOR_BUILD), 0, -BuildEff(s).1))
    else (s, b)
  }

  lemma {:induction false} BuiltKeeps(s: Sector, b: Budget)
    requires WellFormed(s) && Shaped(b)
    ensures var (t, c) := Built(s, b);
            SamePost(s, t) && Redesignated(s, t) && t.items == s.items && BookedFor(s, t, b, c)
  {
    BuildEffKeeps(s);
    WellFormedType(s);
    var t, cost := BuildEff(s).0, BuildEff(s).1;
    hide BuildEff, WellFormed;
    BookedByPost(s, t, b, Bm(SECTOR_BUILD), 0, -cost);
    BookedByNothing(s, s, b);
  }

  /** What one sector of the production phase can come to. What it can make is read before it builds. */
  ghost predicate SectorOutcome(s: Sector, t: Sector, tech: real, edu: real, etu: nat, b: Budget, b': Budget)
    requires WellFormed(s) && Shaped(b)
  {
    var kept := Maintained(b, s.sectorType, etu);
    if s.off || kept.money < 0.0 then t == s.(avail := 0) && b' == kept
    else
      var (u, c) := Built(s, kept);
      var (v, d) := Recruited(u, s.sectorType, etu, c);
      MakesOutcome(v, t, s.sectorType, tech, edu, d, b')
  }

  ghost predicate MakesOutcome(s: Sector, t: Sector, dtype: int, tech: real, edu: real, b: Budget, b': Budget)
    requires WellFormed(s) && Shaped(b)
  {
    if s.effic >= 60 && PrdOf(dtype) != -1 then
      EveryTypeIsListed(dtype);
      ProductsAreSound(PrdOf(dtype));
      var p := ProductOf(PrdOf(dtype)).value;
      ProduceOutcome(s, t, p, ProdEff(p, LevelFor(p, tech, edu), PeffOf(dtype)), b, b')
    else t == s && b' == b
  }

  /** A sector, and its owner's account, after an enlistment centre recruited. */
  function Recruited(s: Sector, dtype: int, etu: nat, b: Budget): (r: (Sector, Budget))
    requires WellFormed(s) && Shaped(b)
    ensures WellFormed(r.0) && Shaped(r.1) && BookedFor(s, r.0, b, r.1)
    ensures r.0 == s.(items := r.0.items)
  {
    if dtype == ENLIST && s.effic >= 60 && s.oldOwn == s.own then EnlistKeeps(s, b, etu); Enlist(s, b, etu) else (s, b)
  }

  lemma {:induction false} MakesIsBooked(s: Sector, t: Sector, dtype: int, tech: real, edu: real, b: Budget, b': Budget)
    requires WellFormed(s) && Shaped(b) && MakesOutcome(s, t, dtype, tech, edu, b, b')
    ensures WellFormed(t) && SameButGoods(s, t) && BookedFor(s, t, b, b')
  {
    hide WellFormed, BookedFor, ProduceOutcome, ProductOf, PrdOf, Sound, ProdEff;
    WellFormedGoods(s);
    WellFormedType(s);
    BookedByNothing(s, s, b);
    if s.effic >= 60 && PrdOf(dtype) != -1 {
      EveryTypeIsListed(dtype);
      ProductsAreSound(PrdOf(dtype));
      var p := ProductOf(PrdOf(dtype)).value;
      OutcomeIsBooked(s, t, p, ProdEff(p, LevelFor(p, tech, edu), PeffOf(dtype)), b, b');
    }
  }

  /** A sector's production phase keeps it well-formed, changes its type only when all of its efficiency
      was torn down, and books everything but the pay of recruits. */
  lemma {:induction false} OutcomeKeeps(s: Sector, t: Sector, tech: real, edu: real, etu: nat, b: Budget, b': Budget)
    requires WellFormed(s) && Shaped(b) && SectorOutcome(s, t, tech, edu, etu, b, b')
    ensures WellFormed(t) && SamePost(s, t) && BookedFor(s, t, b, b') && Redesignated(s, t)
  {
    hide BookedFor, Built, Recruited, MakesOutcome, Stocked, Ordered;
    WellFormedType(s);
    BookedByNothing(s, s, b);
    var kept := Maintained(b, s.sectorType, etu);
    BookedByPost(s, s, b, Bm(SECTOR_MAINT), 0, -(etu as real * Maint(s.sectorType) as real));
    hide Maintained;
    if s.off || kept.money < 0.0 {
      StillBooked(s, t, b, b');
      AvailGone(s);
    } else {
      var (u, c) := Built(s, kept);
      BuiltKeeps(s, kept);
      BookedChain(s, s, u, b, kept, c);
      var (v, d) := Recruited(u, s.sectorType, etu, c);
      BookedChain(s, u, v, b, c, d);
      MakesIsBooked(v, t, s.sectorType, tech, edu, d, b');
      BookedChain(s, v, t, b, d, b');
    }
  }

  /** What a sector that gets a new type makes in the same update: what its old type makes, if its
      efficiency has already grown back to 60; otherwise nothing. */
  lemma {:induction false} RedesignatedMakesOld(s: Sector, t: Sector, tech: real, edu: real, etu: nat, b: Budget,
                                                b': Budget)
    requires WellFormed(s) && Shaped(b) && SectorOutcome(s, t, tech, edu, etu, b, b') && t.sectorType != s.sectorType
    ensures exists v, d ::
              Rebuilt(s, v) && WellFormed(v) && Shaped(d) && MakesOutcome(v, t, s.sectorType, tech, edu, d, b')
    ensures s.avail / 2 < 60 || PrdOf(s.sectorType) == -1 ==> exists v :: Rebuilt(s, v) && t == v
  {
    hide BookedFor, Recruited, MakesOutcome, Stocked, Ordered, BuildEff;
    var kept := Maintained(b, s.sectorType, etu);
    var (u, c) := Built(s, kept);
    BuiltKeeps(s, kept);
    BuildEffKeeps(s);
    var (v, d) := Recruited(u, s.sectorType, etu, c);
    MakesIsBooked(v, t, s.sectorType, tech, edu, d, b');
    assert v.sectorType == t.sectorType;
    assert Rebuilt(s, v);
    MakesOrNot(v, t, s.sectorType, tech, edu, d, b');
  }

  /** A mine of type 10 that becomes an agricultural sector of type 15 still digs iron, item 5, in the
      update that changes it. */
  lemma {:induction false} RedesignatedMineDigs(s: Sector, t: Sector, tech: real, edu: real, etu: nat, b: Budget,
                                                b': Budget)
    requires WellFormed(s) && Shaped(b) && SectorOutcome(s, t, tech, edu, etu, b, b') && !s.off && b.money >= 0.0
    requires s.sectorType == 10 && s.newType == 15 && s.avail == 200 && s.min == 100 && s.items[5] == 0
    ensures t.sectorType == 15 && t.items[5] == 200
  {
    hide BookedFor, Stocked, Ordered, BuildEff, ProduceOutcome;
    BuildEffKeeps(s);
    var (u, c) := Built(s, b);
    assert u.sectorType == 15 && u.effic == 100;
    var p := ProductOf(0).value;
    ProductsAreSound(0);
    assert ProduceOutcome(u, t, p, 1.0, c, b');
    FullMine(u, t, p, c, b');
  }

  lemma {:induction false} FullMine(s: Sector, t: Sector, p: Product, b: Budget, b': Budget)
    requires WellFormed(s) && Sound(p) && Shaped(b) && ProduceOutcome(s, t, p, 1.0, b, b') && p == ProductOf(0).value
    requires s.effic == 100 && s.avail == 200 && s.min == 100 && s.items[5] == 0
    ensures t.sectorType == s.sectorType && t.items[5] == 200
  {
    SoundInputs(p);
    assert WorkerLimit(s, p) == 200.0;
    assert BatchesMade(s, p) == 200.0;
    assert YieldOf(200.0, 1.0) == 200.0;
    hide WorkUsed, Depletion, RoundsTo, WellFormed, Sound, PaidFor, BatchesMade, YieldOf, AreInputs;
  }

  lemma {:induction false} MakesOrNot(s: Sector, t: Sector, dtype: int, tech: real, edu: real, b: Budget, b': Budget)
    requires WellFormed(s) && Shaped(b) && MakesOutcome(s, t, dtype, tech, edu, b, b')
    ensures s.effic < 60 || PrdOf(dtype) == -1 ==> t == s
  {}

  /** v is s with its new type, built up from nothing, before it makes anything. */
  ghost predicate Rebuilt(s: Sector, v: Sector) {
    v == s.(sectorType := s.newType, effic := Smaller(s.avail / 2, 100), items := v.items)
  }

  lemma {:induction false} AvailGone(s: Sector)
    requires WellFormed(s)
    ensures WellFormed(s.(avail := 0))
  {}

  lemma {:induction false} StillBooked(s: Sector, t: Sector, b: Budget, b': Budget)
    requires BookedFor(s, s, b, b') && t.items == s.items
    ensures BookedFor(s, t, b, b')
  {}

  /** Pays for the upkeep of a sector. */
  method Maintain(budget: Budget, sectorType: int, etu: nat) returns (b: Budget)
    requires Shaped(budget)
    ensures b == Maintained(budget, sectorType, etu)
  {
    b := budget;
    if Maint(sectorType) > 0 {
      var cost := etu as real * Maint(sectorType) as real;
      b := Post(b, Bm(SECTOR_MAINT), 0, -cost);
    }
  }

  /** One sector in the production phase. */
  method ProduceSector(s: Sector, tech: real, edu: real, etu: nat, budget: Budget) returns (t: Sector, b: Budget)
    requires WellFormed(s) && Shaped(budget)
    ensures SectorOutcome(s, t, tech, edu, etu, budget, b)
  {
    var dtype := s.sectorType;
    t, b := s, budget;
    hide WellFormed, BookedFor, Shaped, ProduceOutcome, Post, BuildEff, Enlist, Sound, ProdEff, ProductOf, PrdOf,
      Maintained;
    b := Maintain(b, dtype, etu);
    if s.off || b.money < 0.0 {
      t := t.(avail := 0);
      assert SectorOutcome(s, t, tech, edu, etu, budget, b);
      return;
    }
    if t.effic < 100 || t.sectorType != t.newType {
      BuildEffKeeps(t);
      var built, cost := BuildEff(t).0, BuildEff(t).1;
      t := built;
      b := Post(b, Bm(SECTOR_BUILD), 0, -cost);
    }
    if dtype == ENLIST && t.effic >= 60 && t.oldOwn == t.own {
      EnlistKeeps(t, b, etu);
      var more := Enlist(t, b, etu);
      t, b := more.0, more.1;
    }
    if t.effic >= 60 && PrdOf(dtype) != -1 {
      EveryTypeIsListed(dtype);
      ProductsAreSound(PrdOf(dtype));
      var p := ProductOf(PrdOf(dtype)).value;
      var pe := ProdEff(p, LevelFor(p, tech, edu), PeffOf(dtype));
      t, b := Produce(t, p, pe, b);
    }
  }

  /** Every sector keeps its place, owner and orders, and changes type only when torn down. */
  ghost predicate SamePosts(s: seq<Sector>, t: seq<Sector>) {
    |s| == |t| && forall i :: 0 <= i < |s| ==> SamePost(s[i], t[i]) && Redesignated(s[i], t[i])
  }

  lemma {:induction false} SamePostSelf(s: Sector)
    ensures SamePost(s, s) && Redesignated(s, s)
  {}

  lemma {:induction false} OwnerIsNation(s: Sector, t: Sector)
    requires WellFormed(s) && SamePost(s, t)
    ensures t.own == s.own && 0 <= s.own <= MAX_NATIONS
  {}

  predicate Producing(s: Sector) {
    s.own != 0 && !IsWater(s.sectorType) && !IsSanct(s.sectorType)
  }

  /** What sector i came to, with all accounts before and after it. */
  ghost predicate StepOutcome(s: Sector, t: Sector, tech: seq<real>, edu: seq<real>, etu: nat, bs: seq<Budget>,
                              bs': seq<Budget>)
    requires WellFormed(s) && AllShaped(bs) && |tech| == |edu| == MAX_NATIONS + 1
  {
    if Producing(s) then
      |bs'| == |bs| && bs' == bs[s.own := bs'[s.own]]
      && SectorOutcome(s, t, tech[s.own], edu[s.own], etu, bs[s.own], bs'[s.own])
    else t == s && bs' == bs
  }

  /** accounts lists all accounts before, between and after the sectors. */
  ghost predicate ProductionRun(s: seq<Sector>, t: seq<Sector>, tech: seq<real>, edu: seq<real>, etu: nat,
                                accounts: seq<seq<Budget>>)
    requires AllWellFormed(s) && |tech| == |edu| == MAX_NATIONS + 1
  {
    |s| == |t| && |accounts| == |s| + 1
    && forall i :: 0 <= i < |s| ==>
         AllShaped(accounts[i]) && StepOutcome(s[i], t[i], tech, edu, etu, accounts[i], accounts[i + 1])
  }

  lemma {:induction false} StepKeeps(s: seq<Sector>, i: int, t: Sector, tech: seq<real>, edu: seq<real>, etu: nat,
                                     bs: seq<Budget>, bs': seq<Budget>)
    requires 0 <= i < |s| && WellFormed(s[i]) && AllShaped(bs) && |tech| == |edu| == MAX_NATIONS + 1
    requires StepOutcome(s[i], t, tech, edu, etu, bs, bs')
    ensures WellFormed(t) && SamePost(s[i], t) && Redesignated(s[i], t) && AllShaped(bs')
    ensures MissesRecruits(s, s[i := t], bs, bs')
  {
    hide Unrecorded, Held, SectorOutcome, SamePost, Shaped, Redesignated, Stocked, Ordered;
    SamePostSelf(s[i]);
    if Producing(s[i]) {
      var own := s[i].own;
      OutcomeKeeps(s[i], t, tech[own], edu[own], etu, bs[own], bs'[own]);
      OwnerIsNation(s[i], t);
      BookedIsStep(s, i, t, bs, bs'[own]);
    } else {
      assert s[i := t] == s;
    }
  }

  lemma {:induction false} PostsStep(s: seq<Sector>, mid: seq<Sector>, i: int, t: Sector)
    requires SamePosts(s, mid) && AllWellFormed(mid) && 0 <= i < |s|
    requires WellFormed(t) && SamePost(s[i], t) && Redesignated(s[i], t)
    ensures SamePosts(s, mid[i := t]) && AllWellFormed(mid[i := t])
  {
    hide WellFormed, SamePost, Redesignated;
  }

  /** The production phase keeps every sector well-formed, in its place and under its owner; each nation's
      balance misses exactly the pay of its recruits. */
  lemma {:induction false} ProductionKeeps(s: seq<Sector>, t: seq<Sector>, tech: seq<real>, edu: seq<real>, etu: nat,
                                           accounts: seq<seq<Budget>>, n: nat)
    requires AllWellFormed(s) && |tech| == |edu| == MAX_NATIONS + 1
    requires ProductionRun(s, t, tech, edu, etu, accounts) && n <= |s| && AllShaped(accounts[0])
    ensures AllWellFormed(Sofar(s, t, n)) && SamePosts(s, Sofar(s, t, n)) && AllShaped(accounts[n])
    ensures MissesRecruits(s, Sofar(s, t, n), accounts[0], accounts[n])
  {
    hide Unrecorded, Held, WellFormed, SamePost, Redesignated, Shaped, StepOutcome, Sofar, MissesRecruits;
    SofarIs(s, t, n);
    if n == 0 {
      NothingMissed(s, accounts[0]);
      forall i | 0 <= i < |s|
        ensures SamePost(s[i], s[i]) && Redesignated(s[i], s[i])
      {
        SamePostSelf(s[i]);
      }
    } else {
      var mid, i := Sofar(s, t, n - 1), n - 1;
      ProductionKeeps(s, t, tech, edu, etu, accounts, i);
      assert WellFormed(s[i]) && StepOutcome(s[i], t[i], tech, edu, etu, accounts[i], accounts[i + 1]);
      StepKeeps(mid, i, t[i], tech, edu, etu, accounts[i], accounts[n]);
      MissesRecruitsChain(s, mid, mid[i := t[i]], accounts[0], accounts[i], accounts[n]);
      PostsStep(s, mid, i, t[i]);
    }
  }

  /** The production phase. */
  method ProduceSects(sectors: array<Sector>, budgets: array<Budget>, tech: seq<real>, edu: seq<real>, etu: nat)
    returns (ghost accounts: seq<seq<Budget>>)
    requires AllWellFormed(sectors[..]) && AllShaped(budgets[..])
    requires |tech| == |edu| == MAX_NATIONS + 1
    modifies sectors, budgets
    ensures ProductionRun(old(sectors[..]), sectors[..], tech, edu, etu, accounts)
    ensures accounts[0] == old(budgets[..]) && accounts[sectors.Length] == budgets[..]
  {
    hide WellFormed, Shaped, SectorOutcome, IsWater, IsSanct;
    ghost var s0 := sectors[..];
    accounts := [budgets[..]];
    for i := 0 to sectors.Length
      invariant AllShaped(budgets[..]) && |accounts| == i + 1
      invariant accounts[0] == old(budgets[..]) && accounts[i] == budgets[..]
      invariant forall k :: 0 <= k < i ==>
                  AllShaped(accounts[k]) && StepOutcome(s0[k], sectors[k], tech, edu, etu, accounts[k], accounts[k + 1])
      invariant forall k :: i <= k < sectors.Length ==> sectors[k] == s0[k]
    {
      var s := sectors[i];
      var own := s.own;
      ghost var b0 := budgets[..];
      assert WellFormed(s0[i]);
      if own != 0 && !IsWater(s.sectorType) && !IsSanct(s.sectorType) {
        OwnerIsNation(s, s);
        var t, b := ProduceSector(s, tech[own], edu[own], etu, budgets[own]);
        OutcomeIsShaped(s, t, tech[own], edu[own], etu, budgets[own], b);
        sectors[i] := t;
        budgets[own] := b;
        assert budgets[..] == b0[own := b];
      }
      accounts := accounts + [budgets[..]];
      assert StepOutcome(s0[i], sectors[i], tech, edu, etu, accounts[i], accounts[i + 1]);
    }
  }

  lemma {:induction false} OutcomeIsShaped(s: Sector, t: Sector, tech: real, edu: real, etu: nat, b: Budget, b': Budget)
    requires WellFormed(s) && Shaped(b) && SectorOutcome(s, t, tech, edu, etu, b, b')
    ensures Shaped(b')
  {
    hide SectorOutcome, WellFormed, SamePost, Redesignated, Shaped;
    OutcomeKeeps(s, t, tech, edu, etu, b, b');
  }
}
