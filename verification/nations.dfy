/** National levels: what a nation produces and learns in an update, and what it forgets. */
module Nations {
  import opened Game
  import opened Ledger
  import opened Products
  import opened Rounding

  const SANCT := 3
  const ACTIVE := 4
  const DEITY := 5

  datatype Nation = Nation(cnum: int, status: int, money: int, reserve: int,
                           tech: real, research: real, edu: real, happy: real)
  {
    /** Takes part in updates; the deity does, too. */
    predicate Active() {
      status >= ACTIVE
    }
  }

  /** Configured rates. ageRate is 0 if levels do not age. */
  datatype LevelRates = LevelRates(easyTech: real, techLogBase: real, hapAvg: real, eduAvg: real,
                                   hapCons: real, eduCons: real, ageRate: real)

  ghost predicate Steady(r: LevelRates) {
    r.easyTech >= 0.0 && r.hapAvg >= 0.0 && r.eduAvg >= 0.0 && r.hapCons >= 0.0 && r.eduCons >= 0.0
    && r.ageRate >= 0.0
  }

  ghost predicate IsNation(n: Nation) {
    0 <= n.cnum <= MAX_NATIONS && n.reserve >= 0 && n.tech >= 0.0 && n.research >= 0.0 && n.edu >= 0.0 && n.happy >= 0.0
  }

  /** Nothing negative was counted. */
  ghost predicate Counted(b: Budget) {
    Shaped(b) && b.oldOwnedCivs >= 0 && forall k :: 0 <= k < 4 ==> b.level[k] >= 0.0
  }

  // ---------------------------------------------------------------------------------------------
  // The limit on levels
  // ---------------------------------------------------------------------------------------------

  /** The logarithm of a number to a base; all results that need to know more of it say so. */
  type Log = (real, real) -> real

  function Easy(kind: int, r: LevelRates): real {
    if kind == TECH then r.easyTech else if kind == RESEARCH then 0.75 else 5.0
  }

  function LogBase(kind: int, r: LevelRates): real {
    if kind == TECH then r.techLogBase else if kind == RESEARCH then 2.0 else if kind == EDUCATION then 4.0 else 6.0
  }

  const MOST_ABOVE := 250.0

  /** A quotient cut to 0 and 250; dividing something positive by nothing gives more than that. */
  function Share(x: real, l: real): real {
    if l == 0.0 then MOST_ABOVE else Cut(x / l)
  }

  function Cut(x: real): real {
    if x > MOST_ABOVE then MOST_ABOVE else if x < 0.0 then 0.0 else x
  }

  /** What counts of an amount: what is above the easy part is divided by its logarithm for averages, and
      replaced by its logarithm for sums. */
  function LimitLevel(level: real, kind: int, r: LevelRates, log: Log, average: bool): real {
    if level <= Easy(kind, r) then level
    else
      var above, base := level - Easy(kind, r), LogBase(kind, r);
      Easy(kind, r) + if average then Share(above, log(base + above, base)) else Cut(log(above + 1.0, base))
  }

  /** Whatever the logarithm: the easy part counts in full, and at most 250 above it. */
  lemma {:induction false} LimitBounds(level: real, kind: int, r: LevelRates, log: Log, average: bool)
    ensures level <= Easy(kind, r) ==> LimitLevel(level, kind, r, log, average) == level
    ensures level > Easy(kind, r) ==>
              Easy(kind, r) <= LimitLevel(level, kind, r, log, average) <= Easy(kind, r) + MOST_ABOVE
  {}

  /** Nothing above the base has a logarithm below 1. */
  ghost predicate GrowsPastBase(log: Log, base: real) {
    forall x :: x >= base ==> log(x, base) >= 1.0
  }

  /** Limiting an average never raises it. */
  lemma {:induction false} AverageNeverRaised(level: real, kind: int, r: LevelRates, log: Log)
    requires GrowsPastBase(log, LogBase(kind, r))
    ensures LimitLevel(level, kind, r, log, true) <= level
  {
    if level > Easy(kind, r) {
      var above, base := level - Easy(kind, r), LogBase(kind, r);
      var l := log(base + above, base);
      assert l >= 1.0;
      QuotientSmaller(above, l);
    }
  }

  lemma {:induction false} QuotientSmaller(x: real, l: real)
    requires x >= 0.0 && l >= 1.0
    ensures 0.0 <= x / l <= x
  {
    var q := x / l;
    assert q * l == x;
    assert q < 0.0 ==> q * l < 0.0;
    assert q >= 0.0 ==> q * (l - 1.0) >= 0.0;
  }

  /** What is used of the logarithm to a base: it is 1 at the base, turns products into sums, and bends
      downward. */
  ghost predicate IsLog(log: Log, base: real) {
    log(base, base) == 1.0 && (forall x, y :: AddsUp(log, base, x, y)) && forall x, y, z :: Bends(log, base, x, y, z)
  }

  ghost predicate AddsUp(log: Log, base: real, x: real, y: real) {
    x > 0.0 && y > 0.0 ==> log(x * y, base) == log(x, base) + log(y, base)
  }

  /** Between two of its points, the logarithm lies above the line that joins them. */
  ghost predicate Bends(log: Log, base: real, x: real, y: real, z: real) {
    0.0 < x < y < z ==> (log(y, base) - log(x, base)) * (z - x) > (log(z, base) - log(x, base)) * (y - x)
  }

  /** The limit on sums is no limit just above the easy part: where the logarithm of one more than p is p itself,
      just what lies less than p above it counts for more. */
  lemma {:induction false} SumRaisedIff(level: real, kind: int, r: LevelRates, log: Log, p: real)
    requires IsLog(log, LogBase(kind, r)) && 0.0 < p <= MOST_ABOVE && log(p + 1.0, LogBase(kind, r)) == p
    ensures LimitLevel(level, kind, r, log, false) > level <==> Easy(kind, r) < level < Easy(kind, r) + p
  {
    hide Easy, LogBase;
    var base, above := LogBase(kind, r), level - Easy(kind, r);
    var l := log(above + 1.0, base);
    if 0.0 < above < p {
      FlatterAbove(log, base, above, p);
      SmallerFactor(p, above, l);
    } else if above > p {
      FlatterAbove(log, base, p, above);
      SmallerFactor(p, l, above);
    }
  }

  /** Above 1, the logarithm gets flatter and flatter. */
  lemma {:induction false} FlatterAbove(log: Log, base: real, x: real, z: real)
    requires IsLog(log, base) && 0.0 < x < z
    ensures z * log(x + 1.0, base) > x * log(z + 1.0, base)
  {
    assert AddsUp(log, base, 1.0, 1.0);
    assert Bends(log, base, 1.0, x + 1.0, z + 1.0);
    var a, b := log(x + 1.0, base), log(z + 1.0, base);
    assert log(1.0, base) == 0.0;
    assert (a - 0.0) * (z + 1.0 - 1.0) > (b - 0.0) * (x + 1.0 - 1.0);
  }

  lemma {:induction false} SmallerFactor(p: real, x: real, y: real)
    requires p > 0.0 && p * x < p * y
    ensures x < y
  {
    if y <= x {
      NotNegative(p, x - y);
    }
  }

  /** To base 2, the base of research, and of technology unless configured otherwise, that is a whole point. */
  lemma {:induction false} BaseTwoRaises(level: real, kind: int, r: LevelRates, log: Log)
    requires LogBase(kind, r) == 2.0 && IsLog(log, 2.0)
    ensures LimitLevel(level, kind, r, log, false) > level <==> Easy(kind, r) < level < Easy(kind, r) + 1.0
  {
    hide Easy, LogBase, LimitLevel;
    SumRaisedIff(level, kind, r, log, 1.0);
  }

  /** Nothing is raised where the logarithm is flat enough below 1, as it is, by one half, to bases from 4 on. */
  lemma {:induction false} SumNeverRaised(level: real, kind: int, r: LevelRates, log: Log, t: real)
    requires IsLog(log, LogBase(kind, r)) && 0.0 < t < 1.0 && -log(t, LogBase(kind, r)) <= 1.0 - t
    ensures LimitLevel(level, kind, r, log, false) <= level
  {
    hide Easy, LogBase;
    var base, x := LogBase(kind, r), level - Easy(kind, r);
    var l, f, d := log(x + 1.0, base), -log(t, base), 1.0 - t;
    assert AddsUp(log, base, 1.0, 1.0);
    if x > 0.0 {
      assert Bends(log, base, t, 1.0, x + 1.0);
      assert f * (x + d) > (l + f) * d;
      assert f * (x + d) == f * x + f * d && (l + f) * d == l * d + f * d;
      NotNegative(d - f, x);
      assert (d - f) * x == d * x - f * x;
      SmallerFactor(d, l, x);
    }
  }

  // ---------------------------------------------------------------------------------------------
  // Production of levels
  // ---------------------------------------------------------------------------------------------

  /** More educated people want more happiness. */
  function Demand(edu: real): real
    requires edu >= 0.0
  {
    1.5 - (edu + 10.0) / (edu + 20.0)
  }

  /** Happiness or education made in each time unit for each of the people. */
  function PerHead(made: real, factor: real, cons: real, people: int, etu: nat): real
    requires people >= 0 && etu >= 1
  {
    made * factor * cons / Heads(people, etu)
  }

  function Heads(people: int, etu: nat): (r: real)
    requires people >= 0 && etu >= 1
    ensures r > 0.0
  {
    TimesPositive((people + 1) as real, etu as real);
    (people + 1) as real * etu as real
  }

  lemma {:induction false} TimesPositive(a: real, b: real)
    requires a > 0.0 && b > 0.0
    ensures a * b > 0.0
  {}

  /** The moving average: the old level weighs w time units, what is new the time units of the update. */
  function Mean(was: real, made: real, w: real, etu: nat): real
    requires w >= 0.0 && etu >= 1
  {
    (was * w + made * etu as real) / (w + etu as real)
  }

  /** An average lies between what it averages. */
  lemma {:induction false} MeanBetween(x: real, y: real, w: real, etu: nat, low: real, high: real)
    requires w >= 0.0 && etu >= 1 && low <= x <= high && low <= y <= high
    ensures low <= Mean(x, y, w, etu) <= high
  {
    var e := etu as real;
    var m, n := Mean(x, y, w, etu), w + e;
    assert m * n == x * w + y * e;
    assert (x - low) * w >= 0.0 && (y - low) * e >= 0.0 && (high - x) * w >= 0.0 && (high - y) * e >= 0.0;
    assert (m - low) * n == (x - low) * w + (y - low) * e;
    assert (high - m) * n == (high - x) * w + (high - y) * e;
    assert m < low ==> (low - m) * n > 0.0;
    assert m > high ==> (m - high) * n > 0.0;
  }

  /** A nation after production: treasury and levels. */
  function WithLevels(n: Nation, b: Budget, etu: nat, r: LevelRates, log: Log): Nation
    requires IsNation(n) && Counted(b) && Steady(r) && etu >= 1
  {
    var happy := LimitLevel(PerHead(b.level[HAPPINESS], Demand(n.edu), r.hapCons, b.oldOwnedCivs, etu),
                            HAPPINESS, r, log, true);
    var edu := LimitLevel(PerHead(b.level[EDUCATION], 1.0, r.eduCons, b.oldOwnedCivs, etu), EDUCATION, r, log, true);
    n.(happy := Mean(n.happy, happy, r.hapAvg, etu), edu := Mean(n.edu, edu, r.eduAvg, etu),
       tech := n.tech + LimitLevel(b.level[TECH], TECH, r, log, false),
       research := n.research + LimitLevel(b.level[RESEARCH], RESEARCH, r, log, false),
       money := Nearest(b.money))
  }

  lemma {:induction false} DemandBounds(edu: real)
    requires edu >= 0.0
    ensures 0.5 < Demand(edu) <= 1.0
  {
    var q := (edu + 10.0) / (edu + 20.0);
    assert q * (edu + 20.0) == edu + 10.0;
    if q >= 1.0 {
      NotNegative(q - 1.0, edu + 20.0);
    } else if q < 0.5 {
      TimesPositive(0.5 - q, edu + 20.0);
    }
  }

  lemma {:induction false} PerHeadPositive(made: real, factor: real, cons: real, people: int, etu: nat)
    requires made >= 0.0 && factor >= 0.0 && cons >= 0.0 && people >= 0 && etu >= 1
    ensures PerHead(made, factor, cons, people, etu) >= 0.0
  {
    hide Heads;
    NotNegative(made, factor);
    NotNegative(made * factor, cons);
    NotNegativePart(made * factor * cons, Heads(people, etu));
  }

  lemma {:induction false} NotNegative(a: real, b: real)
    requires a >= 0.0 && b >= 0.0
    ensures a * b >= 0.0
  {}

  lemma {:induction false} NotNegativePart(a: real, b: real)
    requires a >= 0.0 && b > 0.0
    ensures a / b >= 0.0
  {
    assert a / b * b == a;
  }

  /** The greater of two amounts. */
  function Greater(a: real, b: real): real {
    if a < b then b else a
  }

  /** Technology and research never shrink, and gain at most 250 beyond the easy part; happiness and
      education do not pass the greater of what they were and 255. */
  lemma {:induction false} WithLevelsKeeps(n: Nation, b: Budget, etu: nat, r: LevelRates, log: Log)
    requires IsNation(n) && Counted(b) && Steady(r) && etu >= 1
    ensures var m := WithLevels(n, b, etu, r, log);
            IsNation(m) && m.cnum == n.cnum && m.status == n.status && m.reserve == n.reserve
            && n.tech <= m.tech <= n.tech + r.easyTech + MOST_ABOVE
            && n.research <= m.research <= n.research + 0.75 + MOST_ABOVE
            && m.happy <= Greater(n.happy, 5.0 + MOST_ABOVE) && m.edu <= Greater(n.edu, 5.0 + MOST_ABOVE)
  {
    DemandBounds(n.edu);
    var happy := PerHead(b.level[HAPPINESS], Demand(n.edu), r.hapCons, b.oldOwnedCivs, etu);
    var edu := PerHead(b.level[EDUCATION], 1.0, r.eduCons, b.oldOwnedCivs, etu);
    PerHeadPositive(b.level[HAPPINESS], Demand(n.edu), r.hapCons, b.oldOwnedCivs, etu);
    PerHeadPositive(b.level[EDUCATION], 1.0, r.eduCons, b.oldOwnedCivs, etu);
    LimitBounds(happy, HAPPINESS, r, log, true);
    LimitBounds(edu, EDUCATION, r, log, true);
    LimitBounds(b.level[TECH], TECH, r, log, false);
    LimitBounds(b.level[RESEARCH], RESEARCH, r, log, false);
    hide LimitLevel, PerHead, Mean, Demand, Nearest;
    MeanBetween(n.happy, LimitLevel(happy, HAPPINESS, r, log, true), r.hapAvg, etu, 0.0, Greater(n.happy, 255.0));
    MeanBetween(n.edu, LimitLevel(edu, EDUCATION, r, log, true), r.eduAvg, etu, 0.0, Greater(n.edu, 255.0));
  }

  /** Writes treasuries and levels of all nations that take part. */
  method ProdNat(nations: array<Nation>, budgets: array<Budget>, etu: nat, r: LevelRates, log: Log)
    requires budgets.Length == MAX_NATIONS + 1 && Steady(r) && etu >= 1
    requires forall i :: 0 <= i < nations.Length ==> IsNation(nations[i])
    requires forall n :: 0 <= n < budgets.Length ==> Counted(budgets[n])
    modifies nations
    ensures forall i :: 0 <= i < nations.Length ==>
              nations[i] == Levelled(old(nations[i]), budgets[..], etu, r, log)
  {
    hide WithLevels, Counted, Steady;
    for i := 0 to nations.Length
      invariant forall k :: 0 <= k < i ==> nations[k] == Levelled(old(nations[k]), budgets[..], etu, r, log)
      invariant forall k :: i <= k < nations.Length ==> nations[k] == old(nations[k])
    {
      var n := nations[i];
      if n.Active() {
        nations[i] := WithLevels(n, budgets[n.cnum], etu, r, log);
      }
    }
  }

  /** A nation after production, whether or not it takes part. */
  function Levelled(n: Nation, bs: seq<Budget>, etu: nat, r: LevelRates, log: Log): Nation
    requires IsNation(n) && |bs| == MAX_NATIONS + 1 && Counted(bs[n.cnum]) && Steady(r) && etu >= 1
  {
    if n.Active() then WithLevels(n, bs[n.cnum], etu, r, log) else n
  }

  // ---------------------------------------------------------------------------------------------
  // Ageing
  // ---------------------------------------------------------------------------------------------

  /** What is left of a level after an update. */
  function Decayed(level: real, etu: nat, ageRate: real): real {
    if ageRate == 0.0 then level else level - level * etu as real / (100.0 * ageRate)
  }

  /** A level decays to something from 0 to what it was, exactly as long as an update has no more time units
      than it takes to forget all. */
  lemma {:induction false} DecayedIff(level: real, etu: nat, ageRate: real)
    requires level > 0.0 && ageRate > 0.0
    ensures Decayed(level, etu, ageRate) <= level
    ensures Decayed(level, etu, ageRate) >= 0.0 <==> etu as real <= 100.0 * ageRate
  {
    var e, a := etu as real, 100.0 * ageRate;
    var q := level * e / a;
    assert q * a == level * e;
    NotNegative(level, e);
    NotNegativePart(level * e, a);
    assert level * (a - e) == level * a - level * e && (level - q) * a == level * a - q * a;
    assert (q - level) * a == q * a - level * a;
    if e <= a {
      NotNegative(level, a - e);
      if q > level {
        TimesPositive(q - level, a);
      }
    } else {
      TimesPositive(level, e - a);
      assert level * (e - a) == level * e - level * a;
      if q <= level {
        NotNegative(level - q, a);
      }
    }
  }

  /** How the dice fall for a nation: its reserve after rounding, and which levels may catch up. */
  datatype Luck = Luck(reserve: int, tech: bool, research: bool)

  ghost predicate CanFall(n: Nation, etu: nat, l: Luck) {
    RoundsTo(ReserveLeft(n.reserve, etu), l.reserve)
  }

  function ReserveLeft(reserve: int, etu: nat): real {
    reserve as real * (1.0 - etu as real / 2400.0)
  }

  /** Only active nations age; the deity does not. */
  function Forgetful(n: Nation, etu: nat, ageRate: real, reserve: int): Nation {
    if n.status != ACTIVE then n
    else
      n.(tech := Decayed(n.tech, etu, ageRate), research := Decayed(n.research, etu, ageRate), reserve := reserve)
  }

  /** A level far below the best may go up by a third of what it lacks. */
  function CaughtUp(level: real, floor: real, lucky: bool): real {
    if level < floor && lucky then level + (floor - level) / 3.0 else level
  }

  function Pulled(n: Nation, bestTech: real, bestResearch: real, l: Luck): Nation {
    if n.status < SANCT || n.status == DEITY then n
    else
      n.(tech := CaughtUp(n.tech, bestTech / 5.0, l.tech),
         research := CaughtUp(n.research, bestResearch / 5.0, l.research))
  }

  /** A nation after it has aged among others with the given best levels. */
  function Aged(n: Nation, etu: nat, ageRate: real, bestTech: real, bestResearch: real, l: Luck): Nation {
    Pulled(Forgetful(n, etu, ageRate, l.reserve), bestTech, bestResearch, l)
  }

  /** The best of a level among the active of the first n nations, before they age. */
  function Best(ns: seq<Nation>, level: Nation -> real, n: nat): (r: real)
    requires n <= |ns|
    ensures r >= 0.0
    ensures forall i :: 0 <= i < n && ns[i].status == ACTIVE ==> level(ns[i]) <= r
  {
    if n == 0 then 0.0
    else
      var prev := Best(ns, level, n - 1);
      if ns[n - 1].status == ACTIVE && level(ns[n - 1]) > prev then level(ns[n - 1]) else prev
  }

  function TechOf(n: Nation): real {
    n.tech
  }

  function ResearchOf(n: Nation): real {
    n.research
  }

  /** Ageing never lifts a level above what it was or a fifth of the best, and a reserve only shrinks. */
  lemma {:induction false} AgedKeeps(n: Nation, etu: nat, ageRate: real, bestTech: real, bestResearch: real, l: Luck)
    requires IsNation(n) && ageRate >= 0.0 && (ageRate == 0.0 || etu as real <= 100.0 * ageRate)
    requires etu <= 2400 && CanFall(n, etu, l)
    ensures var m := Aged(n, etu, ageRate, bestTech, bestResearch, l);
            IsNation(m) && m == n.(tech := m.tech, research := m.research, reserve := m.reserve)
            && m.tech <= Greater(n.tech, bestTech / 5.0) && m.research <= Greater(n.research, bestResearch / 5.0)
            && 0 <= m.reserve <= n.reserve
  {
    DecayedWithin(n.tech, etu, ageRate);
    DecayedWithin(n.research, etu, ageRate);
    var part := 1.0 - etu as real / 2400.0;
    NotNegative(n.reserve as real, part);
    NotNegative(n.reserve as real, 1.0 - part);
    RoundsWithin(ReserveLeft(n.reserve, etu), 0, n.reserve, l.reserve);
    hide Decayed, RoundsTo;
  }

  lemma {:induction false} DecayedWithin(level: real, etu: nat, ageRate: real)
    requires level >= 0.0 && ageRate >= 0.0 && (ageRate == 0.0 || etu as real <= 100.0 * ageRate)
    ensures 0.0 <= Decayed(level, etu, ageRate) <= level
  {
    if level > 0.0 && ageRate > 0.0 {
      DecayedIff(level, etu, ageRate);
    }
  }

  /** Catching up makes no new best: afterwards no active nation has more than the best had. */
  lemma {:induction false} BestNeverRises(ns: seq<Nation>, i: int, etu: nat, ageRate: real, l: Luck)
    requires 0 <= i < |ns| && IsNation(ns[i]) && ns[i].status == ACTIVE && etu <= 2400
    requires ageRate >= 0.0 && (ageRate == 0.0 || etu as real <= 100.0 * ageRate) && CanFall(ns[i], etu, l)
    ensures var m := Aged(ns[i], etu, ageRate, Best(ns, TechOf, |ns|), Best(ns, ResearchOf, |ns|), l);
            m.tech <= Best(ns, TechOf, |ns|) && m.research <= Best(ns, ResearchOf, |ns|)
  {
    AgedKeeps(ns[i], etu, ageRate, Best(ns, TechOf, |ns|), Best(ns, ResearchOf, |ns|), l);
    assert TechOf(ns[i]) <= Best(ns, TechOf, |ns|) && ResearchOf(ns[i]) <= Best(ns, ResearchOf, |ns|);
    hide Aged, Best;
  }

  /** Ages the levels and reserves of all nations, and pulls weak ones toward the best. */
  method AgeLevels(nations: array<Nation>, etu: nat, ageRate: real) returns (ghost lucks: seq<Luck>)
    modifies nations
    ensures |lucks| == nations.Length
    ensures forall i :: 0 <= i < nations.Length ==>
              CanFall(old(nations[i]), etu, lucks[i])
              && nations[i] == Aged(old(nations[i]), etu, ageRate, Best(old(nations[..]), TechOf, nations.Length),
                                    Best(old(nations[..]), ResearchOf, nations.Length), lucks[i])
  {
    hide Forgetful, RoundsTo, ReserveLeft, Pulled;
    ghost var ns := nations[..];
    ghost var reserves: seq<int> := [];
    var bestTech, bestResearch := 0.0, 0.0;
    for i := 0 to nations.Length
      invariant bestTech == Best(ns, TechOf, i) && bestResearch == Best(ns, ResearchOf, i) && |reserves| == i
      invariant forall k :: 0 <= k < i ==> RoundsTo(ReserveLeft(ns[k].reserve, etu), reserves[k])
      invariant forall k :: 0 <= k < i ==> nations[k] == Forgetful(ns[k], etu, ageRate, reserves[k])
      invariant forall k :: i <= k < nations.Length ==> nations[k] == ns[k]
    {
      var n := nations[i];
      if n.status == ACTIVE {
        if n.tech > bestTech {
          bestTech := n.tech;
        }
        if n.research > bestResearch {
          bestResearch := n.research;
        }
      }
      var reserve;
      nations[i], reserve := AgeOne(n, etu, ageRate);
      reserves := reserves + [reserve];
    }
    lucks := PullUp(nations, bestTech, bestResearch, reserves);
  }

  method AgeOne(n: Nation, etu: nat, ageRate: real) returns (m: Nation, reserve: int)
    ensures RoundsTo(ReserveLeft(n.reserve, etu), reserve) && m == Forgetful(n, etu, ageRate, reserve)
  {
    hide RoundsTo, ReserveLeft;
    m := n;
    reserve := RoundAvg(ReserveLeft(n.reserve, etu));
    if n.status == ACTIVE {
      if ageRate != 0.0 {
        m := m.(tech := Decayed(n.tech, etu, ageRate), research := Decayed(n.research, etu, ageRate));
      }
      m := m.(reserve := reserve);
    }
  }

  /** Pulls weak nations toward the best; reserves are only passed on. */
  method PullUp(nations: array<Nation>, bestTech: real, bestResearch: real, ghost reserves: seq<int>)
    returns (ghost lucks: seq<Luck>)
    requires |reserves| == nations.Length
    modifies nations
    ensures |lucks| == nations.Length && forall i :: 0 <= i < nations.Length ==> lucks[i].reserve == reserves[i]
    ensures forall i :: 0 <= i < nations.Length ==>
              nations[i] == Pulled(old(nations[i]), bestTech, bestResearch, lucks[i])
  {
    hide Pulled, CaughtUp;
    ghost var ns := nations[..];
    lucks := [];
    for i := 0 to nations.Length
      invariant |lucks| == i && forall k :: 0 <= k < i ==> lucks[k].reserve == reserves[k]
      invariant forall k :: 0 <= k < i ==> nations[k] == Pulled(ns[k], bestTech, bestResearch, lucks[k])
      invariant forall k :: i <= k < nations.Length ==> nations[k] == ns[k]
    {
      ghost var l;
      nations[i], l := PullOne(nations[i], bestTech, bestResearch, reserves[i]);
      lucks := lucks + [l];
    }
  }

  method PullOne(n: Nation, bestTech: real, bestResearch: real, ghost reserve: int) returns (m: Nation, ghost l: Luck)
    ensures m == Pulled(n, bestTech, bestResearch, l) && l.reserve == reserve
  {
    var lucky, wise: bool := *, *;
    m, l := n, Luck(reserve, lucky, wise);
    if n.status >= SANCT && n.status != DEITY {
      m := n.(tech := CaughtUp(n.tech, bestTech / 5.0, lucky),
              research := CaughtUp(n.research, bestResearch / 5.0, wise));
    }
  }
}
