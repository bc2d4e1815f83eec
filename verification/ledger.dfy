/** The account each nation keeps during an update: a running balance, and lines that explain it. */
module Ledger {
  import opened Basics
  import opened Game

  datatype Line = Line(count: int, money: real)

  datatype Budget = Budget(
    startMoney: real, money: real, oldOwnedCivs: int, level: seq<real>,
    civ: Line, mil: Line, uw: Line, bars: Line, bm: seq<Line>, prod: seq<Line>)

  const SHIP_BUILD := 0
  const PLANE_BUILD := 2
  const UNIT_BUILD := 4
  const SECTOR_BUILD := 6
  const SECTOR_MAINT := 7
  const BM_COUNT := 8

  ghost predicate Shaped(b: Budget) {
    |b.level| == 4 && |b.bm| == BM_COUNT && |b.prod| == SECTOR_TYPES
  }

  /** A fresh account with nothing booked yet. */
  function Opened(money: real): (b: Budget)
    ensures Shaped(b)
  {
    var none := Line(0, 0.0);
    Budget(money, money, 0, [0.0, 0.0, 0.0, 0.0], none, none, none, none,
           seq(BM_COUNT, _ => none), seq(SECTOR_TYPES, _ => none))
  }

  /** Where an amount is booked. */
  datatype Account = Civ | Mil | Uw | Bars | Bm(activity: int) | Prod(sectorType: int)

  predicate IsAccount(a: Account) {
    match a
    case Bm(i) => 0 <= i < BM_COUNT
    case Prod(t) => 0 <= t < SECTOR_TYPES
    case _ => true
  }

  function Add(l: Line, count: int, money: real): Line {
    Line(l.count + count, l.money + money)
  }

  /** Books an amount on a line and in the balance. */
  function Post(b: Budget, a: Account, count: int, money: real): (r: Budget)
    requires Shaped(b) && IsAccount(a)
    ensures Shaped(r)
  {
    var c := b.(money := b.money + money);
    match a
    case Civ => c.(civ := Add(b.civ, count, money))
    case Mil => c.(mil := Add(b.mil, count, money))
    case Uw => c.(uw := Add(b.uw, count, money))
    case Bars => c.(bars := Add(b.bars, count, money))
    case Bm(i) => c.(bm := b.bm[i := Add(b.bm[i], count, money)])
    case Prod(t) => c.(prod := b.prod[t := Add(b.prod[t], count, money)])
  }

  /** Changes the balance without booking it anywhere. */
  function Charge(b: Budget, money: real): Budget {
    b.(money := b.money - money)
  }

  ghost function SumMoney(lines: seq<Line>): real {
    if lines == [] then 0.0 else SumMoney(lines[..|lines| - 1]) + lines[|lines| - 1].money
  }

  /** All that is booked on lines. */
  ghost function Recorded(b: Budget): real {
    b.civ.money + b.mil.money + b.uw.money + b.bars.money + SumMoney(b.bm) + SumMoney(b.prod)
  }

  /** By how much the lines add up to more than the balance has changed. */
  ghost function Unrecorded(b: Budget): real {
    Recorded(b) - (b.money - b.startMoney)
  }

  lemma {:induction false} SumMoneyUpdate(lines: seq<Line>, i: int, l: Line)
    requires 0 <= i < |lines|
    ensures SumMoney(lines[i := l]) == SumMoney(lines) - lines[i].money + l.money
  {
    var n := |lines| - 1;
    if i == n {
      assert lines[i := l][..n] == lines[..n];
    } else {
      assert lines[i := l][..n] == lines[..n][i := l];
      SumMoneyUpdate(lines[..n], i, l);
    }
  }

  lemma {:induction false} SumMoneyOfNone(lines: seq<Line>)
    requires forall i :: 0 <= i < |lines| ==> lines[i].money == 0.0
    ensures SumMoney(lines) == 0.0
  {
    if lines != [] {
      SumMoneyOfNone(lines[..|lines| - 1]);
    }
  }

  lemma {:induction false} OpenedBalances(money: real)
    ensures Unrecorded(Opened(money)) == 0.0
  {
    SumMoneyOfNone(Opened(money).bm);
    SumMoneyOfNone(Opened(money).prod);
  }

  /** What is booked explains the change of the balance. */
  lemma {:induction false} PostBalances(b: Budget, a: Account, count: int, money: real)
    requires Shaped(b) && IsAccount(a)
    ensures Unrecorded(Post(b, a, count, money)) == Unrecorded(b)
    ensures Continues(b, Post(b, a, count, money))
  {
    match a
    case Bm(i) => SumMoneyUpdate(b.bm, i, Add(b.bm[i], count, money));
    case Prod(t) => SumMoneyUpdate(b.prod, t, Add(b.prod[t], count, money));
    case _ =>
  }

  lemma {:induction false} ChargeUnbalances(b: Budget, money: real)
    ensures Unrecorded(Charge(b, money)) == Unrecorded(b) + money
  {}

  // ---------------------------------------------------------------------------------------------
  // All nations
  // ---------------------------------------------------------------------------------------------

  const PAY_PER_RECRUIT := 3.0

  /** The soldiers a nation has in its sectors. */
  ghost function Soldiers(s: seq<Sector>, n: int): int {
    Held(s, Some(n), MILIT)
  }

  /** Of what is counted during an update, nothing is taken back. */
  ghost predicate Continues(b: Budget, b': Budget) {
    b'.startMoney == b.startMoney && b'.oldOwnedCivs >= b.oldOwnedCivs && |b'.level| == |b.level|
    && forall k :: 0 <= k < |b.level| ==> b'.level[k] >= b.level[k]
  }

  ghost predicate AllShaped(bs: seq<Budget>) {
    |bs| == MAX_NATIONS + 1 && forall n :: 0 <= n < |bs| ==> Shaped(bs[n])
  }

  /** Each nation's balance misses exactly the pay of its new soldiers. */
  ghost predicate MissesRecruits(s: seq<Sector>, s': seq<Sector>, bs: seq<Budget>, bs': seq<Budget>) {
    |bs| == |bs'|
    && forall n :: 0 <= n < |bs| ==>
         Continues(bs[n], bs'[n])
         && Unrecorded(bs'[n]) - Unrecorded(bs[n]) == PAY_PER_RECRUIT * (Soldiers(s', n) - Soldiers(s, n)) as real
  }

  lemma {:induction false} MissesRecruitsChain(s: seq<Sector>, s': seq<Sector>, s'': seq<Sector>, bs: seq<Budget>,
                                               bs': seq<Budget>, bs'': seq<Budget>)
    requires MissesRecruits(s, s', bs, bs') && MissesRecruits(s', s'', bs', bs'')
    ensures MissesRecruits(s, s'', bs, bs'')
  {
    hide Unrecorded, Held;
    forall n | 0 <= n < |bs|
      ensures Continues(bs[n], bs''[n])
      ensures Unrecorded(bs''[n]) - Unrecorded(bs[n]) == PAY_PER_RECRUIT * (Soldiers(s'', n) - Soldiers(s, n)) as real
    {
      assert Continues(bs[n], bs'[n]) && Continues(bs'[n], bs''[n]);
    }
  }

  /** The account misses just the pay of the soldiers that were recruited. */
  ghost predicate BookedFor(s: Sector, t: Sector, b: Budget, b': Budget) {
    |s.items| == |t.items| == ITEMS && Shaped(b) && Shaped(b') && Continues(b, b')
    && Unrecorded(b') - Unrecorded(b) == PAY_PER_RECRUIT * (t.items[MILIT] - s.items[MILIT]) as real
  }

  lemma {:induction false} BookedChain(s: Sector, t: Sector, u: Sector, b: Budget, b': Budget, b'': Budget)
    requires BookedFor(s, t, b, b') && BookedFor(t, u, b', b'')
    ensures BookedFor(s, u, b, b'')
  {
    hide Unrecorded, Shaped;
  }

  /** A booking that leaves the soldiers alone. */
  lemma {:induction false} BookedByPost(s: Sector, t: Sector, b: Budget, a: Account, count: int, money: real)
    requires |s.items| == |t.items| == ITEMS && t.items[MILIT] == s.items[MILIT] && Shaped(b) && IsAccount(a)
    ensures BookedFor(s, t, b, Post(b, a, count, money))
  {
    PostBalances(b, a, count, money);
  }

  lemma {:induction false} BookedByNothing(s: Sector, t: Sector, b: Budget)
    requires |s.items| == |t.items| == ITEMS && t.items[MILIT] == s.items[MILIT] && Shaped(b)
    ensures BookedFor(s, t, b, b)
  {}

  ghost predicate AllWellFormed(s: seq<Sector>) {
    forall i :: 0 <= i < |s| ==> WellFormed(s[i])
  }

  lemma {:induction false} WellFormedType(s: Sector)
    requires WellFormed(s)
    ensures 0 <= s.sectorType < SECTOR_TYPES && |s.items| == ITEMS && 0 <= s.own <= MAX_NATIONS
  {}

  /** The first n sectors as they are after the phase, the others as before. */
  ghost function Sofar(s: seq<Sector>, t: seq<Sector>, n: nat): (r: seq<Sector>)
    requires |s| == |t| && n <= |s|
    ensures |r| == |s|
  {
    t[..n] + s[n..]
  }

  lemma {:induction false} SofarIs(s: seq<Sector>, t: seq<Sector>, n: nat)
    requires |s| == |t| && n <= |s|
    ensures n == 0 ==> Sofar(s, t, n) == s
    ensures n == |s| ==> Sofar(s, t, n) == t
    ensures n > 0 ==> Sofar(s, t, n - 1)[n - 1] == s[n - 1] && Sofar(s, t, n) == Sofar(s, t, n - 1)[n - 1 := t[n - 1]]
  {}

  /** One sector and its owner's account change together; a sector is only given up without soldiers. */
  lemma {:induction false} BookedIsStep(s: seq<Sector>, i: int, t: Sector, bs: seq<Budget>, b: Budget)
    requires 0 <= i < |s| && 0 <= s[i].own < |bs| && BookedFor(s[i], t, bs[s[i].own], b)
    requires t.own == s[i].own || t.items[MILIT] == s[i].items[MILIT] == 0
    ensures MissesRecruits(s, s[i := t], bs, bs[s[i].own := b])
  {
    hide Unrecorded, Held;
    forall n | 0 <= n < |bs|
      ensures Soldiers(s[i := t], n) - Soldiers(s, n) == if n == s[i].own then t.items[MILIT] - s[i].items[MILIT] else 0
    {
      HeldUpdate(s, i, t, Some(n), MILIT);
    }
  }

  lemma {:induction false} NothingMissed(s: seq<Sector>, bs: seq<Budget>)
    ensures MissesRecruits(s, s, bs, bs)
  {}

  // ---------------------------------------------------------------------------------------------
  // The budget report
  // ---------------------------------------------------------------------------------------------

  /** The treasury the budget command forecasts: the balance brought forward, plus the income and less the
      expenses it lists; lines that are zero are not listed. */
  method EstimateTreasury(b: Budget, balance: real) returns (treasury: real)
    requires Shaped(b)
    ensures treasury == balance + Recorded(b)
  {
    var expenses, income := 0.0, 0.0;
    for i := 0 to |b.prod|
      invariant expenses == -SumMoney(b.prod[..i])
    {
      assert b.prod[..i + 1][..i] == b.prod[..i];
      if b.prod[i].money != 0.0 {
        expenses := expenses - b.prod[i].money;
      }
    }
    assert b.prod[..|b.prod|] == b.prod;
    for i := 0 to |b.bm|
      invariant expenses == -SumMoney(b.prod) - SumMoney(b.bm[..i])
    {
      assert b.bm[..i + 1][..i] == b.bm[..i];
      if b.bm[i].money != 0.0 {
        expenses := expenses - b.bm[i].money;
      }
    }
    assert b.bm[..|b.bm|] == b.bm;
    if b.mil.money != 0.0 {
      expenses := expenses - b.mil.money;
    }
    var taxes := b.civ.money + b.uw.money;
    if taxes != 0.0 {
      income := income + taxes;
    }
    if b.bars.money != 0.0 {
      income := income + b.bars.money;
    }
    treasury := balance + (income - expenses);
  }
}
