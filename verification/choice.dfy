/** Choosing one of several things at random, in one pass: each is weighed as it comes along and replaces
    the choice so far if a roll, among all the weight seen, falls below its own weight. */
module Choice {
  import opened Basics
  import opened Hex
  import opened Grid

  /** Something weighed: how much it adds to the total, what a roll must stay below, and the roll. */
  datatype Pick<T> = Pick(what: T, adds: int, weight: int, roll: int)

  ghost function Total<T>(picks: seq<Pick<T>>): int {
    if picks == [] then 0 else Total(picks[..|picks| - 1]) + picks[|picks| - 1].adds
  }

  /** The last thing whose roll fell below its weight. */
  ghost function Chosen<T>(picks: seq<Pick<T>>): Option<T> {
    if picks == [] then None
    else
      var last := picks[|picks| - 1];
      if last.roll < last.weight then Some(last.what) else Chosen(picks[..|picks| - 1])
  }

  /** Every roll was among the weight seen by then. */
  ghost predicate Fair<T>(picks: seq<Pick<T>>) {
    forall k :: 0 <= k < |picks| ==>
      0 < picks[k].adds <= picks[k].weight && 0 <= picks[k].roll < Total(picks[..k + 1])
  }

  lemma {:induction false} OneMore<T>(picks: seq<Pick<T>>, p: Pick<T>)
    requires Fair(picks) && 0 < p.adds <= p.weight && 0 <= p.roll < Total(picks) + p.adds
    ensures Fair(picks + [p]) && Total(picks + [p]) == Total(picks) + p.adds
    ensures Chosen(picks + [p]) == if p.roll < p.weight then Some(p.what) else Chosen(picks)
  {
    var more := picks + [p];
    assert more[..|picks|] == picks;
    forall k | 0 <= k < |more|
      ensures 0 < more[k].adds <= more[k].weight && 0 <= more[k].roll < Total(more[..k + 1])
    {
      if k < |picks| {
        assert more[..k + 1] == picks[..k + 1];
      } else {
        assert more[..k + 1] == more;
      }
    }
  }

  lemma {:induction false} FairInit<T>(picks: seq<Pick<T>>)
    requires Fair(picks) && picks != []
    ensures Fair(picks[..|picks| - 1])
  {
    var init := picks[..|picks| - 1];
    forall k | 0 <= k < |init|
      ensures 0 < init[k].adds <= init[k].weight && 0 <= init[k].roll < Total(init[..k + 1])
    {
      assert init[..k + 1] == picks[..k + 1];
    }
  }

  /** Something is chosen exactly when anything was weighed, and it is one of the things weighed. */
  lemma {:induction false} ChosenIsPicked<T>(picks: seq<Pick<T>>)
    requires Fair(picks)
    ensures Total(picks) >= 0 && (Total(picks) > 0 <==> picks != [])
    ensures Chosen(picks).Some? <==> picks != []
    ensures picks != [] ==> exists k :: 0 <= k < |picks| && picks[k].what == Chosen(picks).value
  {
    if picks != [] {
      var n := |picks| - 1;
      var init := picks[..n];
      FairInit(picks);
      ChosenIsPicked(init);
      assert picks[..n + 1] == picks;
      if picks[n].roll >= picks[n].weight {
        assert init != [];
        var k :| 0 <= k < |init| && init[k].what == Chosen(init).value;
        assert picks[k].what == Chosen(picks).value;
      }
    }
  }

  /** Something new replaces the choice so far whatever the roll exactly if it weighs no less than all that
      was counted, its own share included. */
  lemma {:induction false} SurelyReplacesIff<T(!new)>(picks: seq<Pick<T>>, p: Pick<T>)
    requires Fair(picks) && 0 < p.adds <= p.weight && Chosen(picks) != Some(p.what)
    ensures (forall r :: 0 <= r < Total(picks) + p.adds ==> Chosen(picks + [p.(roll := r)]) == Some(p.what))
            <==> p.weight >= Total(picks) + p.adds
  {
    forall r | 0 <= r < Total(picks) + p.adds
      ensures Chosen(picks + [p.(roll := r)]) == if r < p.weight then Some(p.what) else Chosen(picks)
    {
      OneMore(picks, p.(roll := r));
    }
    if p.weight < Total(picks) + p.adds {
      assert Chosen(picks + [p.(roll := p.weight)]) == Chosen(picks);
    }
  }

  // ---------------------------------------------------------------------------------------------
  // How likely each choice is
  // ---------------------------------------------------------------------------------------------

  /** How something is weighed: how much it adds to the total, and what a roll must stay below. */
  datatype Part = Part(adds: int, weight: int)

  ghost predicate AreParts(ps: seq<Part>) {
    forall k :: 0 <= k < |ps| ==> 0 < ps[k].adds <= ps[k].weight
  }

  ghost function PartSum(ps: seq<Part>): int {
    if ps == [] then 0 else PartSum(ps[..|ps| - 1]) + ps[|ps| - 1].adds
  }

  /** All the ways the dice can fall, if each roll is below the total by then. */
  ghost function Falls(ps: seq<Part>): set<seq<int>> {
    if ps == [] then {[]} else Extended(Falls(ps[..|ps| - 1]), 0, PartSum(ps))
  }

  /** Those of the given falls of the dice, with one more roll from low to high. */
  ghost function Extended(falls: set<seq<int>>, low: int, high: int): set<seq<int>> {
    set f, r | f in falls && low <= r < high :: f + [r]
  }

  /** Which thing is chosen; -1 for none. */
  ghost function ChosenAt(ps: seq<Part>, rolls: seq<int>): int
    requires |rolls| == |ps|
  {
    if ps == [] then -1
    else
      var n := |ps| - 1;
      if rolls[n] < ps[n].weight then n else ChosenAt(ps[..n], rolls[..n])
  }

  lemma {:induction false} ChosenAtNext(ps: seq<Part>, rolls: seq<int>, r: int)
    requires ps != [] && |rolls| == |ps| - 1
    ensures ChosenAt(ps, rolls + [r]) == if r < ps[|rolls|].weight then |rolls| else ChosenAt(ps[..|rolls|], rolls)
  {
    assert (rolls + [r])[..|rolls|] == rolls;
  }

  /** The falls of the dice that choose the k-th thing. */
  ghost function FallsFor(ps: seq<Part>, k: nat): set<seq<int>>
    requires k < |ps|
  {
    set f | f in Falls(ps) && |f| == |ps| && ChosenAt(ps, f) == k
  }

  lemma {:induction false} FallsAreLong(ps: seq<Part>)
    ensures forall f :: f in Falls(ps) ==> |f| == |ps|
  {
    if ps != [] {
      FallsAreLong(ps[..|ps| - 1]);
    }
  }

  lemma {:induction false} ExtendedOnce(falls: set<seq<int>>, low: int, high: int)
    requires low < high
    ensures Extended(falls, low, high) == Extended(falls, low, high - 1) + Extended(falls, high - 1, high)
    ensures Extended(falls, low, high - 1) !! Extended(falls, high - 1, high)
  {
    var most, last := Extended(falls, low, high - 1), Extended(falls, high - 1, high);
    forall f | f in Extended(falls, low, high)
      ensures f in most + last
    {
      var g, r :| g in falls && low <= r < high && f == g + [r];
    }
    assert forall f :: f in most ==> |f| > 0 && f[|f| - 1] < high - 1;
    assert forall f :: f in last ==> |f| > 0 && f[|f| - 1] == high - 1;
  }

  lemma {:induction false} ExtendedRows(falls: set<seq<int>>, low: int, high: int)
    requires low <= high
    ensures |Extended(falls, low, high)| == Rows(|falls|, high - low)
    decreases high - low
  {
    if low == high {
      assert Extended(falls, low, high) == {};
    } else {
      hide Extended;
      ExtendedRows(falls, low, high - 1);
      OneRollSize(falls, high - 1);
      ExtendedOnce(falls, low, high);
      SizesAdd(Extended(falls, low, high - 1), Extended(falls, high - 1, high));
    }
  }

  lemma {:induction false} ExtendedSize(falls: set<seq<int>>, low: int, high: int)
    requires low <= high
    ensures |Extended(falls, low, high)| == |falls| * (high - low)
  {
    ExtendedRows(falls, low, high);
    RowsIsProduct(|falls|, high - low);
  }

  lemma {:induction false} SizesAdd(a: set<seq<int>>, b: set<seq<int>>)
    requires a !! b
    ensures |a + b| == |a| + |b|
  {}

  lemma {:induction false} OneRollSize(falls: set<seq<int>>, r: int)
    ensures |Extended(falls, r, r + 1)| == |falls|
  {
    if falls == {} {
      assert Extended(falls, r, r + 1) == {};
    } else {
      var f :| f in falls;
      OneRollSize(falls - {f}, r);
      var rest := Extended(falls - {f}, r, r + 1);
      forall g | g in rest
        ensures g != f + [r]
      {
        assert g[..|g| - 1] in falls - {f};
        assert (f + [r])[..|f|] == f;
      }
      forall g | g in Extended(falls, r, r + 1)
        ensures g in rest + {f + [r]}
      {
        var h, q :| h in falls && r <= q < r + 1 && g == h + [q];
        assert h == f || h in falls - {f};
      }
      assert Extended(falls, r, r + 1) == rest + {f + [r]};
    }
  }

  /** How many of so many falls of a roll choose the last thing. */
  ghost function Low(ps: seq<Part>): (n: int)
    requires ps != []
    ensures n <= PartSum(ps)
  {
    Smaller(ps[|ps| - 1].weight, PartSum(ps))
  }

  /** The last thing is chosen by any low roll, after anything. */
  lemma {:induction false} FallsForLast(ps: seq<Part>)
    requires ps != [] && AreParts(ps)
    ensures FallsFor(ps, |ps| - 1) == Extended(Falls(ps[..|ps| - 1]), 0, Low(ps))
  {
    var n := |ps| - 1;
    FallsAreLong(ps);
    FallsAreLong(ps[..n]);
    ChosenAtBound(ps[..n]);
    forall f | f in FallsFor(ps, n)
      ensures f in Extended(Falls(ps[..n]), 0, Low(ps))
    {
      var g, r :| g in Falls(ps[..n]) && 0 <= r < PartSum(ps) && f == g + [r];
      ChosenAtNext(ps, g, r);
    }
    forall f | f in Extended(Falls(ps[..n]), 0, Low(ps))
      ensures f in FallsFor(ps, n)
    {
      var g, r :| g in Falls(ps[..n]) && 0 <= r < Low(ps) && f == g + [r];
      ChosenAtNext(ps, g, r);
    }
  }

  lemma {:induction false} EarlierFall(ps: seq<Part>, k: nat, f: seq<int>)
    requires k < |ps| - 1 && f in FallsFor(ps, k)
    ensures f in Extended(FallsFor(ps[..|ps| - 1], k), Low(ps), PartSum(ps))
  {
    var n := |ps| - 1;
    FallsAreLong(ps[..n]);
    var g, r :| g in Falls(ps[..n]) && 0 <= r < PartSum(ps) && f == g + [r];
    ChosenAtNext(ps, g, r);
    assert g in FallsFor(ps[..n], k);
  }

  lemma {:induction false} EarlierFallBack(ps: seq<Part>, k: nat, f: seq<int>)
    requires k < |ps| - 1 && AreParts(ps) && f in Extended(FallsFor(ps[..|ps| - 1], k), Low(ps), PartSum(ps))
    ensures f in FallsFor(ps, k)
  {
    var n := |ps| - 1;
    PartSumIsPositive(ps[..n]);
    var g, r :| g in FallsFor(ps[..n], k) && Low(ps) <= r < PartSum(ps) && f == g + [r];
    ChosenAtNext(ps, g, r);
  }

  /** An earlier thing is chosen by a high roll after what chose it. */
  lemma {:induction false} FallsForEarlier(ps: seq<Part>, k: nat)
    requires k < |ps| - 1 && AreParts(ps)
    ensures FallsFor(ps, k) == Extended(FallsFor(ps[..|ps| - 1], k), Low(ps), PartSum(ps))
  {
    hide FallsFor, Extended, Low;
    var part := FallsFor(ps[..|ps| - 1], k);
    forall f | f in FallsFor(ps, k)
      ensures f in Extended(part, Low(ps), PartSum(ps))
    {
      EarlierFall(ps, k, f);
    }
    forall f | f in Extended(part, Low(ps), PartSum(ps))
      ensures f in FallsFor(ps, k)
    {
      EarlierFallBack(ps, k, f);
    }
  }

  lemma {:induction false} ChosenAtBound(ps: seq<Part>)
    ensures forall f :: f in Falls(ps) && |f| == |ps| ==> ChosenAt(ps, f) < |ps|
  {
    if ps != [] {
      var n := |ps| - 1;
      ChosenAtBound(ps[..n]);
      FallsAreLong(ps[..n]);
      forall f | f in Falls(ps) && |f| == |ps|
        ensures ChosenAt(ps, f) < |ps|
      {
        var g, r :| g in Falls(ps[..n]) && 0 <= r < PartSum(ps) && f == g + [r];
        ChosenAtNext(ps, g, r);
      }
    }
  }

  lemma {:induction false} PartSumIsPositive(ps: seq<Part>)
    requires AreParts(ps)
    ensures PartSum(ps) >= 0 && (ps != [] ==> PartSum(ps) > 0)
  {
    if ps != [] {
      PartSumIsPositive(ps[..|ps| - 1]);
    }
  }

  /** The number of ways the dice can fall: the product of all totals. */
  ghost function Ways(ps: seq<Part>): int {
    if ps == [] then 1 else Ways(ps[..|ps| - 1]) * PartSum(ps)
  }

  /** In how many of them the k-th thing is chosen: its own roll is low, and all later ones are high. */
  ghost function WaysFor(ps: seq<Part>, k: nat): int
    requires k < |ps|
  {
    var init := ps[..|ps| - 1];
    if k == |ps| - 1 then Ways(init) * Low(ps) else WaysFor(init, k) * (PartSum(ps) - Low(ps))
  }

  lemma {:induction false} WaysAreFalls(ps: seq<Part>)
    requires AreParts(ps)
    ensures |Falls(ps)| == Ways(ps) > 0
  {
    if ps != [] {
      var init := ps[..|ps| - 1];
      PartSumIsPositive(ps);
      WaysAreFalls(init);
      ExtendedSize(Falls(init), 0, PartSum(ps));
    }
  }

  /** The share of each thing, whatever the weights. */
  lemma {:induction false} ShareIs(ps: seq<Part>, k: nat)
    requires k < |ps| && AreParts(ps)
    ensures |FallsFor(ps, k)| == WaysFor(ps, k) && |Falls(ps)| == Ways(ps)
  {
    var n := |ps| - 1;
    var init := ps[..n];
    PartSumIsPositive(ps);
    WaysAreFalls(ps);
    WaysAreFalls(init);
    hide Falls, FallsFor, Extended;
    if k == n {
      FallsForLast(ps);
      ExtendedSize(Falls(init), 0, Low(ps));
    } else {
      ShareIs(init, k);
      FallsForEarlier(ps, k);
      ExtendedSize(FallsFor(init, k), Low(ps), PartSum(ps));
    }
  }

  /** The k-th thing is chosen in proportion to what it adds. */
  ghost predicate Proportionate(ps: seq<Part>, k: nat)
    requires k < |ps|
  {
    |FallsFor(ps, k)| * PartSum(ps) == ps[k].adds * |Falls(ps)|
  }

  /** Everything but what comes first weighs just what it adds. */
  ghost predicate Uncapped(ps: seq<Part>) {
    forall k :: 0 < k < |ps| ==> ps[k].weight == ps[k].adds
  }

  lemma {:induction false} LastProportionate(ps: seq<Part>)
    requires AreParts(ps) && ps != []
    ensures Proportionate(ps, |ps| - 1) <==> Low(ps) == ps[|ps| - 1].adds
  {
    var n := |ps| - 1;
    var a, l, t, m := ps[n].adds, Low(ps), PartSum(ps), Ways(ps[..n]);
    PartSumIsPositive(ps);
    WaysAreFalls(ps[..n]);
    ShareIs(ps, n);
    assert |FallsFor(ps, n)| * t == m * l * t && a * |Falls(ps)| == a * (m * t);
    SameTimes(m, t, l, a);
  }

  lemma {:induction false} SameTimes(m: int, t: int, x: int, y: int)
    requires m > 0 && t > 0
    ensures m * x * t == y * (m * t) <==> x == y
  {
    var q := m * t;
    assert q > 0;
    assert m * x * t == x * q;
    if x < y {
      assert (y - x) * q > 0;
    } else if x > y {
      assert (x - y) * q > 0;
    }
  }

  /** Before a last thing that takes just what it adds, everything keeps its proportion. */
  lemma {:induction false} EarlierProportionate(ps: seq<Part>, k: nat)
    requires AreParts(ps) && k < |ps| - 1 && Low(ps) == ps[|ps| - 1].adds
    ensures Proportionate(ps, k) <==> Proportionate(ps[..|ps| - 1], k)
  {
    var n := |ps| - 1;
    var init := ps[..n];
    PartSumIsPositive(init);
    PartSumIsPositive(ps);
    ShareIs(ps, k);
    ShareIs(init, k);
    var f, t, t0, a, m := WaysFor(init, k), PartSum(ps), PartSum(init), ps[k].adds, Ways(init);
    assert WaysFor(ps, k) == f * t0 && Ways(ps) == m * t;
    Cancel(f, t0, a, m, t);
  }

  lemma {:induction false} Cancel(f: int, t0: int, a: int, m: int, t: int)
    requires t > 0
    ensures f * t0 * t == a * (m * t) <==> f * t0 == a * m
  {
    var x, y := f * t0, a * m;
    assert a * (m * t) == y * t;
    if x < y {
      assert (y - x) * t > 0;
    } else if x > y {
      assert (x - y) * t > 0;
    }
  }

  /** Everything is chosen in proportion to what it adds to the running total exactly if all but the first thing
      weigh just that. */
  lemma {:induction false} ProportionateIff(ps: seq<Part>)
    requires AreParts(ps)
    ensures (forall k :: 0 <= k < |ps| ==> Proportionate(ps, k)) <==> Uncapped(ps)
  {
    if ps != [] {
      var n := |ps| - 1;
      var init := ps[..n];
      PartSumIsPositive(init);
      ProportionateIff(init);
      LastProportionate(ps);
      assert Low(ps) == ps[n].adds <==> n == 0 || ps[n].weight == ps[n].adds;
      if Low(ps) == ps[n].adds {
        forall k | 0 <= k < n
          ensures Proportionate(ps, k) <==> Proportionate(init, k)
        {
          EarlierProportionate(ps, k);
        }
      }
      hide Proportionate, Low;
      assert Uncapped(ps) <==> Uncapped(init) && (n == 0 || ps[n].weight == ps[n].adds);
    }
  }

  /** If everything adds just its weight, each thing is chosen in just its weight's share of all the ways the dice
      can fall. */
  lemma {:induction false} ChosenByWeight(ps: seq<Part>, k: nat)
    requires k < |ps| && AreParts(ps) && forall j :: 0 <= j < |ps| ==> ps[j].weight == ps[j].adds
    ensures |FallsFor(ps, k)| * PartSum(ps) == ps[k].weight * |Falls(ps)|
  {
    ProportionateIff(ps);
    assert Proportionate(ps, k);
  }

  // ---------------------------------------------------------------------------------------------
  // The pass makes such a choice
  // ---------------------------------------------------------------------------------------------

  ghost function Parts<T>(picks: seq<Pick<T>>): (ps: seq<Part>)
    ensures |ps| == |picks|
  {
    seq(|picks|, i requires 0 <= i < |picks| => Part(picks[i].adds, picks[i].weight))
  }

  ghost function Rolls<T>(picks: seq<Pick<T>>): (rolls: seq<int>)
    ensures |rolls| == |picks|
  {
    seq(|picks|, i requires 0 <= i < |picks| => picks[i].roll)
  }

  lemma {:induction false} FallGrows(ps: seq<Part>, f: seq<int>, r: int)
    requires ps != [] && f in Falls(ps[..|ps| - 1]) && 0 <= r < PartSum(ps)
    ensures f + [r] in Falls(ps)
  {}

  lemma {:induction false} SumIsTotal<T>(picks: seq<Pick<T>>)
    requires Fair(picks)
    ensures AreParts(Parts(picks)) && PartSum(Parts(picks)) == Total(picks)
  {
    if picks != [] {
      var init := picks[..|picks| - 1];
      FairInit(picks);
      SumIsTotal(init);
      assert Parts(picks)[..|init|] == Parts(init);
    }
  }

  /** The rolls are one of the ways the dice can fall, and choose what that way chooses. */
  lemma {:induction false} ChosenIsAt<T>(picks: seq<Pick<T>>)
    requires Fair(picks)
    ensures AreParts(Parts(picks)) && PartSum(Parts(picks)) == Total(picks)
    ensures Rolls(picks) in Falls(Parts(picks))
    ensures var k := ChosenAt(Parts(picks), Rolls(picks));
            Chosen(picks) == if 0 <= k < |picks| then Some(picks[k].what) else None
  {
    if picks != [] {
      var n := |picks| - 1;
      var init := picks[..n];
      FairInit(picks);
      ChosenIsAt(init);
      assert picks[..n + 1] == picks;
      var ps, roll := Parts(picks), picks[n].roll;
      assert ps[..n] == Parts(init) && ps[n].weight == picks[n].weight && Rolls(picks) == Rolls(init) + [roll];
      SumIsTotal(picks);
      hide Falls, ChosenAt, Parts, Rolls, AreParts, PartSum;
      FallGrows(ps, Rolls(init), roll);
      ChosenAtNext(ps, Rolls(init), roll);
      ChosenAtBound(ps[..n]);
    } else {
      assert Parts(picks) == [] && Rolls(picks) == [];
    }
  }
}
