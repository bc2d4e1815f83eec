/** What a sector makes in an update. */
module Production {
  import opened Basics
  import opened Game
  import opened Products
  import opened Rounding

  // ---------------------------------------------------------------------------------------------
  // Making products
  // ---------------------------------------------------------------------------------------------

  const LIMIT := 9999.0

  function Least(a: real, b: real): real {
    if b < a then b else a
  }

  ghost predicate AreInputs(inputs: seq<Input>) {
    (forall k :: 0 <= k < |inputs| ==> IsMaterial(inputs[k].item) && inputs[k].amount >= 1)
    && forall j, k :: 0 <= j < k < |inputs| ==> inputs[j].item != inputs[k].item
  }

  lemma {:induction false} SoundInputs(p: Product)
    requires Sound(p)
    ensures AreInputs(p.inputs)
  {}

  ghost predicate NoneNegative(items: seq<int>) {
    |items| == ITEMS && forall k :: 0 <= k < ITEMS ==> 0 <= items[k] <= I16_MAX
  }

  /** How often a product's inputs are there, going by the first n of them. */
  function Batches(items: seq<int>, inputs: seq<Input>, n: nat): real
    requires |items| == ITEMS && AreInputs(inputs) && n <= |inputs|
  {
    if n == 0 then LIMIT
    else
      Least(Batches(items, inputs, n - 1), items[inputs[n - 1].item] as real / inputs[n - 1].amount as real)
  }

  method ProdMaterialsLimit(items: seq<int>, p: Product) returns (count: real)
    requires |items| == ITEMS && AreInputs(p.inputs)
    ensures count == Batches(items, p.inputs, |p.inputs|)
  {
    hide AreInputs;
    count := 9999.0;
    for k := 0 to |p.inputs|
      invariant count == Batches(items, p.inputs, k)
    {
      InputIs(p.inputs, k);
      var n := items[p.inputs[k].item] as real / p.inputs[k].amount as real;
      if n < count {
        count := n;
      }
    }
  }

  lemma {:induction false} InputIs(inputs: seq<Input>, k: int)
    requires AreInputs(inputs) && 0 <= k < |inputs|
    ensures 2 <= inputs[k].item < ITEMS && inputs[k].item != UW && inputs[k].amount >= 1
  {}

  /** What count batches take of the k-th input, before rounding. */
  function Needed(inputs: seq<Input>, k: int, count: real): real
    requires 0 <= k < |inputs|
  {
    inputs[k].amount as real * count
  }

  /** The limit is the greatest number of batches, up to 9999, that take no more of any input than there is. */
  lemma {:induction false} BatchesIsGreatest(items: seq<int>, inputs: seq<Input>, n: nat, count: real)
    requires |items| == ITEMS && AreInputs(inputs) && n <= |inputs|
    ensures count <= Batches(items, inputs, n) <==>
              count <= LIMIT && forall k :: 0 <= k < n ==> Needed(inputs, k, count) <= items[inputs[k].item] as real
  {
    hide Needed, AreInputs;
    if n > 0 {
      BatchesIsGreatest(items, inputs, n - 1, count);
      InputIs(inputs, n - 1);
      NeededIsWithin(items[inputs[n - 1].item], inputs, n - 1, count);
    }
  }

  lemma {:induction false} NeededIsWithin(have: int, inputs: seq<Input>, k: int, count: real)
    requires AreInputs(inputs) && 0 <= k < |inputs|
    ensures count <= have as real / inputs[k].amount as real <==> Needed(inputs, k, count) <= have as real
  {
    InputIs(inputs, k);
    var a, x := inputs[k].amount as real, have as real;
    if count <= x / a {
      UpToQuotient(a, count, x);
    } else {
      assert x / a * a == x;
      assert a * (count - x / a) > 0.0;
      assert a * (count - x / a) == a * count - a * (x / a);
    }
  }

  /** No input runs out: as many batches as the limit allows take no more than there is. */
  lemma {:induction false} InputsSuffice(items: seq<int>, inputs: seq<Input>, n: nat, k: nat, count: real)
    requires |items| == ITEMS && AreInputs(inputs) && k < n <= |inputs| && count <= Batches(items, inputs, n)
    ensures 2 <= inputs[k].item < ITEMS && Needed(inputs, k, count) <= items[inputs[k].item] as real
  {
    BatchesIsGreatest(items, inputs, n, count);
    InputIs(inputs, k);
  }

  lemma {:induction false} BatchesBound(items: seq<int>, inputs: seq<Input>, n: nat)
    requires NoneNegative(items) && AreInputs(inputs) && n <= |inputs|
    ensures 0.0 <= Batches(items, inputs, n) <= LIMIT
  {
    hide AreInputs;
    if n > 0 {
      InputIs(inputs, n - 1);
      BatchesBound(items, inputs, n - 1);
    }
  }

  /** The stocks after the first n inputs for count batches are taken. */
  function Consumed(items: seq<int>, inputs: seq<Input>, count: real, n: nat): (r: seq<int>)
    requires |items| == ITEMS && AreInputs(inputs) && n <= |inputs|
    ensures |r| == ITEMS
  {
    if n == 0 then items
    else
      var prev := Consumed(items, inputs, count, n - 1);
      TakeOff(prev, inputs[n - 1].item, Needed(inputs, n - 1, count))
  }

  function TakeOff(items: seq<int>, item: int, used: real): (r: seq<int>)
    requires 0 <= item < |items|
    ensures |r| == |items|
  {
    items[item := SatAdd(items[item], -AsI16(Nearest(used)))]
  }

  lemma {:induction false} TakeOffExactly(items: seq<int>, item: int, used: real)
    requires 0 <= item < |items| && 0.0 <= used <= items[item] as real && items[item] <= I16_MAX
    ensures TakeOff(items, item, used) == items[item := items[item] - Nearest(used)]
    ensures 0 <= Nearest(used) <= items[item]
  {
    NearestWithin(used, 0, items[item]);
    FitsI16(Nearest(used));
  }

  /** Each input's stock shrinks by just what is used of it; all other stocks stay. */
  lemma {:induction false} ConsumedExactly(items: seq<int>, inputs: seq<Input>, count: real, n: nat)
    requires NoneNegative(items) && AreInputs(inputs) && n <= |inputs| && 0.0 <= count
    requires forall k :: 0 <= k < |inputs| ==> Needed(inputs, k, count) <= items[inputs[k].item] as real
    ensures NoneNegative(Consumed(items, inputs, count, n))
    ensures forall item :: 0 <= item < ITEMS && (forall k :: 0 <= k < n ==> inputs[k].item != item) ==>
              Consumed(items, inputs, count, n)[item] == items[item]
    ensures forall k :: 0 <= k < n ==> TookInput(items, Consumed(items, inputs, count, n), inputs, count, k)
  {
    if n > 0 {
      var prev := Consumed(items, inputs, count, n - 1);
      ConsumedExactly(items, inputs, count, n - 1);
      var item := inputs[n - 1].item;
      assert prev[item] == items[item];
      NeededIsPositive(inputs, n - 1, count);
      hide Needed;
      TakeOffExactly(prev, item, Needed(inputs, n - 1, count));
      hide TakeOff, Nearest;
      var next := Consumed(items, inputs, count, n);
      assert next == prev[item := prev[item] - Nearest(Needed(inputs, n - 1, count))];
      forall k | 0 <= k < n
        ensures TookInput(items, next, inputs, count, k)
      {
        if k < n - 1 {
          assert TookInput(items, prev, inputs, count, k);
        }
      }
    }
  }

  lemma {:induction false} NeededIsPositive(inputs: seq<Input>, k: int, count: real)
    requires AreInputs(inputs) && 0 <= k < |inputs| && 0.0 <= count
    ensures Needed(inputs, k, count) >= 0.0
  {}

  ghost predicate TookInput(items: seq<int>, after: seq<int>, inputs: seq<Input>, count: real, k: int)
    requires |items| == |after| == ITEMS && AreInputs(inputs) && 0 <= k < |inputs|
  {
    var used := Nearest(Needed(inputs, k, count));
    after[inputs[k].item] == items[inputs[k].item] - used && 0 <= used <= items[inputs[k].item]
  }

  method ConsumeMaterials(items: seq<int>, p: Product, count: real) returns (r: seq<int>)
    requires |items| == ITEMS && AreInputs(p.inputs)
    ensures r == Consumed(items, p.inputs, count, |p.inputs|)
  {
    hide AreInputs;
    r := items;
    for k := 0 to |p.inputs|
      invariant r == Consumed(items, p.inputs, count, k)
    {
      InputIs(p.inputs, k);
      r := TakeOff(r, p.inputs[k].item, Needed(p.inputs, k, count));
    }
  }

  /** How many batches the natural resource bears. */
  function ResourceLimit(s: Sector, p: Product): real
    requires p.nrdep >= 0
  {
    if p.nrdep == 0 then LIMIT else ResourceVal(s, p.resource) as real * 100.0 / p.nrdep as real
  }

  /** The part of its work a sector can use, by efficiency and natural resource. */
  function WorkFactor(s: Sector, p: Product): real {
    s.effic as real / 100.0 * (ResourceVal(s, p.resource) as real / 100.0)
  }

  function WorkerLimit(s: Sector, p: Product): real
    requires p.bwork >= 1
  {
    s.avail as real * (s.effic as real / 100.0) * (ResourceVal(s, p.resource) as real / 100.0) / p.bwork as real
  }

  /** How many batches are made: as many as materials, work and the natural resource allow. */
  function BatchesMade(s: Sector, p: Product): real
    requires |s.items| == ITEMS && AreInputs(p.inputs) && p.bwork >= 1 && p.nrdep >= 0
  {
    Least(Least(Batches(s.items, p.inputs, |p.inputs|), WorkerLimit(s, p)), ResourceLimit(s, p))
  }

  /** The work a number of batches takes. */
  function WorkUsed(s: Sector, p: Product, made: real): real {
    var f := WorkFactor(s, p);
    p.bwork as real * made / (if f > 0.001 then f else 0.001)
  }

  /** The work taken is never more than there is. */
  lemma {:induction false} WorkSuffices(s: Sector, p: Product, made: real)
    requires p.bwork >= 1 && s.avail >= 0 && 0.0 < made <= WorkerLimit(s, p)
    ensures 0.0 <= WorkUsed(s, p, made) <= s.avail as real
  {
    var e, r, a, n := s.effic as real / 100.0, ResourceVal(s, p.resource) as real / 100.0, s.avail as real,
      p.bwork as real;
    var f := e * r;
    var g := if f > 0.001 then f else 0.001;
    assert WorkerLimit(s, p) == a * f / n by {
      Regroup(a, e, r);
    }
    UpToQuotient(n, made, a * f);
    TimesMono(a, f, g);
    TimesMono(n, 0.0, made);
    QuotientWithin(n * made, g, a);
  }

  lemma {:induction false} Regroup(a: real, b: real, c: real)
    ensures a * b * c == a * (b * c)
  {}

  lemma {:induction false} TimesMono(a: real, b: real, c: real)
    requires a >= 0.0 && b <= c
    ensures a * b <= a * c
  {
    assert a * (c - b) >= 0.0;
    assert a * (c - b) == a * c - a * b;
  }

  lemma {:induction false} UpToQuotient(n: real, part: real, x: real)
    requires n > 0.0 && part <= x / n
    ensures n * part <= x
  {
    assert x / n * n == x;
    TimesMono(n, part, x / n);
  }

  lemma {:induction false} QuotientWithin(x: real, g: real, a: real)
    requires g > 0.0 && 0.0 <= x <= a * g
    ensures 0.0 <= x / g <= a
  {
    var q := x / g;
    assert q * g == x;
    assert q > a ==> (q - a) * g > 0.0;
    assert q < 0.0 ==> q * g < 0.0;
  }

  /** What a number of batches takes from the natural resource. */
  function Depletion(p: Product, made: real): real {
    p.nrdep as real * made / 100.0
  }

  /** The natural resource never runs below nothing. */
  lemma {:induction false} ResourceSuffices(s: Sector, p: Product, made: real)
    requires p.nrdep > 0 && 0.0 <= made <= ResourceLimit(s, p)
    ensures 0.0 <= Depletion(p, made) <= ResourceVal(s, p.resource) as real
  {
    var n, v := p.nrdep as real, ResourceVal(s, p.resource) as real;
    UpToQuotient(n, made, v * 100.0);
    TimesMono(n, 0.0, made);
  }

  /** What making the given number of batches did to the stocks: count batches' worth of inputs is gone,
      and what was made of an item is added. */
  ghost predicate Made(items: seq<int>, after: seq<int>, p: Product, output: real, count: real) {
    NoneNegative(items) && NoneNegative(after) && AreInputs(p.inputs)
    && (forall k :: 0 <= k < |p.inputs| ==> TookInput(items, after, p.inputs, count, k))
    && (p.makes.Some? && 0 <= p.makes.value < ITEMS ==>
        after[p.makes.value] as real == items[p.makes.value] as real + output)
    && forall item :: 0 <= item < ITEMS && p.makes != Some(item)
                      && (forall k :: 0 <= k < |p.inputs| ==> p.inputs[k].item != item) ==>
         after[item] == items[item]
  }

  /** Only stocks, work and natural resources differ. */
  ghost predicate SameButGoods(s: Sector, t: Sector) {
    t == s.(items := t.items, avail := t.avail, min := t.min, gmin := t.gmin, fertil := t.fertil, oil := t.oil,
            uran := t.uran)
  }

  lemma {:induction false} NothingMade(items: seq<int>, p: Product)
    requires NoneNegative(items) && AreInputs(p.inputs)
    ensures Made(items, items, p, 0.0, 0.0)
  {}

  /** count batches' worth of inputs, within the limit, are there to be taken. */
  lemma {:induction false} TakeInputs(items: seq<int>, p: Product, count: real)
    requires NoneNegative(items) && AreInputs(p.inputs) && 0.0 <= count <= Batches(items, p.inputs, |p.inputs|)
    ensures forall k :: 0 <= k < |p.inputs| ==> Needed(p.inputs, k, count) <= items[p.inputs[k].item] as real
  {
    hide AreInputs, Needed;
    forall k | 0 <= k < |p.inputs|
      ensures 2 <= p.inputs[k].item < ITEMS && Needed(p.inputs, k, count) <= items[p.inputs[k].item] as real
    {
      InputIs(p.inputs, k);
      InputsSuffice(items, p.inputs, |p.inputs|, k, count);
    }
  }

  /** A level is produced: inputs are taken, nothing is added. */
  lemma {:induction false} LevelMade(items: seq<int>, p: Product, output: real, count: real)
    requires NoneNegative(items) && AreInputs(p.inputs) && 0.0 <= count <= Batches(items, p.inputs, |p.inputs|)
    requires p.makes == None
    ensures Made(items, Consumed(items, p.inputs, count, |p.inputs|), p, output, count)
  {
    TakeInputs(items, p, count);
    ConsumedExactly(items, p.inputs, count, |p.inputs|);
    hide AreInputs, TookInput, Consumed;
  }

  /** An item is made: it is added, and inputs are taken. */
  lemma {:induction false} ItemMade(items: seq<int>, p: Product, output: int, count: real)
    requires NoneNegative(items) && Sound(p) && 0.0 <= count <= Batches(items, p.inputs, |p.inputs|)
    requires p.makes.Some? && 0 < output && items[p.makes.value] + output <= ITEM_MAX
    ensures var more := items[p.makes.value := items[p.makes.value] + output];
            Made(items, Consumed(more, p.inputs, count, |p.inputs|), p, output as real, count)
  {
    var more := items[p.makes.value := items[p.makes.value] + output];
    SoundInputs(p);
    TakeInputs(items, p, count);
    ConsumedExactly(more, p.inputs, count, |p.inputs|);
    var after := Consumed(more, p.inputs, count, |p.inputs|);
    hide AreInputs, Consumed, Needed;
    forall k | 0 <= k < |p.inputs|
      ensures TookInput(items, after, p.inputs, count, k)
    {
      assert TookInput(more, after, p.inputs, count, k);
    }
  }

  // ---------------------------------------------------------------------------------------------
  // One sector's production
  // ---------------------------------------------------------------------------------------------

  /** What is made of an item: whole units, and no more than there is room for. */
  function ItemOutput(have: int, output: real): int {
    var units := output.Floor;
    if have + units > ITEM_MAX then (if have < ITEM_MAX then ITEM_MAX - have else 0) else units
  }

  /** What a number of batches yields at efficiency pe. */
  function YieldOf(batches: real, pe: real): real {
    batches * pe
  }

  /** Making at most what the batches yield takes at most their inputs. */
  lemma {:induction false} CountWithin(output: int, made: real, pe: real)
    requires pe > 0.0 && 0 < output && output as real <= YieldOf(made, pe)
    ensures 0.0 <= output as real / pe <= made && YieldOf(output as real / pe, pe) == output as real
  {
    QuotientWithin(output as real, pe, made);
  }

  lemma {:induction false} NothingYields(pe: real)
    ensures YieldOf(0.0, pe) == 0.0
  {}

  lemma {:induction false} YieldIsPositive(made: real, pe: real)
    requires made > 0.0 && pe > 0.0
    ensures YieldOf(made, pe) > 0.0
  {}

  lemma {:induction false} AddFits(a: int, d: int)
    requires I16_MIN <= a + d <= I16_MAX
    ensures SatAdd(a, d) == a + d
  {}

  lemma {:induction false} ItemOutputFits(have: int, output: real)
    requires output >= 0.0 && 0 <= have
    ensures var units := ItemOutput(have, output);
            0 <= units && units as real <= output && (units > 0 ==> have + units <= ITEM_MAX && units <= ITEM_MAX)
  {}

  /** Puts the product in store and takes its inputs. */
  method StoreProduct(items: seq<int>, p: Product, pe: real, made: real)
    returns (after: seq<int>, output: real, ghost count: real)
    requires NoneNegative(items) && Sound(p) && pe > 0.0 && 0.0 < made <= Batches(items, p.inputs, |p.inputs|)
    ensures Made(items, after, p, output, count) && 0.0 <= output && 0.0 <= count <= made
    ensures p.makes.Some? ==>
              output == ItemOutput(items[p.makes.value], YieldOf(made, pe)) as real && YieldOf(count, pe) == output
    ensures p.makes == None ==> output == YieldOf(made, pe) && count == made
  {
    SoundInputs(p);
    YieldIsPositive(made, pe);
    NothingYields(pe);
    hide YieldOf, ItemOutput, SatAdd, AsI16;
    after, output, count := items, YieldOf(made, pe), made;
    if p.makes.Some? {
      var item := p.makes.value;
      var units := ItemOutput(items[item], output);
      ItemOutputFits(items[item], output);
      output := units as real;
      if units > 0 {
        CountWithin(units, made, pe);
        count := output / pe;
        FitsI16(units);
        AddFits(items[item], units);
        ItemMade(items, p, units, count);
        hide Made, Sound, AreInputs, NoneNegative;
        var more := items[item := SatAdd(items[item], AsI16(units))];
        after := ConsumeMaterials(more, p, output / pe);
      } else {
        NothingMade(items, p);
        count := 0.0;
      }
    } else {
      LevelMade(items, p, output, made);
      hide Made, Sound, AreInputs, NoneNegative;
      after := ConsumeMaterials(items, p, made);
    }
  }

  /** What one run of production did. */
  ghost predicate Produced(s: Sector, t: Sector, p: Product, pe: real, output: real, count: real, work: int, taken: int)
    requires |s.items| == ITEMS && AreInputs(p.inputs) && p.bwork >= 1 && p.nrdep >= 0
  {
    var made := BatchesMade(s, p);
    Made(s.items, t.items, p, output, count) && SameButGoods(s, t) && WellFormed(t)
    && 0.0 <= output && 0.0 <= count <= made
    && RoundsTo(WorkUsed(s, p, made), work) && t.avail == s.avail - work
    && RoundsTo(Depletion(p, made), taken)
    && (p.resource == NoResource || ResourceVal(t, p.resource) == ResourceVal(s, p.resource) - taken)
    && (p.makes == None ==> output == YieldOf(made, pe) && count == made)
    && (p.makes.Some? && 0 <= p.makes.value < ITEMS ==>
          output == ItemOutput(s.items[p.makes.value], YieldOf(made, pe)) as real && YieldOf(count, pe) == output)
  }

  lemma {:induction false} DepletionRounds(s: Sector, p: Product, made: real, taken: int)
    requires WellFormed(s) && Sound(p) && 0.0 <= made <= ResourceLimit(s, p) && RoundsTo(Depletion(p, made), taken)
    ensures 0 <= taken <= ResourceVal(s, p.resource)
  {
    if p.nrdep > 0 {
      ResourceSuffices(s, p, made);
    } else {
      NoDepletion(p, made);
    }
    hide Depletion, ResourceLimit;
    RoundsWithin(Depletion(p, made), 0, ResourceVal(s, p.resource), taken);
  }

  lemma {:induction false} NoDepletion(p: Product, made: real)
    ensures p.nrdep == 0 ==> Depletion(p, made) == 0.0 && RoundsTo(Depletion(p, made), 0)
  {}

  lemma {:induction false} WorkRounds(s: Sector, p: Product, made: real, used: int)
    requires p.bwork >= 1 && 0 <= s.avail <= AVAIL_MAX && 0.0 < made <= WorkerLimit(s, p)
    requires RoundsTo(WorkUsed(s, p, made), used)
    ensures 0 <= used <= s.avail && AsI16(used) == used
  {
    WorkSuffices(s, p, made);
    hide WorkUsed;
    RoundsWithin(WorkUsed(s, p, made), 0, s.avail, used);
    FitsI16(used);
  }

  lemma {:induction false} ResourceWellFormed(s: Sector, r: Resource, v: int)
    requires WellFormed(s) && v >= 0
    ensures WellFormed(WithResource(s, r, v)) && SameButGoods(s, WithResource(s, r, v))
    ensures r != NoResource ==> ResourceVal(WithResource(s, r, v), r) == v
    ensures WithResource(s, r, v).items == s.items && WithResource(s, r, v).avail == s.avail
  {}

  method DepleteResource(s: Sector, p: Product, made: real) returns (t: Sector, ghost taken: int)
    requires WellFormed(s) && Sound(p) && 0.0 <= made <= ResourceLimit(s, p)
    ensures RoundsTo(Depletion(p, made), taken) && 0 <= taken <= ResourceVal(s, p.resource)
    ensures if p.nrdep == 0 then t == s && taken == 0
            else t == WithResource(s, p.resource, ResourceVal(s, p.resource) - taken)
  {
    hide WellFormed, Depletion, ResourceLimit, RoundsTo, WithResource;
    t, taken := s, 0;
    if p.nrdep != 0 {
      var depletion := RoundAvg(Depletion(p, made));
      DepletionRounds(s, p, made, depletion);
      taken := depletion;
      var left := ResourceVal(s, p.resource) - depletion;
      t := WithResource(s, p.resource, if left > 0 then left else 0);
    } else {
      NoDepletion(p, made);
      DepletionRounds(s, p, made, 0);
    }
  }

  /** Production never takes more of an input, of the natural resource or of the work than the sector has:
      neither lower bound comes into play. */
  method MakeProduct(s: Sector, p: Product, pe: real, made: real)
    returns (t: Sector, output: real, ghost count: real, ghost work: int, ghost taken: int)
    requires WellFormed(s) && Sound(p) && pe > 0.0 && AreInputs(p.inputs)
    requires made == BatchesMade(s, p) > 0.0
    ensures WellFormed(t) && SameButGoods(s, t) && output >= 0.0
    ensures t.items[CIVIL] == s.items[CIVIL] && t.items[MILIT] == s.items[MILIT] && t.items[UW] == s.items[UW]
    ensures Produced(s, t, p, pe, output, count, work, taken)
  {
    WellFormedGoods(s);
    LimitsAre(s, p);
    hide *;
    var items;
    items, output, count := StoreProduct(s.items, p, pe, made);
    var depleted;
    depleted, taken := DepleteResource(s, p, made);
    var used := RoundAvg(WorkUsed(s, p, made));
    WorkRounds(s, p, made, used);
    work := used;
    var left := s.avail - AsI16(used);
    t := depleted.(items := items, avail := if left > 0 then left else 0);
    ProducedFrom(s, items, depleted, t, p, pe, output, count, work, taken);
  }

  method ProdOutput(s: Sector, p: Product, pe: real)
    returns (t: Sector, output: real, ghost count: real, ghost work: int, ghost taken: int)
    requires WellFormed(s) && Sound(p) && pe > 0.0
    ensures WellFormed(t) && SameButGoods(s, t) && output >= 0.0
    ensures t.items[CIVIL] == s.items[CIVIL] && t.items[MILIT] == s.items[MILIT] && t.items[UW] == s.items[UW]
    ensures AreInputs(p.inputs)
    ensures if s.avail <= 0 || BatchesMade(s, p) <= 0.0 then t == s && output == 0.0
            else Produced(s, t, p, pe, output, count, work, taken)
  {
    SoundInputs(p);
    SoundWork(p);
    WellFormedGoods(s);
    hide *;
    t, output, count, work, taken := s, 0.0, 0.0, 0, 0;
    if s.avail > 0 {
      var materials := ProdMaterialsLimit(s.items, p);
      var made := Least(Least(materials, WorkerLimit(s, p)), ResourceLimit(s, p));
      LimitsAre(s, p);
      if made > 0.0 {
        t, output, count, work, taken := MakeProduct(s, p, pe, made);
      }
    }
  }

  lemma {:induction false} SoundWork(p: Product)
    requires Sound(p)
    ensures p.bwork >= 1 && p.nrdep >= 0
  {}

  lemma {:induction false} WellFormedGoods(s: Sector)
    requires WellFormed(s)
    ensures NoneNegative(s.items) && 0 <= s.avail <= AVAIL_MAX && SameButGoods(s, s)
  {}

  lemma {:induction false} LimitsAre(s: Sector, p: Product)
    requires |s.items| == ITEMS && AreInputs(p.inputs) && p.bwork >= 1 && p.nrdep >= 0
    ensures var made := Least(Least(Batches(s.items, p.inputs, |p.inputs|), WorkerLimit(s, p)), ResourceLimit(s, p));
            made == BatchesMade(s, p) && made <= Batches(s.items, p.inputs, |p.inputs|)
            && made <= WorkerLimit(s, p) && made <= ResourceLimit(s, p)
  {
    hide Batches, WorkerLimit, ResourceLimit, AreInputs;
  }

  lemma {:induction false} ProducedFrom(s: Sector, items: seq<int>, depleted: Sector, t: Sector, p: Product, pe: real,
                     output: real, count: real, work: int, taken: int)
    requires WellFormed(s) && Sound(p) && AreInputs(p.inputs) && BatchesMade(s, p) > 0.0
    requires var made := BatchesMade(s, p);
             Made(s.items, items, p, output, count) && 0.0 <= output && 0.0 <= count <= made
             && (p.makes.Some? ==>
                   output == ItemOutput(s.items[p.makes.value], YieldOf(made, pe)) as real
                     && YieldOf(count, pe) == output)
             && (p.makes == None ==> output == YieldOf(made, pe) && count == made)
             && RoundsTo(Depletion(p, made), taken) && 0 <= taken <= ResourceVal(s, p.resource)
             && (if p.nrdep == 0 then depleted == s && taken == 0
                 else depleted == WithResource(s, p.resource, ResourceVal(s, p.resource) - taken))
             && RoundsTo(WorkUsed(s, p, made), work) && 0 <= work <= s.avail
    requires t == depleted.(items := items, avail := s.avail - work)
    ensures WellFormed(t) && SameButGoods(s, t)
    ensures t.items[CIVIL] == s.items[CIVIL] && t.items[MILIT] == s.items[MILIT] && t.items[UW] == s.items[UW]
    ensures Produced(s, t, p, pe, output, count, work, taken)
  {
    hide BatchesMade, WorkUsed, Depletion, RoundsTo, ItemOutput, AreInputs, YieldOf;
    MadeKeeps(s.items, items, p, output, count);
    hide Made, Sound;
    ResourceWellFormed(s, p.resource, ResourceVal(s, p.resource) - taken);
    SameResource(depleted, t, p.resource);
    hide ResourceVal, WithResource;
  }

  lemma {:induction false} SameResource(s: Sector, t: Sector, r: Resource)
    requires t == s.(items := t.items, avail := t.avail)
    ensures ResourceVal(t, r) == ResourceVal(s, r)
  {}

  lemma {:induction false} MadeKeeps(items: seq<int>, after: seq<int>, p: Product, output: real, count: real)
    requires Made(items, after, p, output, count) && Sound(p)
    ensures NoneNegative(after)
    ensures after[CIVIL] == items[CIVIL] && after[MILIT] == items[MILIT] && after[UW] == items[UW]
  {}
}
