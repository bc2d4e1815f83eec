/** Heights: how far from the coast land and sea may be moved up and down, how heights are spread
    over a landmass, and what sectors are made of them. */
module Elevation {
  import opened Basics
  import opened Hex
  import opened Grid
  import opened Rings
  import Bfs
  import Coast
  import Land

  const LANDMIN := 1
  const PLATMIN := 36
  const HIGHMIN := 98
  const I16_MIN := -32768
  const I16_MAX := 32767

  function Clamp16(e: int): int {
    if e < I16_MIN then I16_MIN else if e > I16_MAX then I16_MAX else e
  }

  /** A 32-bit unsigned number read as a signed one. */
  function AsI32(d: int): int {
    if d >= 0x8000_0000 then d - 0x1_0000_0000 else d
  }

  // ---------------------------------------------------------------------------------------------
  // The ball around a sector that is all land or all sea
  // ---------------------------------------------------------------------------------------------

  /** Every coast is at least as far from v as its distance says. */
  lemma {:induction false} CoastNotNearer(w: World, own: seq<int>, n: int, dist: seq<int>, v: int, k: int)
    requires w.Valid() && |own| == |dist| == w.Size() && IsSect(w, v)
    requires Bfs.ExactDistance(w, Coast.CoastSources(w, own, n), dist)
    requires Land.Coastal(w, own, k) && 0 <= own[k] < n
    ensures 0 <= dist[v] <= Dist(w, v, k)
  {
    hide OnMap, PosOf, Rows, Dist, Nb;
    var s := Bfs.Source(k, 0, own[k]);
    var S := Coast.CoastSources(w, own, n);
    assert k in Coast.CoastBelow(w, own, n);
    assert s in S;
    DistFacts(w, k, v);
    var m :| Bfs.Nearest(w, S, m, v) && dist[v] == Bfs.Reach(w, m, v);
    DistFacts(w, m.at, v);
  }

  /** Land lies no nearer to a sea sector than its distance to the coast. */
  lemma {:induction false} SeaBall(w: World, own: seq<int>, n: int, dist: seq<int>, v: int, u: int)
    requires w.Valid() && |own| == |dist| == w.Size() && IsSect(w, v) && IsSect(w, u)
    requires forall x :: 0 <= x < w.Size() ==> Land.SEA <= own[x] < n
    requires Bfs.ExactDistance(w, Coast.CoastSources(w, own, n), dist)
    requires own[v] == Land.SEA && own[u] != Land.SEA
    ensures 0 <= dist[v] <= Dist(w, v, u)
  {
    hide OnMap, PosOf, Rows, Dist, Nb, Bfs.ExactDistance;
    var k := Land.CoastBeforeLand(w, own, v, u);
    CoastNotNearer(w, own, n, dist, v, k);
  }

  /** Sea lies farther from a land sector than its distance to the coast. */
  lemma {:induction false} LandBall(w: World, own: seq<int>, n: int, dist: seq<int>, v: int, u: int)
    requires w.Valid() && |own| == |dist| == w.Size() && IsSect(w, v) && IsSect(w, u)
    requires forall x :: 0 <= x < w.Size() ==> Land.SEA <= own[x] < n
    requires Bfs.ExactDistance(w, Coast.CoastSources(w, own, n), dist)
    requires own[v] != Land.SEA && own[u] == Land.SEA
    ensures 0 <= dist[v] < Dist(w, v, u)
  {
    hide OnMap, PosOf, Rows, Dist, Nb, Bfs.ExactDistance;
    var k := Land.CoastBeforeSea(w, own, v, u);
    CoastNotNearer(w, own, n, dist, v, k);
  }

  /** All sectors within r of v are land if v is, and sea if v is. */
  ghost predicate Pure(w: World, own: seq<int>, v: int, r: int)
    requires w.Valid() && |own| == w.Size() && IsSect(w, v)
  {
    forall u :: IsSect(w, u) && Dist(w, v, u) <= r ==> (own[u] == Land.SEA <==> own[v] == Land.SEA)
  }

  /** The largest roll for the height of a sector: three, or less near the coast. */
  function Roll(land: bool, dist: int): int {
    Smaller(3, AsI32(dist)) + if land then 1 else 0
  }

  /** The rings that go with any roll at v stay on v's side of the coast. */
  lemma {:induction false} RollStaysPure(w: World, own: seq<int>, n: int, dist: seq<int>, v: int, r: int)
    requires w.Valid() && |own| == |dist| == w.Size() && IsSect(w, v)
    requires forall x :: 0 <= x < w.Size() ==> Land.SEA <= own[x] < n
    requires Bfs.ExactDistance(w, Coast.CoastSources(w, own, n), dist)
    requires 1 <= r && (r == 1 || r <= Roll(own[v] != Land.SEA, dist[v]))
    ensures Pure(w, own, v, r - 1)
  {
    hide OnMap, PosOf, Rows, Dist, Nb, Bfs.ExactDistance, Coast.CoastSources;
    forall u | IsSect(w, u) && Dist(w, v, u) <= r - 1
      ensures own[u] == Land.SEA <==> own[v] == Land.SEA
    {
      DistFacts(w, v, u);
      if own[v] == Land.SEA && own[u] != Land.SEA {
        SeaBall(w, own, n, dist, v, u);
      } else if own[v] != Land.SEA && own[u] == Land.SEA {
        LandBall(w, own, n, dist, v, u);
      }
    }
  }

  lemma {:induction false} PureAt(w: World, own: seq<int>, v: int, r: int, u: int)
    requires w.Valid() && |own| == w.Size() && IsSect(w, v) && Pure(w, own, v, r)
    requires IsSect(w, u) && Dist(w, v, u) <= r
    ensures own[u] == Land.SEA <==> own[v] == Land.SEA
  {
    hide OnMap, PosOf, Rows, Dist;
  }

  lemma {:induction false} PureSmaller(w: World, own: seq<int>, v: int, r: int, d: int)
    requires w.Valid() && |own| == w.Size() && IsSect(w, v) && Pure(w, own, v, r) && d <= r
    ensures Pure(w, own, v, d)
  {
    hide OnMap, PosOf, Rows, Dist;
  }

  // ---------------------------------------------------------------------------------------------
  // Staying on one's side of zero
  // ---------------------------------------------------------------------------------------------

  /** Sea is not above, and land not below, zero; heights fit in 16 bits. */
  ghost predicate Sides(own: seq<int>, elev: seq<int>) {
    |own| == |elev|
    && forall v :: 0 <= v < |elev| ==>
         I16_MIN <= elev[v] <= I16_MAX && if own[v] == Land.SEA then elev[v] <= 0 else elev[v] >= 0
  }

  /** No sea sector has risen and no land sector has sunk. */
  ghost predicate NoneCrossed(own: seq<int>, before: seq<int>, after: seq<int>) {
    |own| == |before| == |after|
    && forall v :: 0 <= v < |own| ==> if own[v] == Land.SEA then after[v] <= before[v] else after[v] >= before[v]
  }

  lemma {:induction false} MoveOnSide(own: seq<int>, elev: seq<int>, o: int, amount: int)
    requires Sides(own, elev) && 0 <= o < |elev| && (if own[o] == Land.SEA then amount <= 0 else amount >= 0)
    ensures var elev' := elev[o := Clamp16(elev[o] + amount)];
            Sides(own, elev') && NoneCrossed(own, elev, elev')
  {}

  lemma {:induction false} NoneCrossedStays(own: seq<int>, elev: seq<int>)
    requires |own| == |elev|
    ensures NoneCrossed(own, elev, elev)
  {}

  lemma {:induction false} NoneCrossedJoins(own: seq<int>, a: seq<int>, b: seq<int>, c: seq<int>)
    requires NoneCrossed(own, a, b) && NoneCrossed(own, b, c)
    ensures NoneCrossed(own, a, c)
  {}

  // ---------------------------------------------------------------------------------------------
  // Which sectors move, and how far
  // ---------------------------------------------------------------------------------------------

  /** a is b moved by amount or further, within 16 bits. */
  ghost predicate Shifted(b: int, a: int, amount: int) {
    if amount >= 0 then a >= Clamp16(b + amount) else a <= Clamp16(b + amount)
  }

  /** Exactly the sectors of met have moved, each by amount or, if met again, further. */
  ghost predicate MovedAll(before: seq<int>, after: seq<int>, met: set<int>, amount: int) {
    |before| == |after|
    && forall v :: 0 <= v < |before| ==>
         if v in met then Shifted(before[v], after[v], amount) else after[v] == before[v]
  }

  lemma {:induction false} MovedNext(own: seq<int>, before: seq<int>, now: seq<int>, met: set<int>, amount: int, o: int)
    requires MovedAll(before, now, met, amount) && Sides(own, now) && 0 <= o < |now|
    ensures MovedAll(before, now[o := Clamp16(now[o] + amount)], met + {o}, amount)
  {}

  /** b moved by amount a number of times, each time within 16 bits. */
  function Pushed(b: int, amount: int, times: nat): int {
    if times == 0 then b else Clamp16(Pushed(b, amount, times - 1) + amount)
  }

  /** Every sector has moved as often as it was met. */
  ghost predicate PushedAll(before: seq<int>, after: seq<int>, times: multiset<int>, amount: int) {
    |before| == |after| && forall v :: 0 <= v < |before| ==> after[v] == Pushed(before[v], amount, times[v])
  }

  lemma {:induction false} PushedNext(before: seq<int>, now: seq<int>, times: multiset<int>, amount: int, o: int)
    requires PushedAll(before, now, times, amount) && 0 <= o < |now|
    ensures PushedAll(before, now[o := Clamp16(now[o] + amount)], times + multiset{o}, amount)
  {}

  /** The elevations after everything on the ring of radius d around p has moved, as often as the walk
      around the ring meets it. */
  ghost function RingPushed(w: World, e: seq<int>, p: Pos, d: int, amount: int): (r: seq<int>)
    requires w.Valid() && d >= 1
    ensures |r| == |e|
  {
    seq(|e|, v requires 0 <= v < |e| => Pushed(e[v], amount, RingTimes(w, p, d, 7, 0)[v]))
  }

  lemma {:induction false} PushedIsRing(w: World, before: seq<int>, after: seq<int>, p: Pos, d: int, amount: int)
    requires w.Valid() && d >= 1 && PushedAll(before, after, RingTimes(w, p, d, 7, 0), amount)
    ensures after == RingPushed(w, before, p, d, amount)
  {}

  /** The elevations after a blow of radius r at o has moved the centre and the rings nearer than d. */
  ghost function Blown(w: World, e: seq<int>, o: int, r: int, land: bool, d: nat): (b: seq<int>)
    requires w.Valid() && 0 <= o < |e|
    ensures |b| == |e|
  {
    if d <= 1 then e[o := Clamp16(e[o] + LiftBy(r, 0, land))]
    else RingPushed(w, Blown(w, e, o, r, land, d - 1), PosOf(w, o), d - 1, LiftBy(r, d - 1, land))
  }

  /** The ring of radius d around o moved by amount or further; nothing beyond it moved. */
  ghost predicate RingMoved(w: World, before: seq<int>, after: seq<int>, o: int, d: int, amount: int)
    requires w.Valid()
  {
    |before| == |after|
    && forall v :: 0 <= v < |before| ==>
         (IsSect(w, v) && Dist(w, o, v) == d ==> Shifted(before[v], after[v], amount))
         && (!(IsSect(w, v) && Dist(w, o, v) <= d) ==> after[v] == before[v])
         && (if amount >= 0 then after[v] >= before[v] else after[v] <= before[v])
  }

  lemma {:induction false} RingMovedBy(w: World, own: seq<int>, before: seq<int>, after: seq<int>, met: set<int>,
                                       o: int, d: int, amount: int)
    requires w.Valid() && Sides(own, before) && MovedAll(before, after, met, amount) && |before| == w.Size()
    requires forall v :: v in met ==> IsSect(w, v) && Dist(w, o, v) <= d
    requires forall v :: IsSect(w, v) && Dist(w, o, v) == d ==> v in met
    ensures RingMoved(w, before, after, o, d, amount)
  {
    hide Dist, OnMap, PosOf, Rows;
  }

  /** How far the ground moves at distance d from the centre of a blow of radius r. */
  function Lift(r: int, d: int): int {
    r * r - d * d
  }

  function LiftBy(r: int, d: int, land: bool): int {
    if land then Lift(r, d) else -Lift(r, d)
  }

  ghost predicate InReach(w: World, o: int, r: int, v: int)
    requires w.Valid()
  {
    v == o || (IsSect(w, o) && IsSect(w, v) && Dist(w, o, v) < r)
  }

  ghost function Away(w: World, o: int, v: int): int
    requires w.Valid()
  {
    if v == o then 0 else Dist(w, o, v)
  }

  /** A blow of radius r at o: everything nearer than r moves on o's side, by the less the farther it is,
      and nothing else moves. */
  ghost predicate Struck(w: World, own: seq<int>, before: seq<int>, after: seq<int>, o: int, r: int)
    requires w.Valid()
  {
    |own| == |before| == |after| && 0 <= o < |own|
    && forall v :: 0 <= v < |own| ==>
         if InReach(w, o, r, v) then Shifted(before[v], after[v], LiftBy(r, Away(w, o, v), own[o] != Land.SEA))
         else after[v] == before[v]
  }

  lemma {:induction false} LiftSigns(r: int, d: int)
    requires 0 <= d < r
    ensures Lift(r, d) > 0 && LiftBy(r, d, true) > 0 && LiftBy(r, d, false) < 0
  {
    SquareOrder(d, r);
  }

  lemma {:induction false} SquareOrder(d: int, r: int)
    requires 0 <= d < r
    ensures d * d < r * r
  {
    assert r * r - d * d == (r - d) * (r + d);
  }

  /** The first blow of a strike hits its centre only. */
  lemma {:induction false} StruckCentre(w: World, own: seq<int>, before: seq<int>, o: int, r: int)
    requires w.Valid() && |own| == |before| == w.Size() && 0 <= o < |own| && r >= 1
    ensures var after := before[o := Clamp16(before[o] + LiftBy(r, 0, own[o] != Land.SEA))];
            StruckSoFar(w, own, before, after, o, r, 1)
  {
    hide OnMap, PosOf, Rows, Lift;
    LiftSigns(r, 0);
    if IsSect(w, o) {
      forall v | IsSect(w, v) && Dist(w, o, v) < 1
        ensures v == o
      {
        DistFacts(w, o, v);
      }
    }
  }

  /** The sectors nearer than d have moved, by as much as a blow of radius r moves them. */
  ghost predicate StruckSoFar(w: World, own: seq<int>, before: seq<int>, after: seq<int>, o: int, r: int, d: int)
    requires w.Valid()
  {
    |own| == |before| == |after| && 0 <= o < |own|
    && forall v :: 0 <= v < |own| ==>
         if InReach(w, o, d, v) then Shifted(before[v], after[v], LiftBy(r, Away(w, o, v), own[o] != Land.SEA))
         else after[v] == before[v]
  }

  lemma {:induction false} StruckRing(w: World, own: seq<int>, before: seq<int>, mid: seq<int>, after: seq<int>,
                                      o: int, r: int, d: int)
    requires w.Valid() && StruckSoFar(w, own, before, mid, o, r, d) && 1 <= d < r && IsSect(w, o) && |own| == w.Size()
    requires RingMoved(w, mid, after, o, d, LiftBy(r, d, own[o] != Land.SEA))
    ensures StruckSoFar(w, own, before, after, o, r, d + 1)
  {
    hide OnMap, PosOf, Rows, Lift, Dist, Clamp16;
    LiftSigns(r, d);
    forall v | 0 <= v < |own|
      ensures if InReach(w, o, d + 1, v) then Shifted(before[v], after[v], LiftBy(r, Away(w, o, v), own[o] != Land.SEA))
              else after[v] == before[v]
    {
      if InReach(w, o, d, v) {
        assert Shifted(before[v], mid[v], LiftBy(r, Away(w, o, v), own[o] != Land.SEA));
        AwayNear(w, o, d, v);
        LiftSigns(r, Away(w, o, v));
      }
    }
  }

  lemma {:induction false} AllStruck(w: World, own: seq<int>, before: seq<int>, after: seq<int>, o: int, r: int)
    requires w.Valid() && StruckSoFar(w, own, before, after, o, r, r)
    ensures Struck(w, own, before, after, o, r)
  {
    hide OnMap, PosOf, Rows, Lift, Dist, Clamp16;
  }

  lemma {:induction false} AwayNear(w: World, o: int, d: int, v: int)
    requires w.Valid() && d >= 1 && InReach(w, o, d, v)
    ensures 0 <= Away(w, o, v) < d
  {
    if v != o {
      DistFacts(w, o, v);
    }
  }

  // ---------------------------------------------------------------------------------------------
  // Spreading heights
  // ---------------------------------------------------------------------------------------------

  /** k steps of delta. */
  function Steps(delta: real, k: nat): real {
    if k == 0 then 0.0 else Steps(delta, k - 1) + delta
  }

  lemma {:induction false} StepsIsProduct(delta: real, k: nat)
    ensures Steps(delta, k) == delta * k as real
  {
    if k > 0 {
      StepsIsProduct(delta, k - 1);
      assert delta * k as real == delta * ((k - 1) as real) + delta;
    }
  }

  lemma {:induction false} StepsMono(delta: real, a: nat, b: nat)
    requires delta >= 0.0 && a <= b
    ensures Steps(delta, a) <= Steps(delta, b)
  {
    if a < b {
      StepsMono(delta, a, b - 1);
    }
  }

  lemma {:induction false} StepsSpan(span: real, n: nat)
    requires n >= 1 && span >= 0.0
    ensures span / n as real >= 0.0 && Steps(span / n as real, n) == span
  {
    StepsIsProduct(span / n as real, n);
  }

  function AtLeastOne(n: int): int {
    if n < 1 then 1 else n
  }

  /** The height of the i-th lowest of n sectors of which the last n - plain are mountains. */
  function Height(plain: nat, maxMountains: int, i: nat): int {
    if i < plain then
      ((LANDMIN as real) + Steps(96.0 / (AtLeastOne(plain) as real), i) + 0.5).Floor
    else
      ((HIGHMIN as real) + Steps(29.0 / (AtLeastOne(maxMountains) as real), i - plain + 1) + 0.5).Floor
  }

  /** Plains lie below the mountains, and everything is land. */
  lemma {:induction false} HeightBounds(plain: nat, maxMountains: int, i: nat)
    requires i < plain || i - plain < AtLeastOne(maxMountains)
    ensures i < plain ==> LANDMIN <= Height(plain, maxMountains, i) < HIGHMIN
    ensures i >= plain ==> HIGHMIN <= Height(plain, maxMountains, i) <= 127
  {
    if i < plain {
      StepsSpan(96.0, AtLeastOne(plain));
      StepsMono(96.0 / AtLeastOne(plain) as real, 0, i);
      StepsMono(96.0 / AtLeastOne(plain) as real, i, plain);
    } else {
      StepsSpan(29.0, AtLeastOne(maxMountains));
      StepsMono(29.0 / AtLeastOne(maxMountains) as real, 0, i - plain + 1);
      StepsMono(29.0 / AtLeastOne(maxMountains) as real, i - plain + 1, AtLeastOne(maxMountains));
    }
  }

  lemma {:induction false} HeightMono(plain: nat, maxMountains: int, i: nat, j: nat)
    requires i <= j && (j < plain || j - plain < AtLeastOne(maxMountains))
    ensures Height(plain, maxMountains, i) <= Height(plain, maxMountains, j)
  {
    HeightBounds(plain, maxMountains, i);
    HeightBounds(plain, maxMountains, j);
    if j < plain {
      StepsSpan(96.0, AtLeastOne(plain));
      StepsMono(96.0 / AtLeastOne(plain) as real, i, j);
    } else if i >= plain {
      StepsSpan(29.0, AtLeastOne(maxMountains));
      StepsMono(29.0 / AtLeastOne(maxMountains) as real, i - plain + 1, j - plain + 1);
    }
  }

  // ---------------------------------------------------------------------------------------------
  // Sorting offsets by height
  // ---------------------------------------------------------------------------------------------

  predicate Lesser(elev: seq<int>, a: int, b: int)
    requires 0 <= a < |elev| && 0 <= b < |elev|
  {
    elev[a] < elev[b] || (elev[a] == elev[b] && a <= b)
  }

  ghost predicate InElev(elev: seq<int>, offs: seq<int>) {
    forall i :: 0 <= i < |offs| ==> 0 <= offs[i] < |elev|
  }

  ghost predicate SortedByElev(elev: seq<int>, offs: seq<int>)
    requires InElev(elev, offs)
  {
    forall i, j :: 0 <= i < j < |offs| ==> Lesser(elev, offs[i], offs[j])
  }

  function InsertByElev(elev: seq<int>, offs: seq<int>, o: int): seq<int>
    requires InElev(elev, offs) && 0 <= o < |elev|
  {
    if offs == [] || Lesser(elev, offs[|offs| - 1], o) then offs + [o]
    else InsertByElev(elev, offs[..|offs| - 1], o) + [offs[|offs| - 1]]
  }

  lemma {:induction false} InsertByElevKeeps(elev: seq<int>, offs: seq<int>, o: int)
    requires InElev(elev, offs) && 0 <= o < |elev| && SortedByElev(elev, offs)
    ensures var r := InsertByElev(elev, offs, o);
            multiset(r) == multiset(offs) + multiset{o} && InElev(elev, r) && SortedByElev(elev, r)
  {
    if offs == [] || Lesser(elev, offs[|offs| - 1], o) {
    } else {
      var rest, last := offs[..|offs| - 1], offs[|offs| - 1];
      InsertByElevKeeps(elev, rest, o);
      var r := InsertByElev(elev, rest, o);
      assert offs == rest + [last];
      forall i | 0 <= i < |r|
        ensures 0 <= r[i] < |elev| && Lesser(elev, r[i], last)
      {
        assert r[i] in multiset(r);
        assert r[i] == o || r[i] in rest;
      }
    }
  }

  function SortByElev(elev: seq<int>, offs: seq<int>): (r: seq<int>)
    requires InElev(elev, offs)
    ensures multiset(r) == multiset(offs) && InElev(elev, r) && SortedByElev(elev, r)
  {
    if offs == [] then []
    else
      var rest := SortByElev(elev, offs[..|offs| - 1]);
      assert offs == offs[..|offs| - 1] + [offs[|offs| - 1]];
      InsertByElevKeeps(elev, rest, offs[|offs| - 1]);
      InsertByElev(elev, rest, offs[|offs| - 1])
  }

  /** Sorting keeps distinct offsets distinct. */
  lemma {:induction false} SortedDistinct(elev: seq<int>, offs: seq<int>)
    requires InElev(elev, offs) && Bfs.Distinct(offs)
    ensures Bfs.Distinct(SortByElev(elev, offs)) && |SortByElev(elev, offs)| == |offs|
    ensures forall v :: v in SortByElev(elev, offs) <==> v in offs
  {
    var r := SortByElev(elev, offs);
    assert |multiset(r)| == |multiset(offs)|;
    DistinctMultiset(offs);
    MultisetDistinct(r);
    forall v
      ensures v in r <==> v in offs
    {
      assert v in r <==> v in multiset(r);
      assert v in offs <==> v in multiset(offs);
    }
  }

  lemma {:induction false} DistinctMultiset(s: seq<int>)
    requires Bfs.Distinct(s)
    ensures forall v :: multiset(s)[v] <= 1
  {
    if s != [] {
      var rest, last := s[..|s| - 1], s[|s| - 1];
      assert s == rest + [last];
      DistinctMultiset(rest);
      assert last !in rest;
    }
  }

  lemma {:induction false} MultisetDistinct(s: seq<int>)
    requires forall v :: multiset(s)[v] <= 1
    ensures Bfs.Distinct(s)
  {
    if s != [] {
      var rest, last := s[..|s| - 1], s[|s| - 1];
      assert s == rest + [last];
      assert multiset(s) == multiset(rest) + multiset{last};
      forall v
        ensures multiset(rest)[v] <= 1
      {
        assert multiset(s)[v] >= multiset(rest)[v];
      }
      MultisetDistinct(rest);
      assert multiset(s)[last] == multiset(rest)[last] + 1;
      assert last !in multiset(rest);
      assert last !in rest;
    }
  }

  // ---------------------------------------------------------------------------------------------
  // Depths
  // ---------------------------------------------------------------------------------------------

  /** The depth e < 0 scaled so that the deepest, min, becomes -127 and the shallowest stay below
      zero. The quotient of two negative numbers is cut off toward zero. */
  function Depth(e: int, min: int): int
    requires min < 0
  {
    -1 - (126 * (-e)) / (-min)
  }

  /** min is the least height below zero, or zero if there is none. */
  ghost predicate IsDeepest(elev: seq<int>, min: int) {
    min <= 0 && (forall v :: 0 <= v < |elev| ==> min <= elev[v] || elev[v] >= 0)
    && (min < 0 ==> exists v :: 0 <= v < |elev| && elev[v] == min)
  }

  /** Depths are scaled in proportion, cut off to whole numbers, and keep their order. */
  lemma {:induction false} DepthIsShare(e: int, e': int, min: int)
    requires min <= e <= e' < 0
    ensures -(Depth(e, min) + 1) * -min <= 126 * -e < -Depth(e, min) * -min
    ensures Depth(e, min) <= Depth(e', min)
  {
    var m, k, k' := -min, -(Depth(e, min) + 1), -(Depth(e', min) + 1);
    DivModDef(126 * -e, m);
    DivModDef(126 * -e', m);
    MulDistributes(m, k, -1);
    if k < k' {
      MulMono(m, k + 1, k');
    }
  }

  lemma {:induction false} DepthBounds(e: int, min: int)
    requires min <= e < 0
    ensures -127 <= Depth(e, min) <= -1 && Depth(min, min) == -127
  {
    DivAtMost(126 * (-e), -min, 126);
    DivAtMost(126 * (-min), -min, 126);
  }

  // ---------------------------------------------------------------------------------------------
  // Shares of mountains
  // ---------------------------------------------------------------------------------------------

  /** pm percent of n. */
  function Percent(pm: nat, n: nat): nat {
    DivAtMostNonneg(pm * n, 100);
    (pm * n) / 100
  }

  lemma {:induction false} DivAtMostNonneg(x: int, m: int)
    requires m > 0
    ensures x >= 0 ==> x / m >= 0
  {}

  lemma {:induction false} PercentMono(pm: nat, a: nat, b: nat)
    requires a <= b
    ensures Percent(pm, a) <= Percent(pm, b)
  {
    MulMono(pm, a, b);
  }

  // ---------------------------------------------------------------------------------------------
  // Sector types
  // ---------------------------------------------------------------------------------------------

  datatype SectorType = Sea | Wilderness | Mountain

  function TypeOf(e: int): SectorType {
    if e < LANDMIN then Sea else if e < HIGHMIN then Wilderness else Mountain
  }
}
