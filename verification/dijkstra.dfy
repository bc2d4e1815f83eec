/** Costs of moving between a distribution centre and the sectors around it. */
module Dijkstra {
  import opened Basics
  import opened Hex
  import opened Game

  datatype Entry = Entry(key: int, at: Pos)

  /** What it costs to enter the sector at p, or None if there is no sector, it has another owner, or
      nothing can move there. */
  function EntryCost(sectors: seq<Sector>, cmap: map<Pos, int>, own: int, p: Pos): (r: Option<int>)
    requires Indexed(sectors, cmap)
    ensures r.Some? ==> p in cmap && sectors[cmap[p]].own == own && r.value >= 1
  {
    if p !in cmap then None
    else
      var s := sectors[cmap[p]];
      if s.own != own then None
      else if MCost(s.sectorType, s.effic) < 0 then None
      else Some(MCost(s.sectorType, s.effic))
  }

  /** A centre that exists and belongs to the right owner; the centre itself need not be passable. */
  ghost predicate IsCentre(sectors: seq<Sector>, cmap: map<Pos, int>, own: int, c: Pos)
    requires Indexed(sectors, cmap)
  {
    c in cmap && sectors[cmap[c]].own == own
  }

  /** A route from the centre: each sector after the first is entered from a neighbour. */
  ghost predicate IsRoute(w: World, sectors: seq<Sector>, cmap: map<Pos, int>, own: int, c: Pos, route: seq<Pos>)
    requires w.Valid() && Indexed(sectors, cmap)
    decreases |route|
  {
    if |route| <= 1 then |route| == 1 && route[0] == c && IsCentre(sectors, cmap, own, c)
    else
      var n := |route| - 1;
      IsRoute(w, sectors, cmap, own, c, route[..n])
      && Leads(w, route[n - 1], route[n])
      && EntryCost(sectors, cmap, own, route[n]).Some?
  }

  ghost predicate Leads(w: World, p: Pos, q: Pos)
    requires w.Valid()
  {
    exists d :: 1 <= d <= 6 && Step(w, p, d) == q
  }

  /** The sum of the costs of entering the sectors of a route after the first. */
  ghost function RouteCost(w: World, sectors: seq<Sector>, cmap: map<Pos, int>, own: int, c: Pos, route: seq<Pos>): int
    requires w.Valid() && Indexed(sectors, cmap) && IsRoute(w, sectors, cmap, own, c, route)
    decreases |route|
  {
    if |route| == 1 then 0
    else
      var n := |route| - 1;
      RouteCost(w, sectors, cmap, own, c, route[..n]) + EntryCost(sectors, cmap, own, route[n]).value
  }

  /** Some route ends at q and costs d. */
  ghost predicate Reaches(w: World, sectors: seq<Sector>, cmap: map<Pos, int>, own: int, c: Pos, q: Pos, d: int)
    requires w.Valid() && Indexed(sectors, cmap)
  {
    exists route :: IsRoute(w, sectors, cmap, own, c, route) && route[|route| - 1] == q
                    && RouteCost(w, sectors, cmap, own, c, route) == d
  }

  /** Exactly the sectors that can be reached have a cost, and it is the least of all routes. */
  ghost predicate LeastCosts(w: World, sectors: seq<Sector>, cmap: map<Pos, int>, own: int, c: Pos, dist: map<Pos, int>)
    requires w.Valid() && Indexed(sectors, cmap)
  {
    (forall q :: q in dist ==> Reaches(w, sectors, cmap, own, c, q, dist[q]))
    && forall route :: IsRoute(w, sectors, cmap, own, c, route) ==>
         route[|route| - 1] in dist && dist[route[|route| - 1]] <= RouteCost(w, sectors, cmap, own, c, route)
  }

  // ---------------------------------------------------------------------------------------------
  // Invariants of the search
  // ---------------------------------------------------------------------------------------------

  ghost predicate Pending(heap: multiset<Entry>, p: Pos) {
    exists e :: e in heap && e.at == p
  }

  /** The edge from p in direction d promises nothing cheaper. */
  ghost predicate Settled(w: World, sectors: seq<Sector>, cmap: map<Pos, int>, own: int, dist: map<Pos, int>, p: Pos,
                          d: int)
    requires w.Valid() && Indexed(sectors, cmap) && p in dist
  {
    var q := Step(w, p, d);
    EntryCost(sectors, cmap, own, q).Some? ==>
      q in dist && dist[q] <= dist[p] + EntryCost(sectors, cmap, own, q).value
  }

  /** Costs are costs of routes, and every sector is settled or pending, except that the edges of `at`
      from direction dir on may be neither. */
  ghost predicate Searching(w: World, sectors: seq<Sector>, cmap: map<Pos, int>, own: int, c: Pos,
                            dist: map<Pos, int>, heap: multiset<Entry>, at: Option<Pos>, dir: int)
    requires w.Valid() && Indexed(sectors, cmap)
  {
    (IsCentre(sectors, cmap, own, c) <==> c in dist) && (c in dist ==> dist[c] <= 0)
    && (forall q :: q in dist ==> q in cmap && dist[q] >= 0 && Reaches(w, sectors, cmap, own, c, q, dist[q]))
    && (forall e :: e in heap ==> e.at in dist)
    && forall p, d :: p in dist && 1 <= d <= 6 && !Pending(heap, p) && (at != Some(p) || d < dir) ==>
         Settled(w, sectors, cmap, own, dist, p, d)
  }

  lemma {:induction false} ExtendRoute(w: World, sectors: seq<Sector>, cmap: map<Pos, int>, own: int, c: Pos, p: Pos,
                                       d: int, q: Pos)
    requires w.Valid() && Indexed(sectors, cmap) && Reaches(w, sectors, cmap, own, c, p, d)
    requires Leads(w, p, q) && EntryCost(sectors, cmap, own, q).Some?
    ensures Reaches(w, sectors, cmap, own, c, q, d + EntryCost(sectors, cmap, own, q).value)
  {
    hide EntryCost, Leads;
    var route :| IsRoute(w, sectors, cmap, own, c, route) && route[|route| - 1] == p
                 && RouteCost(w, sectors, cmap, own, c, route) == d;
    var longer := route + [q];
    var n := |longer| - 1;
    assert longer[..n] == route && longer[n] == q && longer[n - 1] == p;
    assert IsRoute(w, sectors, cmap, own, c, longer);
    assert RouteCost(w, sectors, cmap, own, c, longer) == d + EntryCost(sectors, cmap, own, q).value;
  }

  /** One edge: a cheaper cost is stored and queued. */
  lemma {:induction false} RelaxKeeps(w: World, sectors: seq<Sector>, cmap: map<Pos, int>, own: int, c: Pos,
                   dist: map<Pos, int>, heap: multiset<Entry>, p: Pos, dir: int, key: int)
    requires w.Valid() && Indexed(sectors, cmap) && 1 <= dir <= 6 && p in dist
    requires Searching(w, sectors, cmap, own, c, dist, heap, Some(p), dir)
    requires EntryCost(sectors, cmap, own, Step(w, p, dir)).Some?
    requires var q := Step(w, p, dir); var cost := dist[p] + EntryCost(sectors, cmap, own, q).value;
             q !in dist || cost < dist[q]
    ensures var q := Step(w, p, dir); var cost := dist[p] + EntryCost(sectors, cmap, own, q).value;
            q != p
            && Searching(w, sectors, cmap, own, c, dist[q := cost], heap + multiset{Entry(key, q)}, Some(p), dir + 1)
  {
    hide Step, EntryCost, Indexed;
    var q := Step(w, p, dir);
    var cost := dist[p] + EntryCost(sectors, cmap, own, q).value;
    var dist', heap' := dist[q := cost], heap + multiset{Entry(key, q)};
    assert Leads(w, p, q);
    ExtendRoute(w, sectors, cmap, own, c, p, dist[p], q);
    assert Entry(key, q) in heap';
    assert forall e :: e in heap ==> e in heap';
    hide Reaches, Leads;
    forall r, d | r in dist' && 1 <= d <= 6 && !Pending(heap', r) && (Some(p) != Some(r) || d < dir + 1)
      ensures Settled(w, sectors, cmap, own, dist', r, d)
    {
      assert r != q && !Pending(heap, r);
      if r != p || d < dir {
        assert Settled(w, sectors, cmap, own, dist, r, d);
      }
    }
  }

  /** One edge that promises nothing cheaper, or cannot be taken. */
  lemma {:induction false} SkipKeeps(w: World, sectors: seq<Sector>, cmap: map<Pos, int>, own: int, c: Pos,
                  dist: map<Pos, int>, heap: multiset<Entry>, p: Pos, dir: int)
    requires w.Valid() && Indexed(sectors, cmap) && 1 <= dir <= 6 && p in dist
    requires Searching(w, sectors, cmap, own, c, dist, heap, Some(p), dir)
    requires Settled(w, sectors, cmap, own, dist, p, dir)
    ensures Searching(w, sectors, cmap, own, c, dist, heap, Some(p), dir + 1)
  {
    hide Step, EntryCost, IsCentre, Indexed, Reaches, Settled;
  }

  lemma {:induction false} StillPending(heap: multiset<Entry>, e: Entry, p: Pos)
    requires e in heap && p != e.at
    ensures Pending(heap, p) ==> Pending(heap - multiset{e}, p)
  {
    if f :| f in heap && f.at == p {
      assert f in heap - multiset{e};
    }
  }

  /** An entry is taken out: its sector's edges are looked at next. */
  lemma {:induction false} PopKeeps(w: World, sectors: seq<Sector>, cmap: map<Pos, int>, own: int, c: Pos,
                 dist: map<Pos, int>, heap: multiset<Entry>, e: Entry)
    requires w.Valid() && Indexed(sectors, cmap) && e in heap
    requires Searching(w, sectors, cmap, own, c, dist, heap, None, 1)
    ensures e.at in dist
    ensures Searching(w, sectors, cmap, own, c, dist, heap - multiset{e}, Some(e.at), 1)
  {
    hide Step, EntryCost, IsCentre, Indexed, Reaches, Settled, Pending;
    forall p | p != e.at
      ensures Pending(heap, p) ==> Pending(heap - multiset{e}, p)
    {
      StillPending(heap, e, p);
    }
  }

  lemma {:induction false} DoneWith(w: World, sectors: seq<Sector>, cmap: map<Pos, int>, own: int, c: Pos,
                 dist: map<Pos, int>, heap: multiset<Entry>, p: Pos)
    requires w.Valid() && Indexed(sectors, cmap)
    requires Searching(w, sectors, cmap, own, c, dist, heap, Some(p), 7)
    ensures Searching(w, sectors, cmap, own, c, dist, heap, None, 1)
  {
    hide Step, EntryCost, IsCentre, Indexed, Reaches, Settled;
  }

  lemma {:induction false} NoCheaperRoute(w: World, sectors: seq<Sector>, cmap: map<Pos, int>, own: int, c: Pos,
                                          dist: map<Pos, int>, route: seq<Pos>)
    requires w.Valid() && Indexed(sectors, cmap)
    requires Searching(w, sectors, cmap, own, c, dist, multiset{}, None, 1)
    requires IsRoute(w, sectors, cmap, own, c, route)
    ensures |route| >= 1 && route[|route| - 1] in dist
    ensures dist[route[|route| - 1]] <= RouteCost(w, sectors, cmap, own, c, route)
    decreases |route|
  {
    hide EntryCost, Indexed, Reaches, Step;
    if |route| > 1 {
      var n := |route| - 1;
      NoCheaperRoute(w, sectors, cmap, own, c, dist, route[..n]);
      var d :| 1 <= d <= 6 && Step(w, route[n - 1], d) == route[n];
      assert route[..n][n - 1] == route[n - 1];
      assert !Pending(multiset{}, route[n - 1]);
      assert Settled(w, sectors, cmap, own, dist, route[n - 1], d);
    }
  }

  lemma {:induction false} FinishedIsLeast(w: World, sectors: seq<Sector>, cmap: map<Pos, int>, own: int, c: Pos,
                                           dist: map<Pos, int>)
    requires w.Valid() && Indexed(sectors, cmap)
    requires Searching(w, sectors, cmap, own, c, dist, multiset{}, None, 1)
    ensures LeastCosts(w, sectors, cmap, own, c, dist)
  {
    forall route | IsRoute(w, sectors, cmap, own, c, route)
      ensures route[|route| - 1] in dist && dist[route[|route| - 1]] <= RouteCost(w, sectors, cmap, own, c, route)
    {
      NoCheaperRoute(w, sectors, cmap, own, c, dist, route);
    }
  }

  // ---------------------------------------------------------------------------------------------
  // Progress
  // ---------------------------------------------------------------------------------------------

  ghost function CostAt(dist: map<Pos, int>, p: Pos): int {
    if p in dist then dist[p] else 0
  }

  ghost function CostSum(sectors: seq<Sector>, dist: map<Pos, int>): int {
    if sectors == [] then 0
    else CostSum(sectors[..|sectors| - 1], dist) + CostAt(dist, PosOfSector(sectors[|sectors| - 1]))
  }

  lemma {:induction false} CostSumBound(sectors: seq<Sector>, dist: map<Pos, int>)
    requires forall q :: q in dist ==> dist[q] >= 0
    ensures CostSum(sectors, dist) >= 0
  {
    if sectors != [] {
      CostSumBound(sectors[..|sectors| - 1], dist);
    }
  }

  /** Lowering a cost lowers the sum of the costs. */
  lemma {:induction false} CostSumDrops(sectors: seq<Sector>, dist: map<Pos, int>, q: Pos, d: int, i: int)
    requires q in dist && d < dist[q] && 0 <= i <= |sectors|
    requires i < |sectors| ==> PosOfSector(sectors[i]) == q
    ensures CostSum(sectors, dist[q := d]) <= CostSum(sectors, dist)
    ensures i < |sectors| ==> CostSum(sectors, dist[q := d]) < CostSum(sectors, dist)
  {
    if sectors != [] {
      var n := |sectors| - 1;
      CostSumDrops(sectors[..n], dist, q, d, if i < n then i else n);
    }
  }

  lemma {:induction false} CheapestExists(heap: multiset<Entry>) returns (e: Entry)
    requires |heap| > 0
    ensures e in heap && forall f :: f in heap ==> e.key <= f.key
    decreases |heap|
  {
    e :| e in heap;
    var rest := heap - multiset{e};
    assert forall f :: f in heap ==> f == e || f in rest;
    if |rest| > 0 {
      var r := CheapestExists(rest);
      if r.key < e.key {
        e := r;
      }
    }
  }

  // ---------------------------------------------------------------------------------------------
  // The search
  // ---------------------------------------------------------------------------------------------

  ghost predicate Cheapest(heap: multiset<Entry>, e: Entry) {
    e in heap && forall f :: f in heap ==> e.key <= f.key
  }

  method PopCheapest(heap: multiset<Entry>) returns (e: Entry, rest: multiset<Entry>)
    requires |heap| > 0
    ensures Cheapest(heap, e) && rest == heap - multiset{e} && |rest| < |heap|
  {
    ghost var least := CheapestExists(heap);
    assert least in heap;
    e :| e in heap && forall f :: f in heap ==> e.key <= f.key;
    rest := heap - multiset{e};
  }

  /** One step of progress: more sectors reached, or the same with lower costs, or those with fewer entries. */
  ghost predicate Progress(sectors: seq<Sector>, before: map<Pos, int>, n: nat, after: map<Pos, int>, m: nat) {
    before.Keys <= after.Keys
    && (before.Keys != after.Keys || CostSum(sectors, after) < CostSum(sectors, before)
        || (CostSum(sectors, after) == CostSum(sectors, before) && m < n))
  }

  /** Looks at the six edges out of p. */
  method ScanEdges(w: World, sectors: seq<Sector>, cmap: map<Pos, int>, own: int, ghost c: Pos,
                   dist0: map<Pos, int>, heap0: multiset<Entry>, p: Pos, ghost n: nat)
    returns (dist: map<Pos, int>, heap: multiset<Entry>)
    requires w.Valid() && Indexed(sectors, cmap) && p in dist0 && |heap0| < n
    requires Searching(w, sectors, cmap, own, c, dist0, heap0, Some(p), 1)
    ensures Searching(w, sectors, cmap, own, c, dist, heap, None, 1)
    ensures Progress(sectors, dist0, n, dist, |heap|)
  {
    hide Searching, Indexed, Step;
    dist, heap := dist0, heap0;
    for dir := 1 to 7
      invariant p in dist && dist[p] == dist0[p]
      invariant Searching(w, sectors, cmap, own, c, dist, heap, Some(p), dir)
      invariant Progress(sectors, dist0, n, dist, |heap|)
    {
      var q := Step(w, p, dir);
      var edge := EntryCost(sectors, cmap, own, q);
      if edge.Some? && (q !in dist || dist[p] + edge.value < dist[q]) {
        var cost := dist[p] + edge.value;
        RelaxKeeps(w, sectors, cmap, own, c, dist, heap, p, dir, cost * 1000);
        if q in dist {
          ReachedAreSectors(w, sectors, cmap, own, c, dist, heap, Some(p), dir, q);
          CostSumDrops(sectors, dist, q, cost, cmap[q]);
        }
        dist := dist[q := cost];
        heap := heap + multiset{Entry(cost * 1000, q)};
      } else {
        SkipKeeps(w, sectors, cmap, own, c, dist, heap, p, dir);
      }
    }
    DoneWith(w, sectors, cmap, own, c, dist, heap, p);
  }

  lemma {:induction false} ReachedAreSectors(w: World, sectors: seq<Sector>, cmap: map<Pos, int>, own: int, c: Pos,
                          dist: map<Pos, int>, heap: multiset<Entry>, at: Option<Pos>, dir: int, q: Pos)
    requires w.Valid() && Indexed(sectors, cmap) && q in dist
    requires Searching(w, sectors, cmap, own, c, dist, heap, at, dir)
    ensures q in cmap && 0 <= cmap[q] < |sectors| && PosOfSector(sectors[cmap[q]]) == q
  {}

  lemma {:induction false} CostsAreBounded(w: World, sectors: seq<Sector>, cmap: map<Pos, int>, own: int, c: Pos,
                        dist: map<Pos, int>, heap: multiset<Entry>)
    requires w.Valid() && Indexed(sectors, cmap)
    requires Searching(w, sectors, cmap, own, c, dist, heap, None, 1)
    ensures dist.Keys <= cmap.Keys && CostSum(sectors, dist) >= 0
  {
    CostSumBound(sectors, dist);
  }

  lemma {:induction false} SearchStarts(w: World, sectors: seq<Sector>, cmap: map<Pos, int>, own: int, c: Pos)
    requires w.Valid() && Indexed(sectors, cmap)
    ensures IsCentre(sectors, cmap, own, c) ==>
              Searching(w, sectors, cmap, own, c, map[c := 0], multiset{Entry(0, c)}, None, 1)
    ensures !IsCentre(sectors, cmap, own, c) ==>
              Searching(w, sectors, cmap, own, c, map[], multiset{}, None, 1)
  {
    hide EntryCost, Step;
    if IsCentre(sectors, cmap, own, c) {
      assert IsRoute(w, sectors, cmap, own, c, [c]);
      assert Entry(0, c) in multiset{Entry(0, c)};
    }
  }

  /** Finds the least cost of reaching each sector from the centre. A sector whose cost drops is queued
      again, and entries with an outdated key are looked at again. */
  method DijkstraDist(w: World, sectors: seq<Sector>, cmap: map<Pos, int>, own: int, c: Pos)
    returns (dist: map<Pos, int>)
    requires w.Valid() && Indexed(sectors, cmap)
    ensures LeastCosts(w, sectors, cmap, own, c, dist)
    ensures forall q :: q in dist ==> q in cmap && dist[q] >= 0
  {
    hide Searching, LeastCosts, Indexed, Step;
    dist := map[];
    var heap: multiset<Entry> := multiset{};
    SearchStarts(w, sectors, cmap, own, c);
    if c in cmap && SectorAt(sectors, cmap, c).own == own {
      dist := map[c := 0];
      heap := multiset{Entry(0, c)};
    }
    CostsAreBounded(w, sectors, cmap, own, c, dist, heap);
    while |heap| > 0
      invariant Searching(w, sectors, cmap, own, c, dist, heap, None, 1)
      invariant dist.Keys <= cmap.Keys && CostSum(sectors, dist) >= 0
      decreases cmap.Keys - dist.Keys, CostSum(sectors, dist), |heap|
    {
      ghost var keys := dist.Keys;
      var e, rest := PopCheapest(heap);
      PopKeeps(w, sectors, cmap, own, c, dist, heap, e);
      dist, heap := ScanEdges(w, sectors, cmap, own, c, dist, rest, e.at, |heap|);
      CostsAreBounded(w, sectors, cmap, own, c, dist, heap);
      FewerUnreached(cmap.Keys, keys, dist.Keys);
    }
    assert heap == multiset{};
    FinishedIsLeast(w, sectors, cmap, own, c, dist);
    CostsAreSectors(w, sectors, cmap, own, c, dist);
  }

  lemma {:induction false} FewerUnreached(all: set<Pos>, before: set<Pos>, after: set<Pos>)
    requires before <= after <= all
    ensures before != after ==> all - after < all - before
    ensures before == after ==> all - after == all - before
  {
    if before != after {
      var q :| q in after && q !in before;
      assert q in all - before && q !in all - after;
    }
  }

  lemma {:induction false} CostsAreSectors(w: World, sectors: seq<Sector>, cmap: map<Pos, int>, own: int, c: Pos,
                                           dist: map<Pos, int>)
    requires w.Valid() && Indexed(sectors, cmap)
    requires Searching(w, sectors, cmap, own, c, dist, multiset{}, None, 1)
    ensures forall q :: q in dist ==> q in cmap && dist[q] >= 0
  {}

  function SectorAt(sectors: seq<Sector>, cmap: map<Pos, int>, p: Pos): (s: Sector)
    requires Indexed(sectors, cmap) && p in cmap
    ensures s == sectors[cmap[p]]
  {
    sectors[cmap[p]]
  }

  lemma {:induction false} NoMoreThan(w: World, sectors: seq<Sector>, cmap: map<Pos, int>, own: int, c: Pos,
                   dist: map<Pos, int>, dist': map<Pos, int>, q: Pos)
    requires w.Valid() && Indexed(sectors, cmap) && q in dist
    requires LeastCosts(w, sectors, cmap, own, c, dist) && LeastCosts(w, sectors, cmap, own, c, dist')
    ensures q in dist' && dist'[q] <= dist[q]
  {
    hide RouteCost, Indexed;
    assert Reaches(w, sectors, cmap, own, c, q, dist[q]);
    var route :| IsRoute(w, sectors, cmap, own, c, route) && route[|route| - 1] == q
                 && RouteCost(w, sectors, cmap, own, c, route) == dist[q];
  }

  /** The search has one possible result, in whatever order entries of equal key are taken. */
  lemma {:induction false} LeastCostsAreUnique(w: World, sectors: seq<Sector>, cmap: map<Pos, int>, own: int, c: Pos,
                            dist: map<Pos, int>, dist': map<Pos, int>)
    requires w.Valid() && Indexed(sectors, cmap)
    requires LeastCosts(w, sectors, cmap, own, c, dist) && LeastCosts(w, sectors, cmap, own, c, dist')
    ensures dist == dist'
  {
    hide LeastCosts, Indexed;
    forall q | q in dist
      ensures q in dist' && dist'[q] <= dist[q]
    {
      NoMoreThan(w, sectors, cmap, own, c, dist, dist', q);
    }
    forall q | q in dist'
      ensures q in dist && dist[q] <= dist'[q]
    {
      NoMoreThan(w, sectors, cmap, own, c, dist', dist, q);
    }
  }
}
