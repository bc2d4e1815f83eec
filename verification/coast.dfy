/** The two searches of the generator: the distance to the coast, and the spheres of influence. */
module Coast {
  import opened Hex
  import opened Grid
  import opened Bfs
  import Land

  // ---------------------------------------------------------------------------------------------
  // Sources on the coast
  // ---------------------------------------------------------------------------------------------

  ghost function CoastBelow(w: World, own: seq<int>, n: int): set<int>
    requires w.Valid() && |own| == w.Size()
  {
    set v | 0 <= v < w.Size() && Land.Coastal(w, own, v) && 0 <= own[v] < n
  }

  /** Every coastal sector of the landmasses below n is a source at distance 0. */
  ghost function CoastSources(w: World, own: seq<int>, n: int): set<Source>
    requires w.Valid() && |own| == w.Size()
  {
    set v | v in CoastBelow(w, own, n) :: Source(v, 0, own[v])
  }

  ghost function CoastOf(w: World, own: seq<int>, s: seq<Pos>): set<int>
    requires w.Valid() && |own| == w.Size()
  {
    set i | 0 <= i < |s| && Land.Coastal(w, own, Off(w, s[i])) :: Off(w, s[i])
  }

  /** Exactly the sectors in `from` have been reached: at distance 0, tagged with their owner, and
      queued once each. */
  ghost predicate Seeded(w: World, own: seq<int>, from: set<int>, f: Field)
    requires w.Valid() && |own| == w.Size()
  {
    |f.dist| == w.Size() && |f.tag| == w.Size()
    && (forall v :: v in from ==> IsSect(w, v) && own[v] >= 0)
    && (forall v :: 0 <= v < w.Size() ==>
          f.dist[v] == (if v in from then 0 else INF) && f.tag[v] == (if v in from then own[v] else -1))
    && (forall v :: v in f.queue <==> v in from)
    && Distinct(f.queue)
  }

  lemma {:induction false} SeedOne(w: World, own: seq<int>, from: set<int>, f: Field, v: int)
    requires w.Valid() && |own| == w.Size() && Seeded(w, own, from, f)
    requires IsSect(w, v) && own[v] >= 0 && v !in from
    ensures Seeded(w, own, from + {v}, Field(f.dist[v := 0], f.tag[v := own[v]], f.queue + [v]))
  {
    hide OnMap, PosOf, Rows;
  }

  lemma {:induction false} SeededFits(w: World, own: seq<int>, from: set<int>, f: Field, v: int)
    requires w.Valid() && |own| == w.Size() && Seeded(w, own, from, f) && IsSect(w, v) && v !in from
    ensures |f.queue| < w.Size()
  {
    hide OnMap, PosOf, Rows;
    forall i | 0 <= i < |f.queue|
      ensures f.queue[i] in from
    {
      assert f.queue[i] in f.queue;
    }
    DistinctFits(f.queue + [v], w.Size());
  }

  lemma {:induction false} CoastOfNext(w: World, own: seq<int>, s: seq<Pos>, i: int)
    requires w.Valid() && |own| == w.Size() && 0 <= i < |s|
    ensures CoastOf(w, own, s[..i + 1])
            == CoastOf(w, own, s[..i]) + (if Land.Coastal(w, own, Off(w, s[i])) then {Off(w, s[i])} else {})
  {
    hide Off, Land.Coastal;
    var a, b := s[..i + 1], s[..i];
    forall v | v in CoastOf(w, own, a)
      ensures v in CoastOf(w, own, b) || v == Off(w, s[i])
    {
      var k :| 0 <= k < |a| && Land.Coastal(w, own, Off(w, a[k])) && v == Off(w, a[k]);
      assert k < i ==> v == Off(w, b[k]);
    }
    forall v | v in CoastOf(w, own, b)
      ensures v in CoastOf(w, own, a)
    {
      var k :| 0 <= k < |b| && Land.Coastal(w, own, Off(w, b[k])) && v == Off(w, b[k]);
      assert v == Off(w, a[k]);
    }
    assert a[i] == s[i];
  }

  lemma {:induction false} CoastBelowNext(w: World, t: Land.Terrain, c: int)
    requires w.Valid() && Land.TerrainOk(w, t) && 0 <= c < |t.sect|
    ensures CoastBelow(w, t.own, c + 1) == CoastBelow(w, t.own, c) + CoastOf(w, t.own, t.sect[c])
  {
    hide OnMap, PosOf, Rows, Off, Land.AdjOk, Land.Connected, Land.Coastal;
    forall u | u in CoastBelow(w, t.own, c + 1) && t.own[u] == c
      ensures u in CoastOf(w, t.own, t.sect[c])
    {
      PosOfOff(w, u);
      var i :| 0 <= i < |t.sect[c]| && t.sect[c][i] == PosOf(w, u);
    }
  }

  /** The coasts of the landmasses below c and of the first i sectors of s. */
  ghost function SeedSet(w: World, own: seq<int>, c: int, s: seq<Pos>, i: nat): set<int>
    requires w.Valid() && |own| == w.Size() && i <= |s|
  {
    CoastBelow(w, own, c) + CoastOf(w, own, s[..i])
  }

  lemma {:induction false} SeedSetStarts(w: World, own: seq<int>, c: int, s: seq<Pos>)
    requires w.Valid() && |own| == w.Size()
    ensures SeedSet(w, own, c, s, 0) == CoastBelow(w, own, c)
  {
    hide CoastBelow;
    assert CoastOf(w, own, s[..0]) == {};
  }

  lemma {:induction false} SeedSetNext(w: World, own: seq<int>, c: int, s: seq<Pos>, i: nat)
    requires w.Valid() && |own| == w.Size() && i < |s|
    ensures SeedSet(w, own, c, s, i + 1)
            == SeedSet(w, own, c, s, i) + (if Land.Coastal(w, own, Off(w, s[i])) then {Off(w, s[i])} else {})
  {
    CoastOfNext(w, own, s, i);
    hide CoastBelow, CoastOf, Land.Coastal, Off;
  }

  lemma {:induction false} SeedSetEnds(w: World, t: Land.Terrain, c: int)
    requires w.Valid() && Land.TerrainOk(w, t) && 0 <= c < |t.sect|
    ensures SeedSet(w, t.own, c, t.sect[c], |t.sect[c]|) == CoastBelow(w, t.own, c + 1)
  {
    CoastBelowNext(w, t, c);
    hide CoastBelow, CoastOf, Land.TerrainOk;
    assert t.sect[c][..|t.sect[c]|] == t.sect[c];
  }

  /** The coast, seeded, is a pristine start for the search. */
  lemma {:induction false} SeededSearching(w: World, own: seq<int>, n: int, f: Field)
    requires w.Valid() && |own| == w.Size() && Seeded(w, own, CoastBelow(w, own, n), f)
    ensures Searching(w, CoastSources(w, own, n), f, true, {}, 0, -1, 1)
  {
    AllNbClosed(w);
    SeededShape(w, own, n, f);
    SeededSound(w, own, n, f);
    hide OnMap, PosOf, Rows, Nb, Dist, Sound, NbClosed, CoastBelow, Rows;
    assert Relaxed(w, f, true, -1, 1) by {
      hide SourcesOk, Covered, CoastSources;
    }
  }

  lemma {:induction false} SeededShape(w: World, own: seq<int>, n: int, f: Field)
    requires w.Valid() && |own| == w.Size() && Seeded(w, own, CoastBelow(w, own, n), f)
    ensures Shape(w, f) && SourcesOk(w, CoastSources(w, own, n)) && Covered(w, CoastSources(w, own, n), f)
  {
    hide OnMap, PosOf, Rows, Nb, Dist, Land.Coastal;
    forall i | 0 <= i < |f.queue|
      ensures f.queue[i] in CoastBelow(w, own, n)
    {
      assert f.queue[i] in f.queue;
    }
  }

  lemma {:induction false} SeededSound(w: World, own: seq<int>, n: int, f: Field)
    requires w.Valid() && |own| == w.Size() && Seeded(w, own, CoastBelow(w, own, n), f) && Shape(w, f)
    ensures Sound(w, CoastSources(w, own, n), f)
  {
    hide OnMap, PosOf, Rows, Nb, Dist, Land.Coastal;
    forall v | IsSect(w, v) && f.dist[v] < INF
      ensures Backed(w, CoastSources(w, own, n), v, f.dist[v], f.tag[v])
    {
      DistFacts(w, v, v);
      assert Source(v, 0, own[v]) in CoastSources(w, own, n);
    }
  }

  // ---------------------------------------------------------------------------------------------
  // Borders between spheres
  // ---------------------------------------------------------------------------------------------

  /** v is farther than id + 1 from every coast, belongs to a continent, and touches a sector that
      does not belong to the same one. */
  ghost predicate Border(w: World, dist: seq<int>, tag: seq<int>, id: int, v: int)
    requires w.Valid() && |dist| == |tag| == w.Size()
  {
    IsSect(w, v) && dist[v] > id + 1 && tag[v] != -1
    && exists d :: 1 <= d <= 6 && IsSect(w, Nb(w, v, d)) && tag[Nb(w, v, d)] != tag[v]
  }

  lemma {:induction false} BorderIsSect(w: World, dist: seq<int>, tag: seq<int>, id: int, v: int)
    requires w.Valid() && |dist| == |tag| == w.Size() && Border(w, dist, tag, id, v)
    ensures IsSect(w, v)
  {}

  ghost function Borders(w: World, dist: seq<int>, tag: seq<int>, id: int): set<int>
    requires w.Valid() && |dist| == |tag| == w.Size()
  {
    set v | 0 <= v < w.Size() && Border(w, dist, tag, id, v)
  }

  /** The coasts of the continents, and the borders at distance id + 1. */
  ghost function SphereSources(w: World, own: seq<int>, n: int, dist: seq<int>, tag: seq<int>, id: int): set<Source>
    requires w.Valid() && |own| == |dist| == |tag| == w.Size()
  {
    CoastSources(w, own, n) + set v | v in Borders(w, dist, tag, id) :: Source(v, id + 1, tag[v])
  }

  /** The borders in `from` have been queued over the finished first search. */
  ghost predicate Overlaid(w: World, dist: seq<int>, tag: seq<int>, id: int, from: set<int>, f: Field)
    requires w.Valid() && |dist| == |tag| == w.Size()
  {
    |f.dist| == w.Size() && f.tag == tag
    && from <= Borders(w, dist, tag, id)
    && (forall v :: 0 <= v < w.Size() ==> f.dist[v] == if v in from then id + 1 else dist[v])
    && (forall v :: v in f.queue <==> v in from)
    && Distinct(f.queue)
  }

  lemma {:induction false} OverlayOne(w: World, dist: seq<int>, tag: seq<int>, id: int, from: set<int>, f: Field,
                                      v: int)
    requires w.Valid() && |dist| == |tag| == w.Size() && Overlaid(w, dist, tag, id, from, f)
    requires Border(w, dist, tag, id, v) && v !in from
    ensures |f.queue| < w.Size()
    ensures Overlaid(w, dist, tag, id, from + {v}, Field(f.dist[v := id + 1], f.tag[v := tag[v]], f.queue + [v]))
  {
    hide OnMap, PosOf, Rows, Nb;
    forall i | 0 <= i < |f.queue|
      ensures f.queue[i] in from
    {
      assert f.queue[i] in f.queue;
    }
    DistinctFits(f.queue + [v], w.Size());
    assert f.tag[v := tag[v]] == tag;
  }

  lemma {:induction false} ReachStep(w: World, s: Source, u: int, d: int)
    requires w.Valid() && IsSect(w, s.at) && IsSect(w, u) && 1 <= d <= 6
    ensures IsSect(w, Nb(w, u, d)) && Reach(w, s, Nb(w, u, d)) <= Reach(w, s, u) + 1
  {
    hide OnMap, PosOf, Rows, Nb, Dist;
    DistNb(w, s.at, u, d);
  }

  lemma {:induction false} DistAtMost(w: World, S: set<Source>, dist: seq<int>, s: Source, v: int)
    requires w.Valid() && ExactDistance(w, S, dist) && s in S && IsSect(w, v)
    ensures dist[v] <= Reach(w, s, v)
  {
    hide OnMap, PosOf, Rows, Reach;
    var t :| Nearest(w, S, t, v) && dist[v] == Reach(w, t, v);
  }

  /** Along the edge from u in direction d the distance grows by at most one. */
  ghost predicate SlopeOk(w: World, dist: seq<int>, u: int, d: int)
    requires w.Valid() && |dist| == w.Size() && IsSect(w, u)
  {
    IsSect(w, Nb(w, u, d)) && (dist[u] < INF ==> dist[Nb(w, u, d)] <= dist[u] + 1)
  }

  lemma {:induction false} ExactIsLipschitz(w: World, S: set<Source>, dist: seq<int>, u: int, d: int)
    requires w.Valid() && SourcesOk(w, S) && ExactDistance(w, S, dist) && IsSect(w, u) && 1 <= d <= 6
    ensures SlopeOk(w, dist, u, d)
  {
    hide OnMap, PosOf, Rows, Nb, Dist, Reach;
    NbIsSect(w, u, d);
    if S != {} {
      var s :| s in S && dist[u] == Reach(w, s, u);
      hide ExactDistance;
      ReachStep(w, s, u, d);
      DistAtMost(w, S, dist, s, Nb(w, u, d));
    }
  }

  lemma {:induction false} NearestReach(w: World, S: set<Source>, dist: seq<int>, s: Source, v: int)
    requires w.Valid() && ExactDistance(w, S, dist) && IsSect(w, v) && Nearest(w, S, s, v)
    ensures dist[v] == Reach(w, s, v)
  {
    hide OnMap, PosOf, Rows, Dist, Reach;
    var t :| Nearest(w, S, t, v) && dist[v] == Reach(w, t, v);
  }

  lemma {:induction false} OverlaidSound(w: World, S: set<Source>, S': set<Source>, f1: Field, id: int, f: Field)
    requires w.Valid() && 0 <= id && Shape(w, f1) && S <= S' && Shape(w, f)
    requires ExactDistance(w, S, f1.dist) && SoundTag(w, S, f1.tag)
    requires Overlaid(w, f1.dist, f1.tag, id, Borders(w, f1.dist, f1.tag, id), f)
    requires forall v :: v in Borders(w, f1.dist, f1.tag, id) ==> Source(v, id + 1, f1.tag[v]) in S'
    ensures Sound(w, S', f)
  {
    hide OnMap, PosOf, Rows, Nb, Dist;
    forall v | IsSect(w, v) && f.dist[v] < INF
      ensures Backed(w, S', v, f.dist[v], f.tag[v])
    {
      if v in Borders(w, f1.dist, f1.tag, id) {
        DistFacts(w, v, v);
        assert Source(v, id + 1, f1.tag[v]) in S';
      } else if f.tag[v] >= 0 {
        var s :| Nearest(w, S, s, v) && s.tag == f1.tag[v];
        NearestReach(w, S, f1.dist, s, v);
      } else {
        var s, t :| Nearest(w, S, s, v) && Nearest(w, S, t, v) && s.tag != t.tag;
        NearestReach(w, S, f1.dist, s, v);
        NearestReach(w, S, f1.dist, t, v);
      }
    }
  }

  lemma {:induction false} CoastAtZero(w: World, own: seq<int>, n: int, f1: Field, s: Source)
    requires w.Valid() && |own| == w.Size() && Shape(w, f1) && s in CoastSources(w, own, n)
    requires ExactDistance(w, CoastSources(w, own, n), f1.dist) && ExactTag(w, CoastSources(w, own, n), f1.tag)
    ensures IsSect(w, s.at) && f1.dist[s.at] == 0 && f1.tag[s.at] in {s.tag, -1}
  {
    hide OnMap, PosOf, Rows, Nb, Dist;
    var S := CoastSources(w, own, n);
    DistFacts(w, s.at, s.at);
    forall t | t in S
      ensures Reach(w, s, s.at) <= Reach(w, t, s.at)
    {
      DistFacts(w, t.at, s.at);
    }
    assert Nearest(w, S, s, s.at);
    NearestReach(w, S, f1.dist, s, s.at);
    if f1.tag[s.at] >= 0 {
      assert NearestAgree(w, S, s.at, f1.tag[s.at]);
    }
  }

  lemma {:induction false} OverlaidCovered(w: World, own: seq<int>, n: int, f1: Field, id: int, f: Field)
    requires w.Valid() && |own| == w.Size() && 0 <= id < MAX_WEIGHT && Shape(w, f1) && Shape(w, f)
    requires ExactDistance(w, CoastSources(w, own, n), f1.dist) && ExactTag(w, CoastSources(w, own, n), f1.tag)
    requires Overlaid(w, f1.dist, f1.tag, id, Borders(w, f1.dist, f1.tag, id), f)
    requires SourcesOk(w, SphereSources(w, own, n, f1.dist, f1.tag, id))
    ensures Covered(w, SphereSources(w, own, n, f1.dist, f1.tag, id), f)
  {
    hide OnMap, PosOf, Rows, Nb, Dist, Land.Coastal, ExactDistance, ExactTag;
    forall s | s in SphereSources(w, own, n, f1.dist, f1.tag, id)
      ensures f.dist[s.at] <= s.weight && (f.dist[s.at] == s.weight ==> f.tag[s.at] in {s.tag, -1})
    {
      if s in CoastSources(w, own, n) {
        CoastAtZero(w, own, n, f1, s);
      }
    }
  }

  lemma {:induction false} OverlaidRelaxed(w: World, S: set<Source>, f1: Field, id: int, f: Field)
    requires w.Valid() && 0 <= id && Shape(w, f1) && Shape(w, f) && NbClosed(w) && SourcesOk(w, S)
    requires ExactDistance(w, S, f1.dist)
    requires Overlaid(w, f1.dist, f1.tag, id, Borders(w, f1.dist, f1.tag, id), f)
    ensures Relaxed(w, f, false, -1, 1)
  {
    hide OnMap, PosOf, Rows, Nb, Dist, ExactDistance;
    forall u, d | IsSect(w, u) && 1 <= d <= 6 && f.dist[u] < INF && u !in f.queue
      ensures EdgeDone(w, f, false, u, d)
    {
      ExactIsLipschitz(w, S, f1.dist, u, d);
    }
  }

  /** The finished first search with the borders queued is a start for the second search. */
  lemma {:induction false} OverlaidSearching(w: World, own: seq<int>, n: int, f1: Field, id: int, f: Field)
    requires w.Valid() && |own| == w.Size() && 0 <= id < MAX_WEIGHT && Shape(w, f1)
    requires ExactDistance(w, CoastSources(w, own, n), f1.dist) && ExactTag(w, CoastSources(w, own, n), f1.tag)
    requires SoundTag(w, CoastSources(w, own, n), f1.tag)
    requires Overlaid(w, f1.dist, f1.tag, id, Borders(w, f1.dist, f1.tag, id), f)
    ensures Searching(w, SphereSources(w, own, n, f1.dist, f1.tag, id), f, false, {}, id + 1, -1, 1)
  {
    var S, S' := CoastSources(w, own, n), SphereSources(w, own, n, f1.dist, f1.tag, id);
    AllNbClosed(w);
    OverlaidShape(w, own, n, f1, id, f);
    hide OnMap, PosOf, Rows, Nb, Dist, Land.Coastal, Shape, SourcesOk, NbClosed, CoastSources;
    hide ExactDistance, ExactTag, SoundTag;
    OverlaidSound(w, S, S', f1, id, f);
    OverlaidCovered(w, own, n, f1, id, f);
    OverlaidRelaxed(w, S, f1, id, f);
    OverlaidLevel(w, f1, id, f);
  }

  lemma {:induction false} OverlaidLevel(w: World, f1: Field, id: int, f: Field)
    requires w.Valid() && Shape(w, f1) && Shape(w, f)
    requires Overlaid(w, f1.dist, f1.tag, id, Borders(w, f1.dist, f1.tag, id), f)
    ensures Level(w, f, false, {}, id + 1)
  {
    hide OnMap, PosOf, Rows, Nb, Dist, Border;
    forall i | 0 <= i < |f.queue|
      ensures f.dist[f.queue[i]] == id + 1
    {
      assert f.queue[i] in f.queue;
    }
  }

  lemma {:induction false} OverlaidShape(w: World, own: seq<int>, n: int, f1: Field, id: int, f: Field)
    requires w.Valid() && |own| == w.Size() && 0 <= id < MAX_WEIGHT && Shape(w, f1)
    requires Overlaid(w, f1.dist, f1.tag, id, Borders(w, f1.dist, f1.tag, id), f)
    ensures Shape(w, f)
    ensures SourcesOk(w, CoastSources(w, own, n)) && SourcesOk(w, SphereSources(w, own, n, f1.dist, f1.tag, id))
  {
    hide OnMap, PosOf, Rows, Nb, Dist;
    forall i | 0 <= i < |f.queue|
      ensures f.queue[i] in Borders(w, f1.dist, f1.tag, id)
    {
      assert f.queue[i] in f.queue;
    }
    forall s | s in SphereSources(w, own, n, f1.dist, f1.tag, id)
      ensures IsSect(w, s.at) && 0 <= s.weight <= MAX_WEIGHT && s.tag >= 0
    {
      if s !in CoastSources(w, own, n) {
        var v :| v in Borders(w, f1.dist, f1.tag, id) && s == Source(v, id + 1, f1.tag[v]);
      }
    }
  }

  // ---------------------------------------------------------------------------------------------
  // What the second search adds
  // ---------------------------------------------------------------------------------------------

  /** After the second search a sector's distance is the lesser of its distance to the coast and of
      id + 1 plus its distance to the nearest border, although the search never passes through
      sectors that are already nearer to a coast. */
  lemma {:induction false} SphereDistance(w: World, own: seq<int>, n: int, dist: seq<int>, tag: seq<int>, id: int,
                                          dist': seq<int>, v: int)
    requires w.Valid() && |own| == |dist| == |tag| == w.Size() && IsSect(w, v)
    requires ExactDistance(w, CoastSources(w, own, n), dist)
    requires ExactDistance(w, SphereSources(w, own, n, dist, tag, id), dist')
    ensures dist'[v] <= dist[v]
    ensures forall b :: b in Borders(w, dist, tag, id) ==> dist'[v] <= id + 1 + Dist(w, b, v)
    ensures dist'[v] == dist[v] || exists b :: b in Borders(w, dist, tag, id) && dist'[v] == id + 1 + Dist(w, b, v)
  {
    hide OnMap, PosOf, Rows, Nb, Dist, Land.Coastal;
    var S, S' := CoastSources(w, own, n), SphereSources(w, own, n, dist, tag, id);
    if S' != {} {
      var m :| Nearest(w, S', m, v) && dist'[v] == Reach(w, m, v);
      if S != {} {
        var k :| Nearest(w, S, k, v) && dist[v] == Reach(w, k, v);
        assert k in S';
      }
      forall b | b in Borders(w, dist, tag, id)
        ensures dist'[v] <= id + 1 + Dist(w, b, v)
      {
        assert Source(b, id + 1, tag[b]) in S';
      }
      if m !in S {
        assert m.at in Borders(w, dist, tag, id) && dist'[v] == id + 1 + Dist(w, m.at, v);
      }
    } else {
      assert S == {};
      forall b | b in Borders(w, dist, tag, id)
        ensures Source(b, id + 1, tag[b]) in S'
      {
      }
    }
  }

  /** A sector's distance after the second search. */
  ghost predicate IsSphereDistance(w: World, dist: seq<int>, tag: seq<int>, id: int, d: int, v: int)
    requires w.Valid() && |dist| == |tag| == w.Size() && IsSect(w, v)
  {
    d <= dist[v] && (forall b :: b in Borders(w, dist, tag, id) ==> d <= id + 1 + Dist(w, b, v))
    && (d == dist[v] || exists b :: b in Borders(w, dist, tag, id) && d == id + 1 + Dist(w, b, v))
  }

  /** All distances after the second search. */
  ghost predicate SphereDistances(w: World, dist: seq<int>, tag: seq<int>, id: int, dist': seq<int>)
    requires w.Valid() && |dist| == |tag| == w.Size()
  {
    |dist'| == w.Size() && forall v :: IsSect(w, v) ==> IsSphereDistance(w, dist, tag, id, dist'[v], v)
  }

  lemma {:induction false} AllSphereDistances(w: World, own: seq<int>, n: int, dist: seq<int>, tag: seq<int>, id: int,
                                              dist': seq<int>)
    requires w.Valid() && |own| == |dist| == |tag| == w.Size()
    requires ExactDistance(w, CoastSources(w, own, n), dist)
    requires ExactDistance(w, SphereSources(w, own, n, dist, tag, id), dist')
    ensures SphereDistances(w, dist, tag, id, dist')
  {
    hide OnMap, PosOf, Rows, Dist, Borders, CoastSources, SphereSources, Nearest;
    forall v | IsSect(w, v)
      ensures IsSphereDistance(w, dist, tag, id, dist'[v], v)
    {
      SphereDistance(w, own, n, dist, tag, id, dist', v);
    }
  }
}
