/** The breadth-first search that spreads labelled distances over the sectors.

    A `Field` is what the search works on: a distance and a tag for every slot, and the queue.
    A `Source` starts the search at a sector with some distance and tag. The invariants say what
    the search keeps while it takes one sector from the queue and relaxes its six edges one by
    one; `ExactDistance` and `ExactTag` say what has been computed when the queue is empty.
 */
module Bfs {
  import opened Hex
  import opened Grid

  const INF := 0xFFFF_FFFF
  const MAX_WEIGHT := 0x1_0000

  datatype Source = Source(at: int, weight: int, tag: int)

  datatype Field = Field(dist: seq<int>, tag: seq<int>, queue: seq<int>)

  function Reach(w: World, s: Source, v: int): int
    requires w.Valid()
  {
    s.weight + Dist(w, s.at, v)
  }

  ghost predicate SourcesOk(w: World, S: set<Source>)
    requires w.Valid()
  {
    forall s :: s in S ==> IsSect(w, s.at) && 0 <= s.weight <= MAX_WEIGHT && s.tag >= 0
  }

  // ---------------------------------------------------------------------------------------------
  // What the search computes
  // ---------------------------------------------------------------------------------------------

  /** s is one of the sources nearest to v, counting the distance a source starts with. */
  ghost predicate Nearest(w: World, S: set<Source>, s: Source, v: int)
    requires w.Valid()
  {
    s in S && forall t :: t in S ==> Reach(w, s, v) <= Reach(w, t, v)
  }

  /** Every distance is the least over all sources; without sources it is infinite. */
  ghost predicate ExactDistance(w: World, S: set<Source>, dist: seq<int>)
    requires w.Valid()
  {
    |dist| == w.Size()
    && forall v :: IsSect(w, v) ==>
         if S == {} then dist[v] == INF
         else dist[v] < INF && exists s :: Nearest(w, S, s, v) && dist[v] == Reach(w, s, v)
  }

  /** A tag c >= 0 is given exactly when every nearest source has it; otherwise the tag is -1. */
  ghost predicate ExactTag(w: World, S: set<Source>, tag: seq<int>)
    requires w.Valid()
  {
    |tag| == w.Size()
    && forall v :: IsSect(w, v) ==>
         tag[v] >= -1 && forall c :: c >= 0 ==> (tag[v] == c <==> NearestAgree(w, S, v, c))
  }

  ghost predicate NearestAgree(w: World, S: set<Source>, v: int, c: int)
    requires w.Valid()
  {
    S != {} && forall s :: Nearest(w, S, s, v) ==> s.tag == c
  }

  /** A tag c >= 0 is carried by some nearest source; -1 means two nearest sources disagree. */
  ghost predicate SoundTag(w: World, S: set<Source>, tag: seq<int>)
    requires w.Valid()
  {
    |tag| == w.Size()
    && forall v :: IsSect(w, v) && S != {} ==>
         if tag[v] >= 0 then exists s :: Nearest(w, S, s, v) && s.tag == tag[v]
         else exists s, t :: Nearest(w, S, s, v) && Nearest(w, S, t, v) && s.tag != t.tag
  }

  // ---------------------------------------------------------------------------------------------
  // Invariants
  // ---------------------------------------------------------------------------------------------

  ghost predicate Shape(w: World, f: Field)
    requires w.Valid()
  {
    |f.dist| == w.Size() && |f.tag| == w.Size()
    && (forall v :: 0 <= v < w.Size() ==> 0 <= f.dist[v] <= INF && f.tag[v] >= -1)
    && (forall v :: 0 <= v < w.Size() && f.dist[v] == INF ==> f.tag[v] == -1)
    && (forall v :: 0 <= v < w.Size() && !IsSect(w, v) ==> f.dist[v] == INF)
    && (forall i :: 0 <= i < |f.queue| ==> IsSect(w, f.queue[i]) && f.dist[f.queue[i]] < INF)
  }

  /** A distance and tag (d, c) at v are backed by sources: one with tag c, or two that differ. */
  ghost predicate Backed(w: World, S: set<Source>, v: int, d: int, c: int)
    requires w.Valid()
  {
    if c >= 0 then exists s :: s in S && s.tag == c && Reach(w, s, v) <= d
    else exists s, t :: s in S && t in S && s.tag != t.tag && Reach(w, s, v) <= d && Reach(w, t, v) <= d
  }

  ghost predicate Sound(w: World, S: set<Source>, f: Field)
    requires w.Valid() && Shape(w, f)
  {
    forall v :: IsSect(w, v) && f.dist[v] < INF ==> Backed(w, S, v, f.dist[v], f.tag[v])
  }

  ghost predicate Covered(w: World, S: set<Source>, f: Field)
    requires w.Valid() && Shape(w, f) && SourcesOk(w, S)
  {
    forall s :: s in S ==>
      f.dist[s.at] <= s.weight && (f.dist[s.at] == s.weight ==> f.tag[s.at] in {s.tag, -1})
  }

  /** The edge from u in direction d needs no more work. */
  ghost predicate EdgeDone(w: World, f: Field, pristine: bool, u: int, d: int)
    requires w.Valid() && Shape(w, f) && IsSect(w, u) && 1 <= d <= 6 && IsSect(w, Nb(w, u, d))
  {
    var v := Nb(w, u, d);
    f.dist[v] <= f.dist[u] + 1
    && (pristine && f.dist[v] == f.dist[u] + 1 ==> f.tag[v] == f.tag[u] || f.tag[v] == -1)
  }

  ghost predicate NbClosed(w: World)
    requires w.Valid()
  {
    forall u, d :: IsSect(w, u) && 1 <= d <= 6 ==> IsSect(w, Nb(w, u, d))
  }

  /** All edges are done that leave a reached sector outside the queue, except those of o from
      direction dir on. */
  ghost predicate Relaxed(w: World, f: Field, pristine: bool, o: int, dir: int)
    requires w.Valid() && Shape(w, f) && NbClosed(w)
  {
    forall u, d :: IsSect(w, u) && 1 <= d <= 6 && f.dist[u] < INF && u !in f.queue && (u != o || d < dir) ==>
      EdgeDone(w, f, pristine, u, d)
  }

  /** The queue holds distinct sectors, none of them processed, in order of distance, and all at
      level lo or lo + 1; processed sectors are at level lo at most. A pristine search has reached
      nothing outside the queue and the processed sectors. */
  ghost predicate Level(w: World, f: Field, pristine: bool, P: set<int>, lo: int)
    requires w.Valid() && Shape(w, f)
  {
    (forall i, j :: 0 <= i < j < |f.queue| ==>
       f.queue[i] != f.queue[j] && f.dist[f.queue[i]] <= f.dist[f.queue[j]])
    && (forall i :: 0 <= i < |f.queue| ==> f.queue[i] !in P && lo <= f.dist[f.queue[i]] <= lo + 1)
    && (forall v :: v in P ==> IsSect(w, v) && f.dist[v] <= lo)
    && (pristine ==> forall v :: IsSect(w, v) && f.dist[v] < INF ==> v in P || v in f.queue)
  }

  /** The invariant while the edges of o from direction dir on are still to be relaxed; with
      o == -1 it is the invariant between two sectors. */
  ghost predicate Searching(w: World, S: set<Source>, f: Field, pristine: bool, P: set<int>, lo: int, o: int, dir: int)
    requires w.Valid()
  {
    NbClosed(w) && SourcesOk(w, S) && Shape(w, f)
    && Sound(w, S, f) && Covered(w, S, f) && Relaxed(w, f, pristine, o, dir) && Level(w, f, pristine, P, lo)
    && (o != -1 ==> o in P && f.dist[o] == lo < INF)
  }

  lemma {:induction false} AllNbClosed(w: World)
    requires w.Valid()
    ensures NbClosed(w)
  {
    forall u, d | IsSect(w, u) && 1 <= d <= 6
      ensures IsSect(w, Nb(w, u, d))
    {
      NbIsSect(w, u, d);
    }
  }

  // ---------------------------------------------------------------------------------------------
  // One edge
  // ---------------------------------------------------------------------------------------------

  /** The effect of looking along the edge that leaves o in direction d. */
  function Relax(w: World, f: Field, o: int, d: int): Field
    requires w.Valid() && |f.dist| == |f.tag| == w.Size()
    requires 0 <= o < w.Size() && 0 <= Nb(w, o, d) < w.Size()
  {
    var no := Nb(w, o, d);
    var nd := f.dist[o] + 1;
    if nd < f.dist[no] then
      Field(f.dist[no := nd], f.tag[no := f.tag[o]], f.queue + [no])
    else if f.dist[no] == nd && f.tag[o] != f.tag[no] then
      f.(tag := f.tag[no := -1])
    else
      f
  }

  lemma {:induction false} BackedAlongEdge(w: World, S: set<Source>, u: int, d: int, dist: int, c: int)
    requires w.Valid() && SourcesOk(w, S) && IsSect(w, u) && 1 <= d <= 6 && Backed(w, S, u, dist, c)
    ensures Backed(w, S, Nb(w, u, d), dist + 1, c)
  {
    hide Nb, Dist, OnMap, PosOf;
    forall s | s in S
      ensures Reach(w, s, Nb(w, u, d)) <= Reach(w, s, u) + 1
    {
      DistNb(w, s.at, u, d);
    }
  }

  lemma {:induction false} RelaxShortens(w: World, S: set<Source>, f: Field, pristine: bool, P: set<int>, lo: int,
                                         o: int, dir: int)
    requires w.Valid() && 1 <= dir <= 6 && o != -1
    requires Searching(w, S, f, pristine, P, lo, o, dir)
    requires f.dist[o] + 1 < f.dist[Nb(w, o, dir)]
    ensures Nb(w, o, dir) !in f.queue && Nb(w, o, dir) !in P
    ensures Searching(w, S, Relax(w, f, o, dir), pristine, P, lo, o, dir + 1)
  {
    hide Nb, Dist, OnMap, PosOf, Reach, Rows, Backed;
    var no := Nb(w, o, dir);
    var g := Relax(w, f, o, dir);
    assert Backed(w, S, o, lo, f.tag[o]);
    BackedAlongEdge(w, S, o, dir, lo, f.tag[o]);
    assert g.queue == f.queue + [no];
    assert Shape(w, g);
    assert Sound(w, S, g);
    assert Covered(w, S, g);
    assert Level(w, g, pristine, P, lo) by {
      hide Sound, Covered, Relaxed;
    }
    assert Relaxed(w, g, pristine, o, dir + 1) by {
      hide Sound, Covered;
      forall u, d | IsSect(w, u) && 1 <= d <= 6 && g.dist[u] < INF && u !in g.queue && (u != o || d < dir + 1)
        ensures EdgeDone(w, g, pristine, u, d)
      {
        if u != o || d != dir {
          assert EdgeDone(w, f, pristine, u, d);
        }
      }
    }
  }

  lemma {:induction false} RelaxTies(w: World, S: set<Source>, f: Field, pristine: bool, P: set<int>, lo: int, o: int,
                                     dir: int)
    requires w.Valid() && 1 <= dir <= 6 && o != -1
    requires Searching(w, S, f, pristine, P, lo, o, dir)
    requires f.dist[o] + 1 == f.dist[Nb(w, o, dir)] && f.tag[o] != f.tag[Nb(w, o, dir)]
    ensures Searching(w, S, Relax(w, f, o, dir), pristine, P, lo, o, dir + 1)
  {
    hide Nb, Dist, OnMap, PosOf, Reach, Rows, Backed;
    var no := Nb(w, o, dir);
    var g := Relax(w, f, o, dir);
    assert Shape(w, g);
    BackedAlongEdge(w, S, o, dir, lo, f.tag[o]);
    if f.dist[no] < INF {
      BackedByBoth(w, S, no, lo + 1, f.tag[o], f.tag[no]);
    }
    assert Sound(w, S, g);
    assert Covered(w, S, g);
    assert Level(w, g, pristine, P, lo) by {
      hide Sound, Covered, Relaxed;
    }
    assert Relaxed(w, g, pristine, o, dir + 1) by {
      hide Sound, Covered;
      forall u, d | IsSect(w, u) && 1 <= d <= 6 && g.dist[u] < INF && u !in g.queue && (u != o || d < dir + 1)
        ensures EdgeDone(w, g, pristine, u, d)
      {
        if u != o || d != dir {
          assert EdgeDone(w, f, pristine, u, d);
        }
      }
    }
  }

  lemma {:induction false} BackedByBoth(w: World, S: set<Source>, v: int, d: int, c: int, c': int)
    requires w.Valid() && c != c' && c >= -1 && c' >= -1
    requires Backed(w, S, v, d, c) && Backed(w, S, v, d, c')
    ensures Backed(w, S, v, d, -1)
  {
    hide Reach;
  }

  /** Relaxing one edge keeps the invariant, and never queues a sector a second time. */
  lemma {:induction false} RelaxKeeps(w: World, S: set<Source>, f: Field, pristine: bool, P: set<int>, lo: int,
                                      o: int, dir: int)
    requires w.Valid() && 1 <= dir <= 6 && o != -1
    requires Searching(w, S, f, pristine, P, lo, o, dir)
    ensures Searching(w, S, Relax(w, f, o, dir), pristine, P, lo, o, dir + 1)
  {
    hide Nb, Dist, OnMap, PosOf, Reach, Rows, Backed;
    var no := Nb(w, o, dir);
    var nd := f.dist[o] + 1;
    if nd < f.dist[no] {
      RelaxShortens(w, S, f, pristine, P, lo, o, dir);
    } else if f.dist[no] == nd && f.tag[o] != f.tag[no] {
      RelaxTies(w, S, f, pristine, P, lo, o, dir);
    } else {
      assert EdgeDone(w, f, pristine, o, dir);
    }
  }

  /** Taking the next sector from the queue. */
  lemma {:induction false} DequeueKeeps(w: World, S: set<Source>, f: Field, pristine: bool, P: set<int>, lo: int)
    requires w.Valid() && f.queue != []
    requires Searching(w, S, f, pristine, P, lo, -1, 1)
    ensures f.queue[0] !in P && f.queue[0] !in f.queue[1..] && IsSect(w, f.queue[0])
    ensures Searching(w, S, f.(queue := f.queue[1..]), pristine, P + {f.queue[0]}, f.dist[f.queue[0]], f.queue[0], 1)
  {
    hide Nb, Dist, OnMap, PosOf, Reach, Backed;
    var o := f.queue[0];
    var g := f.(queue := f.queue[1..]);
    assert forall i :: 0 <= i < |g.queue| ==> g.queue[i] == f.queue[i + 1];
    assert Shape(w, g);
    forall u, d | IsSect(w, u) && 1 <= d <= 6 && g.dist[u] < INF && u !in g.queue && (u != o || d < 1)
      ensures EdgeDone(w, g, pristine, u, d)
    {
      assert f.queue == [o] + g.queue && u != o;
      assert EdgeDone(w, f, pristine, u, d);
    }
  }

  lemma {:induction false} FinishSector(w: World, S: set<Source>, f: Field, pristine: bool, P: set<int>, lo: int,
                                        o: int)
    requires w.Valid()
    requires Searching(w, S, f, pristine, P, lo, o, 7)
    ensures Searching(w, S, f, pristine, P, lo, -1, 1)
  {
    hide Nb, Dist, OnMap, PosOf, Reach, Backed, EdgeDone;
  }

  // ---------------------------------------------------------------------------------------------
  // The finished search
  // ---------------------------------------------------------------------------------------------

  lemma {:induction false} NotAbove(w: World, S: set<Source>, f: Field, pristine: bool, P: set<int>, lo: int,
                                    s: Source, v: int)
    requires w.Valid() && Searching(w, S, f, pristine, P, lo, -1, 1) && f.queue == []
    requires s in S && IsSect(w, v)
    ensures f.dist[v] <= Reach(w, s, v) < INF
    decreases Dist(w, s.at, v)
  {
    hide Nb, Dist, OnMap, PosOf;
    DistFacts(w, s.at, v);
    if v != s.at {
      var d := Toward(w, s.at, v);
      var u := Nb(w, v, d);
      DistFacts(w, s.at, u);
      NbIsSect(w, v, d);
      NotAbove(w, S, f, pristine, P, lo, s, u);
      assert EdgeDone(w, f, pristine, u, DirBack(d));
    }
  }

  lemma {:induction false} TagOfNearest(w: World, S: set<Source>, f: Field, P: set<int>, lo: int, s: Source, v: int)
    requires w.Valid() && Searching(w, S, f, true, P, lo, -1, 1) && f.queue == []
    requires s in S && IsSect(w, v) && Reach(w, s, v) == f.dist[v]
    ensures f.tag[v] == s.tag || f.tag[v] == -1
    decreases Dist(w, s.at, v)
  {
    hide Nb, Dist, OnMap, PosOf;
    DistFacts(w, s.at, v);
    if v != s.at {
      var d := Toward(w, s.at, v);
      var u := Nb(w, v, d);
      DistFacts(w, s.at, u);
      NbIsSect(w, v, d);
      NotAbove(w, S, f, true, P, lo, s, u);
      assert EdgeDone(w, f, true, u, DirBack(d));
      TagOfNearest(w, S, f, P, lo, s, u);
    }
  }

  lemma {:induction false} NearestIffReached(w: World, S: set<Source>, f: Field, pristine: bool, P: set<int>, lo: int,
                                             v: int)
    requires w.Valid() && Searching(w, S, f, pristine, P, lo, -1, 1) && f.queue == []
    requires IsSect(w, v) && S != {}
    ensures f.dist[v] < INF
    ensures forall s :: s in S ==> f.dist[v] <= Reach(w, s, v)
    ensures forall s :: s in S ==> (Nearest(w, S, s, v) <==> Reach(w, s, v) == f.dist[v])
  {
    hide Nb, Dist, OnMap, PosOf, Reach;
    forall s | s in S
      ensures f.dist[v] <= Reach(w, s, v) < INF
    {
      NotAbove(w, S, f, pristine, P, lo, s, v);
    }
    var s0 :| s0 in S;
    assert Backed(w, S, v, f.dist[v], f.tag[v]);
    assert exists m :: m in S && Reach(w, m, v) <= f.dist[v];
  }

  lemma {:induction false} FinishedDistance(w: World, S: set<Source>, f: Field, pristine: bool, P: set<int>, lo: int)
    requires w.Valid() && Searching(w, S, f, pristine, P, lo, -1, 1) && f.queue == []
    ensures ExactDistance(w, S, f.dist)
  {
    hide Nb, Dist, OnMap, PosOf, Reach, Rows, Relaxed, Level, Covered;
    forall v | IsSect(w, v)
      ensures if S == {} then f.dist[v] == INF
              else f.dist[v] < INF && exists s :: Nearest(w, S, s, v) && f.dist[v] == Reach(w, s, v)
    {
      if S != {} {
        NearestIffReached(w, S, f, pristine, P, lo, v);
        assert Backed(w, S, v, f.dist[v], f.tag[v]);
        var s :| s in S && Reach(w, s, v) <= f.dist[v];
        assert Nearest(w, S, s, v);
      }
    }
  }

  lemma {:induction false} FinishedTag(w: World, S: set<Source>, f: Field, P: set<int>, lo: int, v: int, c: int)
    requires w.Valid() && Searching(w, S, f, true, P, lo, -1, 1) && f.queue == []
    requires IsSect(w, v) && c >= 0
    ensures f.tag[v] == c <==> NearestAgree(w, S, v, c)
  {
    hide Nb, Dist, OnMap, PosOf, Reach, Rows, Relaxed, Level, Covered;
    if S != {} {
      NearestIffReached(w, S, f, true, P, lo, v);
      forall s | Nearest(w, S, s, v)
        ensures f.tag[v] == s.tag || f.tag[v] == -1
      {
        TagOfNearest(w, S, f, P, lo, s, v);
      }
      TagsBacked(w, S, f, true, P, lo, v);
    } else {
      assert f.dist[v] < INF ==> Backed(w, S, v, f.dist[v], f.tag[v]);
    }
  }

  /** When the queue is empty the distances are exact and the tags sound; the tags of a pristine
      search are exact. */
  lemma {:induction false} FinishedIsExact(w: World, S: set<Source>, f: Field, pristine: bool, P: set<int>, lo: int)
    requires w.Valid() && Searching(w, S, f, pristine, P, lo, -1, 1) && f.queue == []
    ensures ExactDistance(w, S, f.dist) && SoundTag(w, S, f.tag)
    ensures pristine ==> ExactTag(w, S, f.tag)
    ensures Shape(w, f)
  {
    hide Nb, Dist, OnMap, PosOf, Reach, Rows, Relaxed, Level, Covered, Sound, Nearest, NearestAgree;
    FinishedDistance(w, S, f, pristine, P, lo);
    forall v | IsSect(w, v) && S != {}
      ensures if f.tag[v] >= 0 then exists s :: Nearest(w, S, s, v) && s.tag == f.tag[v]
              else exists s, t :: Nearest(w, S, s, v) && Nearest(w, S, t, v) && s.tag != t.tag
    {
      TagsBacked(w, S, f, pristine, P, lo, v);
    }
    if pristine {
      forall v, c {:trigger NearestAgree(w, S, v, c)} | IsSect(w, v) && c >= 0
        ensures f.tag[v] == c <==> NearestAgree(w, S, v, c)
      {
        FinishedTag(w, S, f, P, lo, v, c);
      }
    }
  }

  lemma {:induction false} TagsBacked(w: World, S: set<Source>, f: Field, pristine: bool, P: set<int>, lo: int, v: int)
    requires w.Valid() && Searching(w, S, f, pristine, P, lo, -1, 1) && f.queue == []
    requires IsSect(w, v) && S != {}
    ensures if f.tag[v] >= 0 then exists s :: Nearest(w, S, s, v) && s.tag == f.tag[v]
            else exists s, t :: Nearest(w, S, s, v) && Nearest(w, S, t, v) && s.tag != t.tag
  {
    hide Nb, Dist, OnMap, PosOf, Reach;
    NearestIffReached(w, S, f, pristine, P, lo, v);
    assert Backed(w, S, v, f.dist[v], f.tag[v]);
    if f.tag[v] >= 0 {
      var s :| s in S && s.tag == f.tag[v] && Reach(w, s, v) <= f.dist[v];
      assert Nearest(w, S, s, v);
    } else {
      var s, t :| s in S && t in S && s.tag != t.tag
                  && Reach(w, s, v) <= f.dist[v] && Reach(w, t, v) <= f.dist[v];
      assert Nearest(w, S, s, v) && Nearest(w, S, t, v);
    }
  }

  // ---------------------------------------------------------------------------------------------
  // Room in the queue
  // ---------------------------------------------------------------------------------------------

  ghost predicate Distinct(q: seq<int>) {
    forall i, j :: 0 <= i < j < |q| ==> q[i] != q[j]
  }

  lemma {:induction false} DistinctFits(q: seq<int>, n: nat)
    requires Distinct(q) && forall i :: 0 <= i < |q| ==> 0 <= q[i] < n
    ensures |q| <= n
    decreases n
  {
    assert q != [] ==> 0 <= q[0] < n;
    if n > 0 && n - 1 in q {
      var k :| 0 <= k < |q| && q[k] == n - 1;
      var q' := q[..k] + q[k + 1..];
      DistinctFits(q', n - 1);
    } else if n > 0 {
      DistinctFits(q, n - 1);
    }
  }

  /** While o is being processed there is room for another sector in a queue of Size() slots. */
  lemma {:induction false} QueueSects(w: World, S: set<Source>, f: Field, pristine: bool, P: set<int>, lo: int,
                                      o: int, dir: int)
    requires w.Valid() && Searching(w, S, f, pristine, P, lo, o, dir)
    ensures |f.queue| <= w.Size() && (o != -1 ==> |f.queue| < w.Size() && IsSect(w, o) && f.dist[o] == lo)
  {
    hide Nb, Dist, OnMap, PosOf, Reach, Rows, Backed, EdgeDone;
    DistinctFits(f.queue, w.Size());
    if o != -1 {
      DistinctFits([o] + f.queue, w.Size());
    }
  }
}
