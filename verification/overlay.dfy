/** A search that starts from a finished one: some sectors are queued anew with lesser distances, and only what
    becomes nearer through them is looked at again. */
module Overlay {
  import opened Hex
  import opened Grid
  import opened Bfs
  import Coast

  /** What a search starts from: nothing, or the distances and tags of one that is finished. */
  datatype Start = Blank | Over(dist: seq<int>, tag: seq<int>)

  /** The neighbour in direction d is processed, one nearer, and its tag is not the one that v had. */
  ghost predicate Disagrees(w: World, f: Field, tag: seq<int>, P: set<int>, v: int, d: int)
    requires w.Valid() && Shape(w, f) && |tag| == w.Size() && IsSect(w, v)
  {
    var u := Nb(w, v, d);
    IsSect(w, u) && u in P && f.dist[u] + 1 == f.dist[v] && f.tag[u] != tag[v]
  }

  /** Just the processed and the queued sectors are nearer than they were. */
  ghost predicate Reached(w: World, f: Field, dist: seq<int>, P: set<int>)
    requires w.Valid() && Shape(w, f) && |dist| == w.Size()
  {
    forall v :: IsSect(w, v) ==> f.dist[v] <= dist[v] && (f.dist[v] < dist[v] <==> v in P || v in f.queue)
  }

  /** What is no nearer has the tag it had, or is contested because a processed neighbour disagrees. */
  ghost predicate TagsKept(w: World, f: Field, dist: seq<int>, tag: seq<int>, P: set<int>)
    requires w.Valid() && Shape(w, f) && |dist| == |tag| == w.Size()
  {
    forall v :: IsSect(w, v) && f.dist[v] == dist[v] && f.tag[v] != tag[v] ==>
      f.tag[v] == -1 && exists d :: 1 <= d <= 6 && Disagrees(w, f, tag, P, v, d)
  }

  /** The edges of processed sectors are done, tags included, except those of o from direction dir on. */
  ghost predicate OwnEdges(w: World, f: Field, P: set<int>, o: int, dir: int)
    requires w.Valid() && Shape(w, f) && NbClosed(w)
  {
    forall u, d :: IsSect(w, u) && u in P && 1 <= d <= 6 && (u != o || d < dir) ==> EdgeDone(w, f, true, u, d)
  }

  ghost predicate Marked(w: World, f: Field, dist: seq<int>, tag: seq<int>, P: set<int>, o: int, dir: int)
    requires w.Valid() && Shape(w, f) && NbClosed(w)
  {
    |dist| == |tag| == w.Size() && Reached(w, f, dist, P) && TagsKept(w, f, dist, tag, P) && OwnEdges(w, f, P, o, dir)
  }

  /** The invariant of either kind of search. */
  ghost predicate Going(w: World, S: set<Source>, f: Field, start: Start, P: set<int>, lo: int, o: int, dir: int)
    requires w.Valid()
  {
    Searching(w, S, f, start.Blank?, P, lo, o, dir)
    && (start.Over? ==> Marked(w, f, start.dist, start.tag, P, o, dir))
  }

  // ---------------------------------------------------------------------------------------------
  // One edge
  // ---------------------------------------------------------------------------------------------

  /** The sector no becomes nearer, gets a tag, and is queued. */
  ghost predicate Shortened(w: World, f: Field, g: Field, P: set<int>, no: int, nd: int, c: int)
    requires w.Valid() && Shape(w, f) && Shape(w, g)
  {
    IsSect(w, no) && no !in P && nd < f.dist[no]
    && g == Field(f.dist[no := nd], f.tag[no := c], f.queue + [no])
  }

  lemma {:induction false} ShortenedReached(w: World, f: Field, g: Field, dist: seq<int>, P: set<int>, no: int,
                                            nd: int, c: int)
    requires w.Valid() && Shape(w, f) && Shape(w, g) && |dist| == w.Size() && Shortened(w, f, g, P, no, nd, c)
    requires Reached(w, f, dist, P)
    ensures Reached(w, g, dist, P)
  {
    hide OnMap, PosOf, Rows;
    assert forall v :: v in g.queue <==> v in f.queue || v == no;
  }

  lemma {:induction false} ShortenedTags(w: World, f: Field, g: Field, dist: seq<int>, tag: seq<int>, P: set<int>,
                                         no: int, nd: int, c: int)
    requires w.Valid() && Shape(w, f) && Shape(w, g) && |dist| == |tag| == w.Size()
    requires Shortened(w, f, g, P, no, nd, c) && Reached(w, f, dist, P) && TagsKept(w, f, dist, tag, P)
    ensures TagsKept(w, g, dist, tag, P)
  {
    hide Nb, OnMap, PosOf, Rows;
    assert f.dist[no] <= dist[no];
    hide Reached;
    forall v | IsSect(w, v) && g.dist[v] == dist[v] && g.tag[v] != tag[v]
      ensures g.tag[v] == -1 && exists d :: 1 <= d <= 6 && Disagrees(w, g, tag, P, v, d)
    {
      var d :| 1 <= d <= 6 && Disagrees(w, f, tag, P, v, d);
      assert Disagrees(w, g, tag, P, v, d);
    }
  }

  lemma {:induction false} ShortenedEdges(w: World, f: Field, g: Field, P: set<int>, o: int, dir: int)
    requires w.Valid() && Shape(w, f) && Shape(w, g) && NbClosed(w) && IsSect(w, o) && o in P && 1 <= dir <= 6
    requires Shortened(w, f, g, P, Nb(w, o, dir), f.dist[o] + 1, f.tag[o]) && OwnEdges(w, f, P, o, dir)
    ensures OwnEdges(w, g, P, o, dir + 1)
  {
    hide Nb, OnMap, PosOf, Rows;
    forall u, d | IsSect(w, u) && u in P && 1 <= d <= 6 && (u != o || d < dir + 1)
      ensures EdgeDone(w, g, true, u, d)
    {
      if u != o || d != dir {
        assert EdgeDone(w, f, true, u, d);
      }
    }
  }

  /** What a search knows while it looks along the edges of o. */
  ghost predicate Looking(w: World, f: Field, P: set<int>, o: int)
    requires w.Valid()
  {
    NbClosed(w) && Shape(w, f) && IsSect(w, o) && o in P
  }

  lemma {:induction false} SearchLooks(w: World, S: set<Source>, f: Field, pristine: bool, P: set<int>, lo: int,
                                       o: int, dir: int)
    requires w.Valid() && o != -1 && Searching(w, S, f, pristine, P, lo, o, dir)
    ensures Looking(w, f, P, o)
  {
    hide Nb, OnMap, PosOf, Rows, Dist, Backed, Sound, Covered, Relaxed;
  }

  lemma {:induction false} RelaxIsShort(w: World, f: Field, P: set<int>, o: int, dir: int)
    requires w.Valid() && 1 <= dir <= 6 && Looking(w, f, P, o) && Nb(w, o, dir) !in P
    requires f.dist[o] + 1 < f.dist[Nb(w, o, dir)] && Shape(w, Relax(w, f, o, dir))
    ensures Shortened(w, f, Relax(w, f, o, dir), P, Nb(w, o, dir), f.dist[o] + 1, f.tag[o])
  {
    hide Nb, OnMap, PosOf, Rows;
  }

  lemma {:induction false} MarkedIs(w: World, f: Field, dist: seq<int>, tag: seq<int>, P: set<int>, o: int, dir: int)
    requires w.Valid() && NbClosed(w) && Shape(w, f) && |dist| == |tag| == w.Size()
    requires Reached(w, f, dist, P) && TagsKept(w, f, dist, tag, P) && OwnEdges(w, f, P, o, dir)
    ensures Marked(w, f, dist, tag, P, o, dir)
  {
    hide Reached, TagsKept, OwnEdges;
  }

  lemma {:induction false} MarkedParts(w: World, f: Field, dist: seq<int>, tag: seq<int>, P: set<int>, o: int, dir: int)
    requires w.Valid() && NbClosed(w) && Shape(w, f) && Marked(w, f, dist, tag, P, o, dir)
    ensures |dist| == |tag| == w.Size()
    ensures Reached(w, f, dist, P) && TagsKept(w, f, dist, tag, P) && OwnEdges(w, f, P, o, dir)
  {
    hide Reached, TagsKept, OwnEdges;
  }

  lemma {:induction false} LookingParts(w: World, f: Field, P: set<int>, o: int, dir: int)
    requires w.Valid() && Looking(w, f, P, o) && 1 <= dir <= 6
    ensures NbClosed(w) && Shape(w, f) && IsSect(w, o) && IsSect(w, Nb(w, o, dir)) && o in P
    ensures |f.dist| == |f.tag| == w.Size() && 0 <= o < w.Size() && 0 <= Nb(w, o, dir) < w.Size()
  {
    hide Nb, OnMap, PosOf, Rows;
  }

  lemma {:induction false} ShortenedMarked(w: World, S: set<Source>, f: Field, dist: seq<int>, tag: seq<int>,
                                           P: set<int>, lo: int, o: int, dir: int)
    requires w.Valid() && 1 <= dir <= 6 && o != -1 && Searching(w, S, f, false, P, lo, o, dir)
    requires Marked(w, f, dist, tag, P, o, dir) && f.dist[o] + 1 < f.dist[Nb(w, o, dir)]
    ensures Searching(w, S, Relax(w, f, o, dir), false, P, lo, o, dir + 1)
    ensures Marked(w, Relax(w, f, o, dir), dist, tag, P, o, dir + 1)
  {
    hide *;
    SearchLooks(w, S, f, false, P, lo, o, dir);
    LookingParts(w, f, P, o, dir);
    RelaxShortens(w, S, f, false, P, lo, o, dir);
    var no, g := Nb(w, o, dir), Relax(w, f, o, dir);
    SearchLooks(w, S, g, false, P, lo, o, dir + 1);
    LookingParts(w, g, P, o, dir);
    MarkedParts(w, f, dist, tag, P, o, dir);
    RelaxIsShort(w, f, P, o, dir);
    ShortenedReached(w, f, g, dist, P, no, f.dist[o] + 1, f.tag[o]);
    ShortenedTags(w, f, g, dist, tag, P, no, f.dist[o] + 1, f.tag[o]);
    ShortenedEdges(w, f, g, P, o, dir);
    MarkedIs(w, g, dist, tag, P, o, dir + 1);
  }

  /** The sector no, one farther than o, becomes contested. */
  ghost predicate Tied(w: World, f: Field, g: Field, P: set<int>, o: int, no: int)
    requires w.Valid() && Shape(w, f) && Shape(w, g)
  {
    IsSect(w, o) && IsSect(w, no) && no !in P && f.dist[o] + 1 == f.dist[no] && f.tag[o] != f.tag[no]
    && g == f.(tag := f.tag[no := -1])
  }

  lemma {:induction false} TiedTags(w: World, f: Field, g: Field, dist: seq<int>, tag: seq<int>, P: set<int>,
                                    o: int, dir: int)
    requires w.Valid() && Shape(w, f) && Shape(w, g) && |dist| == |tag| == w.Size() && 1 <= dir <= 6 && o in P
    requires Tied(w, f, g, P, o, Nb(w, o, dir)) && TagsKept(w, f, dist, tag, P)
    ensures TagsKept(w, g, dist, tag, P)
  {
    NbBack(w, o, dir);
    hide Nb, OnMap, PosOf, Rows;
    var no := Nb(w, o, dir);
    forall v | IsSect(w, v) && g.dist[v] == dist[v] && g.tag[v] != tag[v]
      ensures g.tag[v] == -1 && exists d :: 1 <= d <= 6 && Disagrees(w, g, tag, P, v, d)
    {
      if v == no && f.tag[no] == tag[no] {
        assert Disagrees(w, g, tag, P, no, DirBack(dir));
      } else {
        var d :| 1 <= d <= 6 && Disagrees(w, f, tag, P, v, d);
        assert Disagrees(w, g, tag, P, v, d);
      }
    }
  }

  lemma {:induction false} TiedEdges(w: World, f: Field, g: Field, P: set<int>, o: int, dir: int)
    requires w.Valid() && Shape(w, f) && Shape(w, g) && NbClosed(w) && 1 <= dir <= 6 && o in P
    requires Tied(w, f, g, P, o, Nb(w, o, dir)) && OwnEdges(w, f, P, o, dir)
    ensures OwnEdges(w, g, P, o, dir + 1)
  {
    hide Nb, OnMap, PosOf, Rows;
    forall u, d | IsSect(w, u) && u in P && 1 <= d <= 6 && (u != o || d < dir + 1)
      ensures EdgeDone(w, g, true, u, d)
    {
      if u != o || d != dir {
        assert EdgeDone(w, f, true, u, d);
      }
    }
  }

  lemma {:induction false} RelaxIsTied(w: World, f: Field, P: set<int>, o: int, dir: int)
    requires w.Valid() && 1 <= dir <= 6 && Looking(w, f, P, o) && Nb(w, o, dir) !in P
    requires f.dist[o] + 1 == f.dist[Nb(w, o, dir)] && f.tag[o] != f.tag[Nb(w, o, dir)]
    requires Shape(w, Relax(w, f, o, dir))
    ensures Tied(w, f, Relax(w, f, o, dir), P, o, Nb(w, o, dir))
  {
    hide Nb, OnMap, PosOf, Rows;
  }

  lemma {:induction false} TiedReached(w: World, f: Field, g: Field, dist: seq<int>, P: set<int>, o: int, no: int)
    requires w.Valid() && Shape(w, f) && Shape(w, g) && |dist| == w.Size() && Tied(w, f, g, P, o, no)
    requires Reached(w, f, dist, P)
    ensures Reached(w, g, dist, P)
  {
    hide OnMap, PosOf, Rows;
  }

  /** Nothing processed is as far as one more than what is being processed. */
  lemma {:induction false} NotProcessed(w: World, S: set<Source>, f: Field, P: set<int>, lo: int, o: int, dir: int,
                                        v: int)
    requires w.Valid() && o != -1 && Searching(w, S, f, false, P, lo, o, dir) && IsSect(w, v)
    requires Shape(w, f) && IsSect(w, o) && f.dist[v] == f.dist[o] + 1
    ensures v !in P
  {
    hide Nb, OnMap, PosOf, Rows, Dist, Backed, Sound, Covered, Relaxed;
  }

  lemma {:induction false} TiedMarked(w: World, S: set<Source>, f: Field, dist: seq<int>, tag: seq<int>,
                                      P: set<int>, lo: int, o: int, dir: int)
    requires w.Valid() && 1 <= dir <= 6 && o != -1 && Searching(w, S, f, false, P, lo, o, dir)
    requires Marked(w, f, dist, tag, P, o, dir)
    requires f.dist[o] + 1 == f.dist[Nb(w, o, dir)] && f.tag[o] != f.tag[Nb(w, o, dir)]
    ensures Searching(w, S, Relax(w, f, o, dir), false, P, lo, o, dir + 1)
    ensures Marked(w, Relax(w, f, o, dir), dist, tag, P, o, dir + 1)
  {
    hide *;
    SearchLooks(w, S, f, false, P, lo, o, dir);
    LookingParts(w, f, P, o, dir);
    RelaxTies(w, S, f, false, P, lo, o, dir);
    var no, g := Nb(w, o, dir), Relax(w, f, o, dir);
    SearchLooks(w, S, g, false, P, lo, o, dir + 1);
    LookingParts(w, g, P, o, dir);
    NotProcessed(w, S, f, P, lo, o, dir, no);
    MarkedParts(w, f, dist, tag, P, o, dir);
    RelaxIsTied(w, f, P, o, dir);
    TiedReached(w, f, g, dist, P, o, no);
    TiedTags(w, f, g, dist, tag, P, o, dir);
    TiedEdges(w, f, g, P, o, dir);
    MarkedIs(w, g, dist, tag, P, o, dir + 1);
  }

  lemma {:induction false} NbBack(w: World, o: int, d: int)
    requires w.Valid() && IsSect(w, o) && 1 <= d <= 6
    ensures 1 <= DirBack(d) <= 6 && IsSect(w, Nb(w, o, d)) && Nb(w, Nb(w, o, d), DirBack(d)) == o
  {
    NbIsSect(w, o, d);
  }

  /** Relaxing one edge keeps the invariant. */
  lemma {:induction false} GoingRelax(w: World, S: set<Source>, f: Field, start: Start, P: set<int>, lo: int,
                                      o: int, dir: int)
    requires w.Valid() && 1 <= dir <= 6 && o != -1 && Going(w, S, f, start, P, lo, o, dir)
    ensures |f.dist| == |f.tag| == w.Size() && IsSect(w, o) && IsSect(w, Nb(w, o, dir))
    ensures Going(w, S, Relax(w, f, o, dir), start, P, lo, o, dir + 1)
  {
    hide Nb, Dist, OnMap, PosOf, Rows, Backed, Sound, Covered;
    RelaxKeeps(w, S, f, start.Blank?, P, lo, o, dir);
    if start.Over? {
      if f.dist[o] + 1 < f.dist[Nb(w, o, dir)] {
        ShortenedMarked(w, S, f, start.dist, start.tag, P, lo, o, dir);
      } else if f.dist[o] + 1 == f.dist[Nb(w, o, dir)] && f.tag[o] != f.tag[Nb(w, o, dir)] {
        TiedMarked(w, S, f, start.dist, start.tag, P, lo, o, dir);
      } else {
        hide TagsKept, Reached;
        assert EdgeDone(w, f, false, o, dir);
        assert EdgeDone(w, f, true, o, dir);
      }
    }
  }

  /** Taking the next sector from the queue. */
  lemma {:induction false} GoingDequeue(w: World, S: set<Source>, f: Field, start: Start, P: set<int>, lo: int)
    requires w.Valid() && f.queue != [] && Going(w, S, f, start, P, lo, -1, 1)
    ensures f.queue[0] !in P && f.queue[0] !in f.queue[1..] && IsSect(w, f.queue[0]) && |f.dist| == w.Size()
    ensures Going(w, S, f.(queue := f.queue[1..]), start, P + {f.queue[0]}, f.dist[f.queue[0]], f.queue[0], 1)
  {
    hide Nb, Dist, OnMap, PosOf, Rows, Backed, Sound, Covered, Relaxed;
    DequeueKeeps(w, S, f, start.Blank?, P, lo);
    if start.Over? {
      var o, g := f.queue[0], f.(queue := f.queue[1..]);
      hide Level;
      assert f.queue == [o] + g.queue;
      forall v | IsSect(w, v) && g.dist[v] == start.dist[v] && g.tag[v] != start.tag[v]
        ensures g.tag[v] == -1 && exists d :: 1 <= d <= 6 && Disagrees(w, g, start.tag, P + {o}, v, d)
      {
        var d :| 1 <= d <= 6 && Disagrees(w, f, start.tag, P, v, d);
        assert Disagrees(w, g, start.tag, P + {o}, v, d);
      }
      forall u, d | IsSect(w, u) && u in P + {o} && 1 <= d <= 6 && (u != o || d < 1)
        ensures EdgeDone(w, g, true, u, d)
      {
        assert EdgeDone(w, f, true, u, d);
      }
    }
  }

  lemma {:induction false} GoingFinish(w: World, S: set<Source>, f: Field, start: Start, P: set<int>, lo: int, o: int)
    requires w.Valid() && Going(w, S, f, start, P, lo, o, 7)
    ensures Going(w, S, f, start, P, lo, -1, 1)
  {
    FinishSector(w, S, f, start.Blank?, P, lo, o);
    hide Nb, Dist, OnMap, PosOf, Rows, Backed, Sound, Covered, EdgeDone, Relaxed, Level, Disagrees;
  }

  /** While o is being processed there is room for another sector in a queue of Size() slots. */
  lemma {:induction false} GoingSects(w: World, S: set<Source>, f: Field, start: Start, P: set<int>, lo: int,
                                      o: int, dir: int)
    requires w.Valid() && Going(w, S, f, start, P, lo, o, dir)
    ensures |f.queue| <= w.Size() && (o != -1 ==> |f.queue| < w.Size() && IsSect(w, o) && f.dist[o] == lo)
  {
    hide Marked, Searching;
    QueueSects(w, S, f, start.Blank?, P, lo, o, dir);
  }

  // ---------------------------------------------------------------------------------------------
  // The finished search
  // ---------------------------------------------------------------------------------------------

  /** Distances grow by at most one along every edge. */
  ghost predicate Smooth(w: World, dist: seq<int>)
    requires w.Valid() && |dist| == w.Size()
  {
    (forall v :: 0 <= v < w.Size() ==> dist[v] <= INF)
    && forall u, d :: IsSect(w, u) && 1 <= d <= 6 ==> Coast.SlopeOk(w, dist, u, d)
  }

  /** What became nearer has a tag c exactly when all nearest sources have it. What did not has the tag it had exactly
      when that was contested, or no neighbour that became nearer, and is one nearer, disagrees; otherwise it is
      contested. */
  ghost predicate ExactOver(w: World, S: set<Source>, dist: seq<int>, tag: seq<int>, dist': seq<int>, tag': seq<int>)
    requires w.Valid()
  {
    |dist| == |tag| == |dist'| == |tag'| == w.Size()
    && forall v :: IsSect(w, v) ==>
         if dist'[v] < dist[v] then
           tag'[v] >= -1 && forall c :: c >= 0 ==> (tag'[v] == c <==> NearestAgree(w, S, v, c))
         else
           tag'[v] == if tag[v] == -1 || NoneDisagrees(w, dist, tag, dist', tag', v) then tag[v] else -1
  }

  ghost predicate NoneDisagrees(w: World, dist: seq<int>, tag: seq<int>, dist': seq<int>, tag': seq<int>, v: int)
    requires w.Valid() && |dist| == |tag| == |dist'| == |tag'| == w.Size() && IsSect(w, v)
  {
    forall d :: 1 <= d <= 6 && IsSect(w, Nb(w, v, d)) ==>
      var u := Nb(w, v, d);
      dist'[u] < dist[u] && dist'[u] + 1 == dist'[v] ==> tag'[u] == tag[v]
  }

  /** A search over another has ended. */
  ghost predicate Ended(w: World, S: set<Source>, f: Field, dist: seq<int>, tag: seq<int>, P: set<int>, lo: int)
    requires w.Valid()
  {
    Searching(w, S, f, false, P, lo, -1, 1) && f.queue == [] && Marked(w, f, dist, tag, P, -1, 1) && Smooth(w, dist)
  }

  lemma {:induction false} NearerTag(w: World, S: set<Source>, f: Field, dist: seq<int>, tag: seq<int>, P: set<int>,
                                     lo: int, s: Source, v: int)
    requires w.Valid() && Ended(w, S, f, dist, tag, P, lo)
    requires s in S && IsSect(w, v) && Reach(w, s, v) == f.dist[v] < dist[v]
    ensures f.tag[v] == s.tag || f.tag[v] == -1
    decreases Dist(w, s.at, v)
  {
    hide Nb, Dist, OnMap, PosOf, Rows, Sound, Level, TagsKept;
    DistFacts(w, s.at, v);
    if v != s.at {
      var d := Toward(w, s.at, v);
      var u := Nb(w, v, d);
      DistFacts(w, s.at, u);
      NbIsSect(w, v, d);
      NotAbove(w, S, f, false, P, lo, s, u);
      assert EdgeDone(w, f, false, u, DirBack(d));
      assert Coast.SlopeOk(w, dist, u, DirBack(d));
      assert u in P;
      assert EdgeDone(w, f, true, u, DirBack(d));
      NearerTag(w, S, f, dist, tag, P, lo, s, u);
    }
  }

  lemma {:induction false} NearerIsExact(w: World, S: set<Source>, f: Field, dist: seq<int>, tag: seq<int>,
                                         P: set<int>, lo: int, v: int, c: int)
    requires w.Valid() && Ended(w, S, f, dist, tag, P, lo) && IsSect(w, v) && f.dist[v] < dist[v] && c >= 0
    ensures f.tag[v] == c <==> NearestAgree(w, S, v, c)
  {
    hide Nb, Dist, OnMap, PosOf, Reach, Rows, Relaxed, Level, Covered, Marked;
    assert f.dist[v] < INF;
    assert Backed(w, S, v, f.dist[v], f.tag[v]);
    assert S != {};
    hide Smooth;
    NearestIffReached(w, S, f, false, P, lo, v);
    forall s | Nearest(w, S, s, v)
      ensures f.tag[v] == s.tag || f.tag[v] == -1
    {
      NearerTag(w, S, f, dist, tag, P, lo, s, v);
    }
    TagsBacked(w, S, f, false, P, lo, v);
  }

  lemma {:induction false} KeptIsExact(w: World, S: set<Source>, f: Field, dist: seq<int>, tag: seq<int>,
                                       P: set<int>, lo: int, v: int)
    requires w.Valid() && Ended(w, S, f, dist, tag, P, lo) && IsSect(w, v) && f.dist[v] >= dist[v]
    ensures f.tag[v] == if tag[v] == -1 || NoneDisagrees(w, dist, tag, f.dist, f.tag, v) then tag[v] else -1
  {
    hide Nb, Dist, OnMap, PosOf, Reach, Rows, Relaxed, Level, Covered, Sound, Smooth;
    if f.tag[v] != tag[v] {
      var d :| 1 <= d <= 6 && Disagrees(w, f, tag, P, v, d);
    } else {
      forall d | 1 <= d <= 6 && IsSect(w, Nb(w, v, d))
        ensures var u := Nb(w, v, d);
                tag[v] != -1 && f.dist[u] < dist[u] && f.dist[u] + 1 == f.dist[v] ==> f.tag[u] == tag[v]
      {
        var u := Nb(w, v, d);
        NbBack(w, v, d);
        if f.dist[u] < dist[u] {
          assert EdgeDone(w, f, true, u, DirBack(d));
        }
      }
    }
  }

  /** When the queue is empty the tags are exact in this sense. */
  lemma {:induction false} OverIsExact(w: World, S: set<Source>, f: Field, dist: seq<int>, tag: seq<int>,
                                       P: set<int>, lo: int)
    requires w.Valid() && Ended(w, S, f, dist, tag, P, lo)
    ensures ExactOver(w, S, dist, tag, f.dist, f.tag)
  {
    hide Nb, Dist, OnMap, PosOf, Reach, Rows, Relaxed, Level, Covered, Sound, Smooth, NearestAgree, NoneDisagrees;
    forall v | IsSect(w, v)
      ensures if f.dist[v] < dist[v] then
                f.tag[v] >= -1 && forall c :: c >= 0 ==> (f.tag[v] == c <==> NearestAgree(w, S, v, c))
              else
                f.tag[v] == if tag[v] == -1 || NoneDisagrees(w, dist, tag, f.dist, f.tag, v) then tag[v] else -1
    {
      if f.dist[v] < dist[v] {
        forall c | c >= 0
          ensures f.tag[v] == c <==> NearestAgree(w, S, v, c)
        {
          NearerIsExact(w, S, f, dist, tag, P, lo, v, c);
        }
      } else {
        KeptIsExact(w, S, f, dist, tag, P, lo, v);
      }
    }
  }

  /** What either kind of search has computed in the end. */
  lemma {:induction false} GoingIsExact(w: World, S: set<Source>, f: Field, start: Start, P: set<int>, lo: int)
    requires w.Valid() && Going(w, S, f, start, P, lo, -1, 1) && f.queue == []
    requires start.Over? ==> |start.dist| == w.Size() && Smooth(w, start.dist)
    ensures ExactDistance(w, S, f.dist) && SoundTag(w, S, f.tag) && Shape(w, f)
    ensures start.Blank? ==> ExactTag(w, S, f.tag)
    ensures start.Over? ==> ExactOver(w, S, start.dist, start.tag, f.dist, f.tag)
  {
    hide Marked, Smooth, Searching;
    FinishedIsExact(w, S, f, start.Blank?, P, lo);
    if start.Over? {
      OverIsExact(w, S, f, start.dist, start.tag, P, lo);
    }
  }

  lemma {:induction false} ExactIsSmooth(w: World, S: set<Source>, f: Field)
    requires w.Valid() && SourcesOk(w, S) && Shape(w, f) && ExactDistance(w, S, f.dist)
    ensures Smooth(w, f.dist)
  {
    hide Nb, OnMap, PosOf, Rows, Dist, ExactDistance, Coast.SlopeOk;
    forall u, d | IsSect(w, u) && 1 <= d <= 6
      ensures Coast.SlopeOk(w, f.dist, u, d)
    {
      Coast.ExactIsLipschitz(w, S, f.dist, u, d);
    }
  }

  /** The finished first search with the borders queued starts the second. */
  lemma {:induction false} OverlaidGoing(w: World, own: seq<int>, n: int, f1: Field, id: int, f: Field)
    requires w.Valid() && |own| == w.Size() && 0 <= id < MAX_WEIGHT && Shape(w, f1)
    requires ExactDistance(w, Coast.CoastSources(w, own, n), f1.dist)
    requires ExactTag(w, Coast.CoastSources(w, own, n), f1.tag) && SoundTag(w, Coast.CoastSources(w, own, n), f1.tag)
    requires Coast.Overlaid(w, f1.dist, f1.tag, id, Coast.Borders(w, f1.dist, f1.tag, id), f)
    ensures Going(w, Coast.SphereSources(w, own, n, f1.dist, f1.tag, id), f, Over(f1.dist, f1.tag), {}, id + 1, -1, 1)
    ensures Smooth(w, f1.dist)
  {
    Coast.OverlaidSearching(w, own, n, f1, id, f);
    Coast.OverlaidShape(w, own, n, f1, id, f);
    hide Nb, OnMap, PosOf, Rows, Dist, ExactDistance, ExactTag, SoundTag, Searching, Coast.CoastSources,
         Coast.SphereSources, Smooth, Shape;
    ExactIsSmooth(w, Coast.CoastSources(w, own, n), f1);
    AllNbClosed(w);
    BordersReached(w, f1, id, f);
    assert TagsKept(w, f, f1.dist, f1.tag, {}) && OwnEdges(w, f, {}, -1, 1);
  }

  lemma {:induction false} BordersReached(w: World, f1: Field, id: int, f: Field)
    requires w.Valid() && Shape(w, f1) && Shape(w, f)
    requires Coast.Overlaid(w, f1.dist, f1.tag, id, Coast.Borders(w, f1.dist, f1.tag, id), f)
    ensures Reached(w, f, f1.dist, {})
  {
    hide Nb, OnMap, PosOf, Rows;
  }
}
