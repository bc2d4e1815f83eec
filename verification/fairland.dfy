/** The world generator. */
module WorldGen {
  import opened Basics
  import opened Hex
  import opened Grid
  import opened Rings
  import Bfs
  import Coast
  import Overlay
  import opened Sums
  import opened Batches
  import opened Capitals
  import opened Choice
  import opened Elevation
  import Resources
  import opened Land

  predicate IsMultiple(a: nat, n: nat)
    requires n >= 1
  {
    a % n == 0
  }

  /** What is stored of a generated sector, as far as it depends on the map. */
  datatype SectorRecord = SectorRecord(
    uid: int, x: int, y: int, sectorType: SectorType, coastal: bool, dterr: int, elev: int,
    resources: Resources.Yield)

  class Fairland {
    // Parameters
    const w: World
    const nc: nat               // number of continents
    const sc: nat               // continent size
    const ni: nat               // number of islands
    const islandSize: nat       // average island size
    const sp: int               // spike percentage
    const pm: int               // mountain percentage
    const di: int               // distance between continents
    const id: int               // distance from islands to continents
    const distinctIslands: bool

    // Per-sector arrays
    const own: array<int>
    const adjLand: array<set<int>>
    const elev: array<int>
    const xzone: array<int>
    const seen: array<int>
    const closest: array<int>
    const distance: array<int>

    // The ring buffer of the breadth-first search, and the queue it holds
    var bfsHead: nat
    var bfsTail: nat
    const bfsBuf: array<int>
    ghost var queue: seq<int>

    var curSeen: nat

    // Per-landmass
    const cap: array<Pos>
    var sect: seq<seq<Pos>>
    const isecs: array<int>

    /** The command line accepts these parameters, and the arrays are in place. */
    ghost predicate Ready() {
      Params() && Sizes() && Unaliased()
    }

    ghost predicate Params() {
      w.Valid() && nc >= 1 && sc >= 2 && IsMultiple(ni, nc) && islandSize >= 1
      && 0 <= sp <= 100 && 0 <= pm <= 100 && 0 <= di <= w.wx + w.wy && 0 <= id <= w.wx + w.wy
    }

    ghost predicate Sizes() {
      own.Length == adjLand.Length == elev.Length == xzone.Length == w.Size()
      && seen.Length == closest.Length == distance.Length == w.Size()
      && bfsBuf.Length == w.Size() + 1 && cap.Length == nc && isecs.Length == nc + ni
    }

    ghost predicate Unaliased() {
      own != elev && own != xzone && own != seen && own != closest && own != distance && own != bfsBuf && own != isecs
      && elev != xzone && elev != seen && elev != closest && elev != distance && elev != bfsBuf && elev != isecs
      && xzone != seen && xzone != closest && xzone != distance && xzone != bfsBuf && xzone != isecs
      && seen != closest && seen != distance && seen != bfsBuf && seen != isecs
      && closest != distance && closest != bfsBuf && closest != isecs
      && distance != bfsBuf && distance != isecs
      && bfsBuf != isecs
    }

    constructor (w: World, nc: nat, sc: nat, ni: nat, islandSize: nat, sp: int, pm: int, di: int, id: int,
                 distinctIslands: bool)
      requires w.Valid() && nc >= 1 && sc >= 2 && IsMultiple(ni, nc) && islandSize >= 1
      requires 0 <= sp <= 100 && 0 <= pm <= 100 && 0 <= di <= w.wx + w.wy && 0 <= id <= w.wx + w.wy
      ensures Ready()
      ensures this.w == w && this.nc == nc && this.sc == sc && this.ni == ni && this.islandSize == islandSize
      ensures this.sp == sp && this.pm == pm && this.di == di && this.id == id
      ensures this.distinctIslands == distinctIslands
      ensures fresh(own) && fresh(adjLand) && fresh(elev) && fresh(xzone) && fresh(seen) && fresh(closest)
      ensures fresh(distance) && fresh(bfsBuf) && fresh(cap) && fresh(isecs)
      ensures Untouched()
    {
      this.w, this.nc, this.sc, this.ni, this.islandSize := w, nc, sc, ni, islandSize;
      this.sp, this.pm, this.di, this.id := sp, pm, di, id;
      this.distinctIslands := distinctIslands;
      var sz := w.Size();
      own := new int[sz](_ => SEA);
      adjLand := new set<int>[sz](_ => {});
      elev := new int[sz](_ => 0);
      xzone := new int[sz](_ => FREE);
      seen := new int[sz](_ => 0);
      closest := new int[sz](_ => -1);
      distance := new int[sz](_ => Bfs.INF);
      bfsHead, bfsTail, queue := 0, 0, [];
      bfsBuf := new int[sz + 1](_ => 0);
      curSeen := 0;
      cap := new Pos[nc](_ => Pos(0, 0));
      sect := seq(nc + ni, _ => []);
      isecs := new int[nc + ni](_ => 0);
    }

    ghost function Terrain(): Terrain
      reads this, own, adjLand
    {
      Land.Terrain(own[..], adjLand[..], sect)
    }

    /** The state a new generator starts in. */
    ghost predicate Untouched()
      requires Ready()
      reads this, own, adjLand, elev, seen, isecs
    {
      |sect| == nc + ni
      && (forall c :: 0 <= c < nc + ni ==> sect[c] == [] && isecs[c] == 0)
      && (forall v :: 0 <= v < w.Size() ==> own[v] == SEA && adjLand[v] == {} && elev[v] == 0 && seen[v] == 0)
    }

    /** Any value from 0 to n - 1; 0 if there is none. */
    method Roll0(n: int) returns (r: int)
      ensures if n <= 0 then r == 0 else 0 <= r < n
    {
      if n <= 0 {
        return 0;
      }
      r :| 0 <= r < n;
    }

    // -------------------------------------------------------------------------------------------
    // Exclusive zones
    // -------------------------------------------------------------------------------------------

    /** Marks every sector within `dist`, ring by ring. */
    method XzoneAroundSector(c: int, x: int, y: int, dist: int)
      requires Ready() && OnMap(w, Pos(x, y)) && c >= 0 && dist >= 0
      modifies xzone
      ensures IsSect(w, Off(w, Pos(x, y)))
      ensures Marked(w, old(xzone[..]), xzone[..], c, Off(w, Pos(x, y)), dist)
    {
      hide Unaliased, Nb, OnMap, PosOf, Rows, Wrap, Off, Dist, MapDist;
      ghost var zone0 := xzone[..];
      var o := Off(w, Pos(x, y));
      OffOfPos(w, Pos(x, y));
      DistFacts(w, o, o);
      xzone[o] := c;
      assert forall v :: IsSect(w, v) && v != o ==> Dist(w, o, v) > 0 by {
        forall v | IsSect(w, v) && v != o
          ensures Dist(w, o, v) > 0
        {
          DistFacts(w, o, v);
        }
      }
      for d := 1 to dist + 1
        invariant Marked(w, zone0, xzone[..], c, o, d - 1)
      {
        XzoneRing(c, x, y, d, zone0);
      }
    }

    /** One ring of the zone: after the rings below d, the ring d completes the ball of radius d. */
    method XzoneRing(c: int, x: int, y: int, d: int, ghost zone0: seq<int>)
      requires Ready() && OnMap(w, Pos(x, y)) && c >= 0 && d >= 1 && |zone0| == w.Size()
      requires IsSect(w, Off(w, Pos(x, y))) && Marked(w, zone0, xzone[..], c, Off(w, Pos(x, y)), d - 1)
      modifies xzone
      ensures Marked(w, zone0, xzone[..], c, Off(w, Pos(x, y)), d)
    {
      ghost var p := Pos(x, y);
      ghost var o := Off(w, p);
      ghost var met: set<int> := {};
      RingStart(w, p, d);
      assert Walked(w, p, d, 1, 0, met);
      assert RingMarked(w, zone0, xzone[..], c, o, d, met);
      hide Unaliased, Nb, OnMap, PosOf, Rows, Off, Dist, MapDist, Wrap, Walked, RingAt;
      var rx := Wrap(x - 2 * d, w.wx);
      var ry := y;
      var iter := new HexagonIter(d);
      var more := true;
      while more
        invariant iter.Valid() && iter.n == d && (more <==> iter.dir <= DIR_LAST)
        invariant Pos(rx, ry) == RingPos(w, p, d, iter.dir, iter.step)
        invariant Walked(w, p, d, iter.dir, iter.step, met)
        invariant RingMarked(w, zone0, xzone[..], c, o, d, met)
        decreases 7 - iter.dir, d - iter.step
      {
        RingSectNear(w, p, d, iter.dir, iter.step);
        WalkedNext(w, p, d, iter.dir, iter.step, met);
        var ro := Off(w, Pos(rx, ry));
        RingMarkOne(w, zone0, xzone[..], c, o, d, met, ro);
        ghost var z := xzone[..];
        if xzone[ro] == FREE {
          xzone[ro] := c;
        } else if xzone[ro] != c {
          xzone[ro] := CONTESTED;
        }
        assert xzone[..] == z[ro := Mark(c, z[ro])];
        met := met + {ro};
        more, rx, ry := iter.Advance(w, rx, ry, p);
      }
      forall v | IsSect(w, v) && Dist(w, o, v) == d
        ensures v in met
      {
        WalkedAll(w, p, d, met, v);
      }
    }

    /** Marks the zones of one landmass. */
    method XzoneAroundIsland(c: int, dist: int, ghost from: set<int>)
      requires Ready() && TerrainOk(w, Terrain()) && 0 <= c < |sect| && dist >= 0
      requires Zoned(w, own[..], xzone[..], from, dist, c)
      modifies xzone
      ensures Zoned(w, own[..], xzone[..], from + SectSet(w, sect[c]), dist, c)
    {
      hide Rows, OnMap, PosOf, Off, TerrainOk, ZoningIsland, Zoned, SectSet, Params, Sizes, Unaliased;
      ghost var t := Terrain();
      ZoningStarts(c, from, dist);
      var s := sect[c];
      for i := 0 to |s|
        invariant ZoningIsland(t, c, i, from, dist)
      {
        XzoneAt(t, c, i, from, dist);
      }
      ZoningEnds(t, c, from, dist);
    }

    /** The zones of `from` and of the first i sectors of landmass c are marked, on an unchanged terrain. */
    ghost predicate ZoningIsland(t: Terrain, c: int, i: int, from: set<int>, dist: int)
      requires Ready()
      reads this, own, adjLand, xzone
    {
      Terrain() == t && TerrainOk(w, t) && 0 <= c < |t.sect| && 0 <= i <= |t.sect[c]|
      && Zoned(w, t.own, xzone[..], from + SectSet(w, t.sect[c][..i]), dist, c)
    }

    lemma {:induction false} ZoningStarts(c: int, from: set<int>, dist: int)
      requires Ready() && TerrainOk(w, Terrain()) && 0 <= c < |sect| && Zoned(w, own[..], xzone[..], from, dist, c)
      ensures ZoningIsland(Terrain(), c, 0, from, dist)
    {
      hide Rows, OnMap, PosOf, Off, TerrainOk, Zoned;
      assert SectSet(w, sect[c][..0]) == {};
      assert from + {} == from;
    }

    lemma {:induction false} ZoningEnds(t: Terrain, c: int, from: set<int>, dist: int)
      requires Ready() && 0 <= c < |t.sect| && ZoningIsland(t, c, |t.sect[c]|, from, dist)
      ensures Zoned(w, own[..], xzone[..], from + SectSet(w, sect[c]), dist, c)
    {
      hide Rows, OnMap, PosOf, Off, TerrainOk, Zoned, SectSet;
      assert t.sect[c][..|t.sect[c]|] == t.sect[c];
    }

    /** Marks the zone of the i-th sector of landmass c. */
    method XzoneAt(ghost t: Terrain, c: int, i: int, ghost from: set<int>, dist: int)
      requires Ready() && ZoningIsland(t, c, i, from, dist) && i < |t.sect[c]| && dist >= 0
      modifies xzone
      ensures ZoningIsland(t, c, i + 1, from, dist)
    {
      hide Nb, OnMap, PosOf, Rows, Off, Dist, TerrainOk, Marked, Zoned, SectSet;
      var p := sect[c][i];
      ghost var zone, done := xzone[..], from + SectSet(w, t.sect[c][..i]);
      ListedAt(w, t, c, i);
      assert p == Pos(p.x, p.y);
      XzoneAroundSector(c, p.x, p.y, dist);
      ZonedNext(w, t.own, zone, xzone[..], done, dist, Off(w, p));
      SectSetNext(w, t.sect[c], i);
      assert done + {Off(w, p)} == from + SectSet(w, t.sect[c][..i + 1]);
    }

    /** Rebuilds the zones of the first n landmasses. */
    method XzoneInit(n: nat)
      requires Ready() && TerrainOk(w, Terrain()) && n <= |sect|
      modifies xzone
      ensures ZonesExact(w, own[..], xzone[..], n, id)
      ensures LandZones(w, own[..], xzone[..], LandBelow(w, own[..], n), id)
    {
      hide Nb, OnMap, PosOf, Rows, Off, Dist, AdjOk, Connected, Listed;
      for i := 0 to xzone.Length
        invariant forall k :: 0 <= k < i ==> xzone[k] == FREE
      {
        xzone[i] := FREE;
      }
      ghost var done := LandBelow(w, own[..], 0);
      for c := 0 to n
        invariant done == LandBelow(w, own[..], c)
        invariant Zoned(w, own[..], xzone[..], done, id, c - 1)
      {
        XzoneAroundIsland(c, id, done);
        LandBelowNext(w, Terrain(), c);
        done := done + SectSet(w, sect[c]);
      }
    }

    // -------------------------------------------------------------------------------------------
    // Breadth-first search
    // -------------------------------------------------------------------------------------------

    ghost function Slot(k: int): int {
      if k >= bfsBuf.Length then k - bfsBuf.Length else k
    }

    /** The ring buffer holds the queue, which always fits: there is one slot more than sectors. */
    ghost predicate QueueOk()
      requires Ready()
      reads this, bfsBuf
    {
      bfsHead < bfsBuf.Length && bfsTail < bfsBuf.Length && |queue| < bfsBuf.Length
      && bfsTail == Slot(bfsHead + |queue|)
      && forall i :: 0 <= i < |queue| ==> bfsBuf[Slot(bfsHead + i)] == queue[i]
    }

    ghost function FieldNow(): Bfs.Field
      reads this, distance, closest
    {
      Bfs.Field(distance[..], closest[..], queue)
    }

    method BfsInit()
      requires Ready()
      modifies closest, distance, this`bfsHead, this`bfsTail, this`queue
      ensures QueueOk() && queue == []
      ensures forall v :: 0 <= v < w.Size() ==> closest[v] == -1 && distance[v] == Bfs.INF
    {
      hide Rows;
      for i := 0 to closest.Length
        invariant forall k :: 0 <= k < i ==> closest[k] == -1
      {
        closest[i] := -1;
      }
      for i := 0 to distance.Length
        invariant forall k :: 0 <= k < i ==> distance[k] == Bfs.INF
        invariant forall k :: 0 <= k < w.Size() ==> closest[k] == -1
      {
        distance[i] := Bfs.INF;
      }
      bfsHead := 0;
      bfsTail := 0;
      queue := [];
    }

    method BfsEnqueue(c: int, x: int, y: int, dist: int)
      requires Ready() && QueueOk() && |queue| < w.Size() && OnMap(w, Pos(x, y))
      modifies closest, distance, bfsBuf, this`bfsTail, this`queue
      ensures QueueOk() && queue == old(queue) + [Off(w, Pos(x, y))]
      ensures IsSect(w, Off(w, Pos(x, y)))
      ensures distance[..] == old(distance[..])[Off(w, Pos(x, y)) := dist]
      ensures closest[..] == old(closest[..])[Off(w, Pos(x, y)) := c]
    {
      OffOfPos(w, Pos(x, y));
      hide Rows, OnMap, PosOf, Off;
      var o := Off(w, Pos(x, y));
      closest[o] := c;
      distance[o] := dist;
      bfsBuf[bfsTail] := o;
      bfsTail := bfsTail + 1;
      if bfsTail >= bfsBuf.Length {
        bfsTail := 0;
      }
      queue := queue + [o];
    }

    method BfsDequeue() returns (o: int)
      requires Ready() && QueueOk() && queue != []
      modifies this`bfsHead, this`queue
      ensures QueueOk() && o == old(queue)[0] && queue == old(queue)[1..]
    {
      hide Rows, Unaliased;
      o := bfsBuf[bfsHead];
      bfsHead := bfsHead + 1;
      if bfsHead >= bfsBuf.Length {
        bfsHead := 0;
      }
      queue := queue[1..];
    }

    /** Looks along the six edges of o. */
    method BfsExpand(o: int, ghost S: set<Bfs.Source>, ghost start: Overlay.Start, ghost done: set<int>, ghost lo: int)
      requires Ready() && QueueOk() && IsSect(w, o)
      requires Overlay.Going(w, S, FieldNow(), start, done, lo, o, DIR_FIRST)
      modifies closest, distance, bfsBuf, this`bfsTail, this`queue
      ensures QueueOk() && Overlay.Going(w, S, FieldNow(), start, done, lo, o, DIR_LAST + 1)
    {
      hide Rows, OnMap, PosOf, Off, Overlay.Going, Wrap;
      Overlay.GoingSects(w, S, FieldNow(), start, done, lo, o, DIR_FIRST);
      var dist := distance[o] + 1;
      var p := PosOf(w, o);
      for dir := DIR_FIRST to DIR_LAST + 1
        invariant QueueOk() && Overlay.Going(w, S, FieldNow(), start, done, lo, o, dir)
        invariant distance[o] == lo
      {
        ghost var f := FieldNow();
        Overlay.GoingRelax(w, S, f, start, done, lo, o, dir);
        Overlay.GoingSects(w, S, f, start, done, lo, o, dir);
        NbIsSect(w, o, dir);
        var (dx, dy) := DirOff(dir);
        var nx, ny := Wrap(p.x + dx, w.wx), Wrap(p.y + dy, w.wy);
        var no := Off(w, Pos(nx, ny));
        if dist < distance[no] {
          var c := closest[o];
          BfsEnqueue(c, nx, ny, dist);
        } else if distance[no] == dist {
          if closest[o] != closest[no] {
            closest[no] := -1;
          }
        }
        assert FieldNow() == Bfs.Relax(w, f, o, dir);
        Overlay.GoingSects(w, S, FieldNow(), start, done, lo, o, dir + 1);
      }
    }

    /** Runs the search to its end. No sector is queued twice, so the ring buffer cannot overflow. */
    method BfsRunQueue(ghost S: set<Bfs.Source>, ghost start: Overlay.Start, ghost level: int)
      requires Ready() && QueueOk()
      requires Overlay.Going(w, S, FieldNow(), start, {}, level, -1, 1)
      requires start.Over? ==> |start.dist| == w.Size() && Overlay.Smooth(w, start.dist)
      modifies closest, distance, bfsBuf, this`bfsHead, this`bfsTail, this`queue
      ensures QueueOk() && queue == []
      ensures Bfs.ExactDistance(w, S, distance[..]) && Bfs.SoundTag(w, S, closest[..])
      ensures start.Blank? ==> Bfs.ExactTag(w, S, closest[..])
      ensures start.Over? ==> Overlay.ExactOver(w, S, start.dist, start.tag, distance[..], closest[..])
      ensures Bfs.Shape(w, FieldNow())
    {
      hide Rows, OnMap, PosOf, Off, Nb, Overlay.Smooth, Overlay.Going, Wrap;
      ghost var done: set<int> := {};
      ghost var lo := level;
      while bfsHead != bfsTail
        invariant QueueOk() && Overlay.Going(w, S, FieldNow(), start, done, lo, -1, 1)
        invariant done <= AllSlots(w.Size())
        decreases |AllSlots(w.Size()) - done|
      {
        Overlay.GoingDequeue(w, S, FieldNow(), start, done, lo);
        var o := BfsDequeue();
        SetShrinks(AllSlots(w.Size()), done, o);
        done, lo := done + {o}, distance[o];
        BfsExpand(o, S, start, done, lo);
        Overlay.GoingFinish(w, S, FieldNow(), start, done, lo, o);
      }
      Overlay.GoingIsExact(w, S, FieldNow(), start, done, lo);
    }

    method IsCoastal(x: int, y: int) returns (coastal: bool)
      requires Ready() && TerrainOk(w, Terrain()) && OnMap(w, Pos(x, y))
      requires IsSect(w, Off(w, Pos(x, y))) && own[Off(w, Pos(x, y))] != SEA
      ensures coastal <==> Coastal(w, own[..], Off(w, Pos(x, y)))
    {
      CoastalIffBits(w, Terrain(), Off(w, Pos(x, y)));
      return adjLand[Off(w, Pos(x, y))] != ALL_LAND;
    }

    /** Queues the coast of landmass c at distance 0. */
    method BfsEnqueueIsland(c: int)
      requires Ready() && TerrainOk(w, Terrain()) && 0 <= c < |sect| && QueueOk()
      requires Coast.Seeded(w, own[..], Coast.CoastBelow(w, own[..], c), FieldNow())
      modifies closest, distance, bfsBuf, this`bfsTail, this`queue
      ensures QueueOk() && Coast.Seeded(w, own[..], Coast.CoastBelow(w, own[..], c + 1), FieldNow())
    {
      ghost var t := Terrain();
      SeedingStarts(c);
      hide Rows, OnMap, PosOf, Off, TerrainOk, SeedingIsland, Coast.Seeded, Coast.CoastBelow;
      var s := sect[c];
      for i := 0 to |s|
        invariant SeedingIsland(t, c, i)
      {
        BfsSeedAt(c, i, t);
      }
      SeedingEnds(t, c);
    }

    /** The first i sectors of landmass c have been looked at, on an unchanged terrain. */
    ghost predicate SeedingIsland(t: Terrain, c: int, i: int)
      requires Ready()
      reads this, own, adjLand, closest, distance, bfsBuf
    {
      QueueOk() && Terrain() == t && TerrainOk(w, t) && 0 <= c < |t.sect| && 0 <= i <= |t.sect[c]|
      && Coast.Seeded(w, t.own, Coast.SeedSet(w, t.own, c, t.sect[c], i), FieldNow())
    }

    lemma {:induction false} SeedingStarts(c: int)
      requires Ready() && TerrainOk(w, Terrain()) && 0 <= c < |sect| && QueueOk()
      requires Coast.Seeded(w, own[..], Coast.CoastBelow(w, own[..], c), FieldNow())
      ensures SeedingIsland(Terrain(), c, 0)
    {
      Coast.SeedSetStarts(w, own[..], c, sect[c]);
      hide Rows, OnMap, PosOf, Off, TerrainOk, Coast.Seeded, Coast.CoastBelow, Coast.SeedSet;
    }

    lemma {:induction false} SeedingEnds(t: Terrain, c: int)
      requires Ready() && 0 <= c < |t.sect| && SeedingIsland(t, c, |t.sect[c]|)
      ensures QueueOk() && Coast.Seeded(w, own[..], Coast.CoastBelow(w, own[..], c + 1), FieldNow())
    {
      hide Rows, OnMap, PosOf, Off, TerrainOk, Coast.Seeded, Coast.CoastBelow, Coast.SeedSet;
      Coast.SeedSetEnds(w, t, c);
    }

    /** Queues the i-th sector of landmass c if it is coastal and not queued yet. */
    method BfsSeedAt(c: int, i: int, ghost t: Terrain)
      requires Ready() && SeedingIsland(t, c, i) && i < |t.sect[c]|
      modifies closest, distance, bfsBuf, this`bfsTail, this`queue
      ensures SeedingIsland(t, c, i + 1)
    {
      hide Rows, OnMap, PosOf, Off, Nb, Dist, TerrainOk, Coast.Seeded, Coastal, Coast.CoastBelow, Coast.SeedSet;
      var p := sect[c][i];
      ListedAt(w, t, c, i);
      assert p == Pos(p.x, p.y);
      Coast.SeedSetNext(w, t.own, c, t.sect[c], i);
      BfsSeed(c, p.x, p.y, Coast.SeedSet(w, t.own, c, t.sect[c], i));
    }

    /** Queues one sector if it is coastal, unless it is already at distance 0. */
    method BfsSeed(c: int, x: int, y: int, ghost from: set<int>)
      requires Ready() && TerrainOk(w, Terrain()) && QueueOk() && OnMap(w, Pos(x, y))
      requires IsSect(w, Off(w, Pos(x, y))) && c >= 0 && own[Off(w, Pos(x, y))] == c
      requires Coast.Seeded(w, own[..], from, FieldNow())
      modifies closest, distance, bfsBuf, this`bfsTail, this`queue
      ensures QueueOk()
      ensures Coast.Seeded(w, own[..], from + (if Coastal(w, own[..], Off(w, Pos(x, y))) then {Off(w, Pos(x, y))}
                                                 else {}),
                           FieldNow())
    {
      hide Rows, OnMap, PosOf, Off, Nb, Coastal, TerrainOk;
      var coastal := IsCoastal(x, y);
      if coastal {
        var dist := distance[Off(w, Pos(x, y))];
        ghost var f := FieldNow();
        if dist > 0 {
          Coast.SeedOne(w, own[..], from, f, Off(w, Pos(x, y)));
          Coast.SeededFits(w, own[..], from, f, Off(w, Pos(x, y)));
          BfsEnqueue(c, x, y, 0);
        } else {
          assert from + {Off(w, Pos(x, y))} == from;
        }
      } else {
        assert from + {} == from;
      }
    }

    /** The coasts of the landmasses below n are queued, in order. */
    method BfsSeedCoasts(n: nat)
      requires Ready() && TerrainOk(w, Terrain()) && n <= |sect|
      modifies closest, distance, bfsBuf, this`bfsHead, this`bfsTail, this`queue
      ensures QueueOk() && Coast.Seeded(w, own[..], Coast.CoastBelow(w, own[..], n), FieldNow())
    {
      ghost var t := Terrain();
      BfsInit();
      assert Coast.CoastBelow(w, t.own, 0) == {};
      hide Rows, OnMap, PosOf, Off, Nb, TerrainOk, Coast.CoastBelow;
      for c := 0 to n
        invariant QueueOk() && Terrain() == t
        invariant Coast.Seeded(w, t.own, Coast.CoastBelow(w, t.own, c), FieldNow())
      {
        BfsEnqueueIsland(c);
      }
    }

    /** Afterwards every sector knows its distance to the nearest coast, and whose coast that is. */
    method InitDistanceToCoast()
      requires Ready() && TerrainOk(w, Terrain()) && |sect| == nc + ni
      modifies closest, distance, bfsBuf, this`bfsHead, this`bfsTail, this`queue
      ensures QueueOk() && queue == [] && Bfs.Shape(w, FieldNow())
      ensures Bfs.ExactDistance(w, Coast.CoastSources(w, own[..], nc + ni), distance[..])
      ensures Bfs.ExactTag(w, Coast.CoastSources(w, own[..], nc + ni), closest[..])
    {
      hide Rows, TerrainOk, Coast.Seeded, Bfs.Searching, Bfs.ExactDistance, Bfs.ExactTag, Bfs.SoundTag, Bfs.Shape;
      ghost var t := Terrain();
      BfsSeedCoasts(nc + ni);
      Coast.SeededSearching(w, t.own, nc + ni, FieldNow());
      BfsRunQueue(Coast.CoastSources(w, t.own, nc + ni), Overlay.Blank, 0);
    }

    /** Whether the sector touches one with another tag. */
    method TouchesOtherSphere(x: int, y: int) returns (border: bool)
      requires Ready() && OnMap(w, Pos(x, y))
      ensures IsSect(w, Off(w, Pos(x, y)))
      ensures var o := Off(w, Pos(x, y));
              border <==> exists d :: 1 <= d <= 6 && IsSect(w, Nb(w, o, d)) && closest[Nb(w, o, d)] != closest[o]
    {
      OffOfPos(w, Pos(x, y));
      hide Rows, OnMap, PosOf, Wrap, Unaliased, Off, Nb, DirOff;
      ghost var o := Off(w, Pos(x, y));
      var c := closest[Off(w, Pos(x, y))];
      for dir := DIR_FIRST to DIR_LAST + 1
        invariant forall d :: 1 <= d < dir ==> IsSect(w, Nb(w, o, d)) && closest[Nb(w, o, d)] == c
      {
        NbByWrap(w, Pos(x, y), dir);
        var (dx, dy) := DirOff(dir);
        var no := Off(w, Pos(Wrap(x + dx, w.wx), Wrap(y + dy, w.wy)));
        if closest[no] != c {
          return true;
        }
      }
      return false;
    }

    method IsBorder(x: int, y: int) returns (border: bool)
      requires Ready() && OnMap(w, Pos(x, y)) && IsSect(w, Off(w, Pos(x, y)))
      ensures border <==> Coast.Border(w, distance[..], closest[..], id, Off(w, Pos(x, y)))
    {
      hide Rows, PosOf, Off, Nb, Unaliased, OnMap;
      var o := Off(w, Pos(x, y));
      if distance[o] <= id + 1 {
        return false;
      }
      if closest[o] == -1 {
        return false;
      }
      border := TouchesOtherSphere(x, y);
    }

    /** `list` holds, once each, the borders among the sectors in `met`. */
    ghost predicate BordersOf(list: seq<Pos>, met: set<int>)
      requires Ready()
      reads distance, closest
    {
      (forall i :: 0 <= i < |list| ==> OnMap(w, list[i]) && Off(w, list[i]) in met)
      && (forall i, j :: 0 <= i < j < |list| ==> Off(w, list[i]) != Off(w, list[j]))
      && (forall v :: v in SectSet(w, list) <==> v in met && Coast.Border(w, distance[..], closest[..], id, v))
    }

    lemma {:induction false} BordersNext(list: seq<Pos>, met: set<int>, p: Pos, border: bool)
      requires Ready() && BordersOf(list, met) && OnMap(w, p) && Off(w, p) !in met
      requires border <==> Coast.Border(w, distance[..], closest[..], id, Off(w, p))
      ensures BordersOf(if border then list + [p] else list, met + {Off(w, p)})
    {
      hide Rows, PosOf, Off, OnMap, Nb, Unaliased, Coast.Border, SectSet;
      if border {
        var list' := list + [p];
        SectSetNext(w, list', |list|);
        assert list'[..|list|] == list && list'[..|list| + 1] == list';
      }
    }

    /** The borders found by a scan of the whole map. */
    method FindBorders() returns (borders: seq<Pos>)
      requires Ready()
      ensures forall i :: 0 <= i < |borders| ==> OnMap(w, borders[i])
      ensures forall i, j :: 0 <= i < j < |borders| ==> Off(w, borders[i]) != Off(w, borders[j])
      ensures SectSet(w, borders) == Coast.Borders(w, distance[..], closest[..], id)
    {
      hide Rows, PosOf, Off, Nb, Unaliased, OnMap, Coast.Border;
      borders := [];
      ghost var met := Scanned(w, 0, 0);
      ScanStarts(w);
      for y := 0 to w.wy
        invariant met == Scanned(w, y, y % 2)
        invariant BordersOf(borders, met)
      {
        var x := y % 2;
        while x < w.wx
          invariant 0 <= x && (x + y) % 2 == 0
          invariant met == Scanned(w, y, x)
          invariant BordersOf(borders, met)
        {
          ScanStep(w, y, x);
          var o := Off(w, Pos(x, y));
          var border := IsBorder(x, y);
          BordersNext(borders, met, Pos(x, y), border);
          if border {
            borders := borders + [Pos(x, y)];
          }
          met := met + {o};
          x := x + 2;
        }
        ScanRow(w, y, x);
      }
      ScanEnds(w, w.wy % 2);
      forall v | v in Coast.Borders(w, distance[..], closest[..], id)
        ensures v in met
      {
        Coast.BorderIsSect(w, distance[..], closest[..], id, v);
      }
    }

    /** Queues every border at distance id + 1. */
    method BfsEnqueueBorder()
      requires Ready() && QueueOk() && queue == []
      modifies closest, distance, bfsBuf, this`bfsTail, this`queue
      ensures QueueOk()
      ensures var dist, tag := old(distance[..]), old(closest[..]);
              Coast.Overlaid(w, dist, tag, id, Coast.Borders(w, dist, tag, id), FieldNow())
    {
      ghost var dist, tag := distance[..], closest[..];
      var borders := FindBorders();
      assert SectSet(w, borders[..0]) == {};
      hide Rows, PosOf, Off, OnMap, Nb, Coast.Border, SectSet;
      ghost var from: set<int> := {};
      for i := 0 to |borders|
        invariant QueueOk() && from == SectSet(w, borders[..i])
        invariant Coast.Overlaid(w, dist, tag, id, from, FieldNow())
        invariant forall k :: i <= k < |borders| ==> Off(w, borders[k]) !in from
      {
        var p := borders[i];
        ghost var o := Off(w, p);
        SectSetNext(w, borders, i);
        SectSetHas(w, borders, i);
        assert Coast.Border(w, dist, tag, id, o);
        ghost var f := FieldNow();
        Coast.OverlayOne(w, dist, tag, id, from, f, o);
        if id + 1 < distance[Off(w, p)] {
          BfsEnqueue(closest[Off(w, p)], p.x, p.y, id + 1);
        }
        from := from + {o};
      }
      assert borders[..|borders|] == borders;
    }

    /** Afterwards every sector knows whose sphere it is in. Besides the exact distances of both
        searches, the spheres are known exactly: where a border is nearer than a coast, all nearest borders agree or
        the sector is contested; elsewhere a sector keeps its sphere unless a neighbour nearer to a border disagrees. */
    method InitSpheresOfInfluence() returns (ghost dist: seq<int>, ghost tag: seq<int>)
      requires Ready() && TerrainOk(w, Terrain()) && |sect| == nc + ni
      modifies closest, distance, bfsBuf, this`bfsHead, this`bfsTail, this`queue
      ensures |dist| == |tag| == w.Size()
      ensures QueueOk() && queue == [] && Bfs.Shape(w, FieldNow())
      ensures Bfs.ExactDistance(w, Coast.CoastSources(w, own[..], nc), dist)
      ensures Bfs.ExactTag(w, Coast.CoastSources(w, own[..], nc), tag)
      ensures Bfs.ExactDistance(w, Coast.SphereSources(w, own[..], nc, dist, tag, id), distance[..])
      ensures Bfs.SoundTag(w, Coast.SphereSources(w, own[..], nc, dist, tag, id), closest[..])
      ensures Coast.SphereDistances(w, dist, tag, id, distance[..])
      ensures Overlay.ExactOver(w, Coast.SphereSources(w, own[..], nc, dist, tag, id), dist, tag, distance[..],
                                closest[..])
    {
      hide Rows, TerrainOk, Coast.Seeded, Overlay.Smooth, Overlay.Marked, Bfs.Searching, Bfs.ExactDistance,
        Bfs.ExactTag, Bfs.SoundTag, Coast.Overlaid,
           Coast.CoastSources, Coast.SphereSources, Coast.Borders;
      ghost var land := own[..];
      BfsSeedCoasts(nc);
      Coast.SeededSearching(w, land, nc, FieldNow());
      BfsRunQueue(Coast.CoastSources(w, land, nc), Overlay.Blank, 0);
      dist, tag := distance[..], closest[..];
      ghost var f1 := FieldNow();
      BfsEnqueueBorder();
      Overlay.OverlaidGoing(w, land, nc, f1, id, FieldNow());
      BfsRunQueue(Coast.SphereSources(w, land, nc, dist, tag, id), Overlay.Over(dist, tag), id + 1);
      Coast.AllSphereDistances(w, land, nc, dist, tag, id, distance[..]);
    }

    // -------------------------------------------------------------------------------------------
    // Growing
    // -------------------------------------------------------------------------------------------

    /** What every step of growing keeps. */
    ghost predicate Growing()
      reads this, own, adjLand, isecs, seen
    {
      Ready() && |sect| == nc + ni && TerrainOk(w, Terrain())
      && (forall c :: 0 <= c < nc + ni ==> isecs[c] == |sect[c]|)
      && Separated(w, own[..], nc, di, id, distinctIslands)
      && forall v :: 0 <= v < w.Size() ==> seen[v] <= curSeen
    }

    /** The zones close every sector to landmasses that must keep away from it. */
    ghost predicate ZonesOk(islands: bool)
      requires Ready()
      reads own, xzone
    {
      ZonesGuard(w, own[..], xzone[..], nc + ni, nc, di, id, distinctIslands, islands)
    }

    /** While continents grow, the zones are exactly those of radius di around all land. */
    ghost predicate ContinentZones()
      requires Ready()
      reads own, xzone
    {
      ZonesExact(w, own[..], xzone[..], nc, di)
    }

    predicate XzoneOk(c: int, o: int)
      requires Ready() && IsSect(w, o)
      reads xzone
    {
      xzone[o] == c || xzone[o] == FREE
    }

    /** Islands of all batches share the spheres of the continents in turn. */
    predicate IsInSphere(c: int, o: int)
      requires Ready() && IsSect(w, o)
      reads closest
    {
      c < nc || closest[o] == Wrap(c, nc)
    }

    predicate CanGrowAt(c: int, o: int)
      requires Ready() && IsSect(w, o)
      reads own, xzone, closest
    {
      own[o] == SEA && XzoneOk(c, o) && IsInSphere(c, o)
    }

    /** Tells one neighbour whether the sector is land. */
    method SetSide(p: Pos, dir: int, land: bool)
      requires Ready() && OnMap(w, p) && IsSect(w, Off(w, p)) && 1 <= dir <= 6
      requires IsSect(w, Nb(w, Off(w, p), dir))
      modifies adjLand
      ensures var no, bit := Nb(w, Off(w, p), dir), DirBack(dir);
              adjLand[..] == old(adjLand[..])[no := if land then old(adjLand[no]) + {bit} else old(adjLand[no]) - {bit}]
    {
      StepIsNb(w, p, dir);
      hide OnMap, PosOf, Rows, Unaliased, Step, Off, Nb;
      var no := Off(w, Step(w, p, dir));
      var bit := DirBack(dir);
      if land {
        adjLand[no] := adjLand[no] + {bit};
      } else {
        adjLand[no] := adjLand[no] - {bit};
      }
    }

    /** Tells the six neighbours of a sector whether it is land now. */
    method AdjLandUpdate(x: int, y: int)
      requires Ready() && OnMap(w, Pos(x, y)) && IsSect(w, Off(w, Pos(x, y)))
      modifies adjLand
      ensures AdjSet(w, old(adjLand[..]), adjLand[..], Off(w, Pos(x, y)), own[Off(w, Pos(x, y))] != SEA)
    {
      ghost var o := Off(w, Pos(x, y));
      ghost var adj0 := adjLand[..];
      var land := own[Off(w, Pos(x, y))] != SEA;
      AdjSetNone(w, adj0, o, land);
      hide OnMap, PosOf, Rows, Unaliased, AdjSetBelow, Off, AdjSet, Nb;
      for dir := DIR_FIRST to DIR_LAST + 1
        invariant AdjSetBelow(w, adj0, adjLand[..], o, land, dir)
      {
        NbIsSect(w, o, dir);
        AdjSetOne(w, adj0, adjLand[..], o, land, dir);
        SetSide(Pos(x, y), dir, land);
      }
      AdjSetAll(w, adj0, adjLand[..], o, land);
    }

    /** The landmass has gained one sector, and nothing else has changed. */
    twostate predicate Gained(c: int, p: Pos)
      requires Ready() && 0 <= c < old(|sect|) && IsSect(w, Off(w, p))
      reads this, own
    {
      sect == old(sect)[c := old(sect)[c] + [p]] && own[..] == old(own[..])[Off(w, p) := c]
    }

    method AddSector(c: int, x: int, y: int)
      requires Growing() && ZonesOk(c >= nc) && 0 <= c < nc + ni
      requires c < nc ==> forall c' :: nc <= c' < nc + ni ==> sect[c'] == []
      requires OnMap(w, Pos(x, y)) && IsSect(w, Off(w, Pos(x, y)))
      requires own[Off(w, Pos(x, y))] == SEA && XzoneOk(c, Off(w, Pos(x, y)))
      requires sect[c] == [] || exists j :: 0 <= j < |sect[c]| && Adjoins(w, sect[c][j], Pos(x, y))
      modifies own, adjLand, xzone, isecs, this`sect
      ensures Growing() && ZonesOk(c >= nc) && Gained(c, Pos(x, y))
      ensures Marked(w, old(xzone[..]), xzone[..], c, Off(w, Pos(x, y)), ZoneRadius(nc, di, id, distinctIslands, c))
      ensures c < nc && old(ContinentZones()) ==> ContinentZones()
      ensures Closes(w, old(own[..]), old(xzone[..]), old(adjLand[..]), own[..], xzone[..], adjLand[..], c)
    {
      hide OnMap, PosOf, Rows, Off, TerrainOk, Separated, ZonesGuard, ZonesExact, AdjSet, Marked, Adjoins, Closes;
      ghost var t, zone, p := Terrain(), xzone[..], Pos(x, y);
      TerrainOwners(w, t, nc + ni);
      if c < nc {
        TerrainOwners(w, t, nc);
      }
      var o := Off(w, Pos(x, y));
      AddKeepsSeparated(w, t.own, zone, nc + ni, nc, di, id, distinctIslands, c, o);
      var xzoneDist := if c < nc then di else if distinctIslands then id else 0;
      XzoneAroundSector(c, x, y, xzoneDist);
      AddKeepsZones(w, t.own, zone, xzone[..], nc + ni, nc, di, id, distinctIslands, c, o);
      if c < nc && ZonesExact(w, t.own, zone, nc, di) {
        AddKeepsExact(w, t.own, zone, xzone[..], nc, di, c, o);
      }
      sect := sect[c := sect[c] + [Pos(x, y)]];
      isecs[c] := isecs[c] + 1;
      own[o] := c;
      assert own[..] == t.own[o := c];
      AdjLandUpdate(x, y);
      AddKeeps(w, t, Terrain(), c, p);
      AddCloses(w, t.own, zone, t.adj, xzone[..], adjLand[..], c, o, xzoneDist);
    }

    /** p is a sector that landmass c may grow to: it may grow there, and p adjoins it. */
    ghost predicate Candidate(c: int, p: Pos)
      requires Ready() && 0 <= c < |sect|
      reads this`sect, own, xzone, closest
    {
      OnMap(w, p) && IsSect(w, Off(w, p)) && CanGrowAt(c, Off(w, p)) && Adjoining(c, p)
    }

    ghost predicate Adjoining(c: int, p: Pos)
      requires w.Valid() && 0 <= c < |sect|
      reads this`sect
    {
      exists j :: 0 <= j < |sect[c]| && Adjoins(w, sect[c][j], p)
    }

    function GrowWeight(o: int, spike: bool): (r: int)
      requires Ready() && IsSect(w, o)
      reads adjLand
      ensures r >= 0 && (r == 0 <==> |adjLand[o]| == 0 || |adjLand[o]| >= 7 || (spike && |adjLand[o]| == 6))
    {
      var n := |adjLand[o]|;
      if n == 0 || n >= 7 then 0
      else
        SmallPowers(n);
        if spike then (6 - n) * (6 - n) else n * n * n
    }

    static lemma {:induction false} SmallPowers(n: nat)
      requires 1 <= n <= 6
      ensures n * n * n > 0 && (6 - n) * (6 - n) >= 0 && ((6 - n) * (6 - n) == 0 <==> n == 6)
    {
      assert n == 1 || n == 2 || n == 3 || n == 4 || n == 5 || n == 6;
    }

    /** The more land around a sector, the likelier it is picked, in proportion to the cube of how much; for a
        spike, the less the likelier, in proportion to the square of how much sea there is. */
    lemma {:induction false} GrowWeightOrders(o: int, more: int, k: nat)
      requires Ready() && IsSect(w, o) && IsSect(w, more) && 1 <= |adjLand[o]| < |adjLand[more]| <= 6
      ensures GrowWeight(o, false) < GrowWeight(more, false) && GrowWeight(o, true) > GrowWeight(more, true)
      ensures |adjLand[more]| == k * |adjLand[o]| ==> GrowWeight(more, false) == k * k * k * GrowWeight(o, false)
      ensures 6 - |adjLand[o]| == k * (6 - |adjLand[more]|) ==> GrowWeight(o, true) == k * k * GrowWeight(more, true)
    {
      hide Unaliased, IsMultiple, Rows;
      var n, m := |adjLand[o]|, |adjLand[more]|;
      PowersGrow(n, m);
      PowersGrow(6 - m, 6 - n);
      if m == k * n {
        PowersScale(k, n);
      }
      if 6 - n == k * (6 - m) {
        PowersScale(k, 6 - m);
      }
    }

    static lemma {:induction false} PowersGrow(n: nat, m: nat)
      requires n < m <= 6
      ensures n * n * n < m * m * m && n * n < m * m
    {
      assert n == 0 || n == 1 || n == 2 || n == 3 || n == 4 || n == 5;
      assert m == 1 || m == 2 || m == 3 || m == 4 || m == 5 || m == 6;
    }

    static lemma {:induction false} PowersScale(k: nat, n: nat)
      ensures (k * n) * (k * n) == k * k * (n * n) && (k * n) * (k * n) * (k * n) == k * k * k * (n * n * n)
    {
      assert (k * n) * (k * n) == k * (n * (k * n)) == k * (k * (n * n)) == k * k * (n * n);
      assert (k * n) * (k * n) * (k * n) == (k * k * (n * n)) * (k * n);
      assert (k * k) * (n * n) * (k * n) == (k * k * k) * (n * n * n);
    }

    /** One sector that landmass c may grow to, with its weight. */
    ghost predicate PickOk(c: int, spike: bool, pick: Pick<Pos>)
      requires Ready() && 0 <= c < |sect|
      reads this`sect, own, adjLand, xzone, closest
    {
      Candidate(c, pick.what) && pick.adds == pick.weight == GrowWeight(Off(w, pick.what), spike)
    }

    /** Sectors that landmass c may grow to, each once. */
    ghost predicate PicksOk(c: int, spike: bool, picks: seq<Pick<Pos>>)
      requires Ready() && 0 <= c < |sect|
      reads this`sect, own, adjLand, xzone, closest
    {
      Fair(picks) && (forall k :: 0 <= k < |picks| ==> PickOk(c, spike, picks[k]))
      && forall j, k :: 0 <= j < k < |picks| ==> picks[j].what != picks[k].what
    }

    ghost predicate IsPicked(picks: seq<Pick<Pos>>, v: int) {
      exists k :: 0 <= k < |picks| && Off(w, picks[k].what) == v
    }

    /** All the picks have been seen, and all that was seen and has some weight, apart from `but`, is picked. */
    ghost predicate SeenArePicked(c: int, tag: int, spike: bool, picks: seq<Pick<Pos>>, but: int)
      requires Ready()
      reads own, adjLand, xzone, closest, seen
    {
      (forall k :: 0 <= k < |picks| ==>
         IsSect(w, Off(w, picks[k].what)) && seen[Off(w, picks[k].what)] == tag && Off(w, picks[k].what) != but)
      && forall v :: IsSect(w, v) && v != but && seen[v] == tag && CanGrowAt(c, v) && GrowWeight(v, spike) > 0 ==>
           IsPicked(picks, v)
    }

    /** What the scan for the next sector has found so far. */
    ghost predicate Scanning(c: int, tag: int, spike: bool, wsum: int, best: Option<Pos>, picks: seq<Pick<Pos>>)
      requires Ready() && 0 <= c < |sect|
      reads this, own, adjLand, xzone, closest, seen
    {
      wsum == Total(picks) && best == Chosen(picks) && PicksOk(c, spike, picks)
      && SeenArePicked(c, tag, spike, picks, -1) && forall v :: 0 <= v < w.Size() ==> seen[v] <= tag
    }

    /** One more sector is weighed and picked. */
    lemma {:induction false} PickMore(c: int, tag: int, spike: bool, picks: seq<Pick<Pos>>, q: Pos, r: int)
      requires Ready() && 0 <= c < |sect| && PicksOk(c, spike, picks) && Candidate(c, q)
      requires SeenArePicked(c, tag, spike, picks, Off(w, q)) && seen[Off(w, q)] == tag
      requires GrowWeight(Off(w, q), spike) > 0 && 0 <= r < Total(picks) + GrowWeight(Off(w, q), spike)
      ensures var weight := GrowWeight(Off(w, q), spike);
              var more := picks + [Pick(q, weight, weight, r)];
              PicksOk(c, spike, more) && SeenArePicked(c, tag, spike, more, -1) && Total(more) == Total(picks) + weight
              && Chosen(more) == if r < weight then Some(q) else Chosen(picks)
    {
      hide OnMap, PosOf, Rows, Off, IsInSphere, XzoneOk, Adjoining, GrowWeight, CanGrowAt, Fair, Total, Chosen,
        Unaliased;
      var weight := GrowWeight(Off(w, q), spike);
      var pick := Pick(q, weight, weight, r);
      var more := picks + [pick];
      OneMore(picks, pick);
      forall v | IsSect(w, v) && seen[v] == tag && CanGrowAt(c, v) && GrowWeight(v, spike) > 0
        ensures IsPicked(more, v)
      {
        if v == Off(w, q) {
          assert more[|picks|].what == q;
        } else {
          assert IsPicked(picks, v);
          var k :| 0 <= k < |picks| && Off(w, picks[k].what) == v;
          assert more[k] == picks[k];
        }
      }
    }

    /** The neighbours of p in directions below dir are land or have been seen. */
    ghost predicate PassedAround(p: Pos, tag: int, dir: int)
      requires Ready() && OnMap(w, p) && IsSect(w, Off(w, p))
      reads own, seen
    {
      forall d :: 1 <= d < dir && IsSect(w, Nb(w, Off(w, p), d)) ==>
        own[Nb(w, Off(w, p), d)] != SEA || seen[Nb(w, Off(w, p), d)] == tag
    }

    /** One direction of the scan around the i-th sector of the landmass. */
    method ScanSide(c: int, ghost i: int, p: Pos, dir: int, tag: int, spike: bool, wsum: int, best: Option<Pos>,
                    ghost picks: seq<Pick<Pos>>)
      returns (wsum': int, best': Option<Pos>, ghost picks': seq<Pick<Pos>>)
      requires Growing() && 0 <= c < |sect| && 0 <= i < |sect[c]| && sect[c][i] == p
      requires OnMap(w, p) && IsSect(w, Off(w, p)) && 1 <= dir <= 6
      requires tag == curSeen && Scanning(c, tag, spike, wsum, best, picks) && PassedAround(p, tag, dir)
      modifies seen
      ensures Growing() && Scanning(c, tag, spike, wsum', best', picks') && PassedAround(p, tag, dir + 1)
      ensures forall v :: 0 <= v < w.Size() && old(seen[v]) == tag ==> seen[v] == tag
    {
      hide OnMap, PosOf, Rows, Separated, TerrainOk, Step, Nb, Off, Scanning;
      wsum', best', picks' := wsum, best, picks;
      var o := Off(w, p);
      BitIsLand(w, Terrain(), o, dir);
      if dir in adjLand[o] {
        return;
      }
      var q := Step(w, p, dir);
      StepIsNb(w, p, dir);
      assert Adjoins(w, p, q);
      var no := Off(w, q);
      if seen[no] == tag {
        return;
      }
      wsum', best', picks' := WeighSector(c, q, tag, spike, wsum, best, picks);
    }

    /** Marks a sector beside the landmass as seen, and weighs it if the landmass may grow to it. */
    method WeighSector(c: int, q: Pos, tag: int, spike: bool, wsum: int, best: Option<Pos>, ghost picks: seq<Pick<Pos>>)
      returns (wsum': int, best': Option<Pos>, ghost picks': seq<Pick<Pos>>)
      requires Growing() && 0 <= c < |sect| && OnMap(w, q) && IsSect(w, Off(w, q)) && Adjoining(c, q)
      requires tag == curSeen && Scanning(c, tag, spike, wsum, best, picks) && seen[Off(w, q)] != tag
      modifies seen
      ensures Growing() && Scanning(c, tag, spike, wsum', best', picks') && seen[..] == old(seen[..])[Off(w, q) := tag]
    {
      hide OnMap, PosOf, Rows, Separated, TerrainOk, Off, IsInSphere, XzoneOk, PicksOk, IsPicked, Adjoining;
      wsum', best', picks' := wsum, best, picks;
      var no := Off(w, q);
      TotalIsNat(c, spike, picks);
      seen[no] := tag;
      assert SeenArePicked(c, tag, spike, picks, no);
      if !CanGrowAt(c, no) {
        return;
      }
      var weight := GrowWeight(no, spike);
      if weight == 0 {
        return;
      }
      wsum' := wsum + weight;
      var r := Roll0(wsum');
      PickMore(c, tag, spike, picks, q, r);
      picks' := picks + [Pick(q, weight, weight, r)];
      if r < weight {
        best' := Some(q);
      }
    }

    lemma {:induction false} TotalIsNat(c: int, spike: bool, picks: seq<Pick<Pos>>)
      requires Ready() && 0 <= c < |sect| && PicksOk(c, spike, picks)
      ensures Total(picks) >= 0
    {
      ChosenIsPicked(picks);
    }

    ghost predicate SectsOnMap(c: int)
      requires w.Valid() && 0 <= c < |sect|
      reads this
    {
      forall j :: 0 <= j < |sect[c]| ==> OnMap(w, sect[c][j]) && IsSect(w, Off(w, sect[c][j]))
    }

    /** All the sides of the first n sectors of the landmass have been passed. */
    ghost predicate PassedAll(c: int, tag: int, n: int)
      requires Ready() && 0 <= c < |sect| && 0 <= n <= |sect[c]| && SectsOnMap(c)
      reads this, own, seen
    {
      forall j :: 0 <= j < n ==> PassedAround(sect[c][j], tag, 7)
    }

    method ScanAround(c: int, i: int, tag: int, spike: bool, wsum: int, best: Option<Pos>, ghost picks: seq<Pick<Pos>>)
      returns (wsum': int, best': Option<Pos>, ghost picks': seq<Pick<Pos>>)
      requires Growing() && 0 <= c < |sect| && 0 <= i < |sect[c]| && SectsOnMap(c)
      requires tag == curSeen && Scanning(c, tag, spike, wsum, best, picks) && PassedAll(c, tag, i)
      modifies seen
      ensures Growing() && Scanning(c, tag, spike, wsum', best', picks') && PassedAll(c, tag, i + 1)
    {
      hide OnMap, PosOf, Rows, Separated, TerrainOk, Nb, Off, Scanning;
      wsum', best', picks' := wsum, best, picks;
      var p := sect[c][i];
      assert PassedAround(p, tag, DIR_FIRST);
      for dir := DIR_FIRST to DIR_LAST + 1
        invariant Growing() && Scanning(c, tag, spike, wsum', best', picks') && PassedAround(p, tag, dir)
        invariant forall v :: 0 <= v < w.Size() && old(seen[v]) == tag ==> seen[v] == tag
      {
        wsum', best', picks' := ScanSide(c, i, p, dir, tag, spike, wsum', best', picks');
      }
      forall j | 0 <= j < i + 1
        ensures PassedAround(sect[c][j], tag, 7)
      {
        if j < i {
          assert old(PassedAround(sect[c][j], tag, 7));
        }
      }
    }

    /** All the sectors that landmass c may grow to and that have some weight, each once. */
    ghost predicate Choices(c: int, spike: bool, picks: seq<Pick<Pos>>)
      requires Ready() && 0 <= c < |sect|
      reads this`sect, own, adjLand, xzone, closest
    {
      PicksOk(c, spike, picks)
      && forall p :: Candidate(c, p) && GrowWeight(Off(w, p), spike) > 0 ==>
           exists k :: 0 <= k < |picks| && picks[k].what == p
    }

    /** Picks a sector for landmass c to grow to, by weight. Only if there is none to pick from, apart from
        sectors enclosed by land on all sides, is the answer None. */
    method PickSector(c: int, spike: bool, tag: int) returns (best: Option<Pos>, ghost picks: seq<Pick<Pos>>)
      requires Growing() && 0 <= c < |sect|
      requires tag == curSeen && forall v :: 0 <= v < w.Size() ==> seen[v] < tag
      modifies seen
      ensures Growing()
      ensures Choices(c, spike, picks) && best == Chosen(picks)
      ensures best.Some? ==> Candidate(c, best.value)
      ensures best.None? ==> NothingToPick(c)
    {
      hide OnMap, PosOf, Rows, Separated, TerrainOk, Nb, Off, Scanning, Choices, NothingToPick, Unaliased;
      forall j | 0 <= j < |sect[c]|
        ensures OnMap(w, sect[c][j]) && IsSect(w, Off(w, sect[c][j]))
      {
        ListedAt(w, Terrain(), c, j);
      }
      best, picks := None, [];
      var wsum := 0;
      ScanningStarts(c, tag, spike);
      var nsecs := isecs[c];
      for i := 0 to nsecs
        invariant Growing() && Scanning(c, tag, spike, wsum, best, picks) && PassedAll(c, tag, i)
      {
        wsum, best, picks := ScanAround(c, i, tag, spike, wsum, best, picks);
      }
      ScanningEnds(c, tag, spike, wsum, best, picks);
      if best.None? {
        NothingPicked(c, spike, picks);
      }
    }

    lemma {:induction false} ScanningStarts(c: int, tag: int, spike: bool)
      requires Ready() && 0 <= c < |sect| && forall v :: 0 <= v < w.Size() ==> seen[v] < tag
      ensures Scanning(c, tag, spike, 0, None, [])
    {
      hide OnMap, PosOf, Rows, Off, CanGrowAt, GrowWeight;
    }

    /** Every sector that landmass c could grow to is enclosed by land. */
    ghost predicate NothingToPick(c: int)
      requires Ready() && 0 <= c < |sect|
      reads this`sect, own, adjLand, xzone, closest
    {
      forall p :: Candidate(c, p) ==> adjLand[Off(w, p)] == ALL_LAND
    }

    /** Every sector the landmass may grow to has been met by the scan. */
    lemma {:induction false} CandidateIsSeen(c: int, tag: int, p: Pos)
      requires Growing() && 0 <= c < |sect| && SectsOnMap(c) && PassedAll(c, tag, |sect[c]|) && Candidate(c, p)
      ensures seen[Off(w, p)] == tag
    {
      hide OnMap, PosOf, Rows, Separated, TerrainOk, Nb, Off, Step;
      var j :| 0 <= j < |sect[c]| && Adjoins(w, sect[c][j], p);
      var d :| 1 <= d <= 6 && Step(w, sect[c][j], d) == p;
      StepIsNb(w, sect[c][j], d);
      assert PassedAround(sect[c][j], tag, 7);
    }

    lemma {:induction false} ScanningEnds(c: int, tag: int, spike: bool, wsum: int, best: Option<Pos>,
                                          picks: seq<Pick<Pos>>)
      requires Growing() && 0 <= c < |sect| && SectsOnMap(c) && PassedAll(c, tag, |sect[c]|)
      requires Scanning(c, tag, spike, wsum, best, picks)
      ensures Choices(c, spike, picks) && best == Chosen(picks)
      ensures best.Some? ==> Candidate(c, best.value)
    {
      hide PosOf, Rows, Separated, TerrainOk, Nb, Off, Step, CanGrowAt, GrowWeight, Fair, Chosen, Unaliased, Adjoining,
           PassedAll;
      ChosenIsPicked(picks);
      forall p | Candidate(c, p) && GrowWeight(Off(w, p), spike) > 0
        ensures exists k :: 0 <= k < |picks| && picks[k].what == p
      {
        CandidateIsSeen(c, tag, p);
        assert IsPicked(picks, Off(w, p));
        var k :| 0 <= k < |picks| && Off(w, picks[k].what) == Off(w, p);
        assert PickOk(c, spike, picks[k]);
        SameOffset(picks[k].what, p);
        assert picks[k].what == p;
      }
      if best.Some? {
        var k :| 0 <= k < |picks| && picks[k].what == best.value;
        assert PickOk(c, spike, picks[k]);
      }
    }

    lemma {:induction false} SameOffset(p: Pos, q: Pos)
      requires w.Valid() && OnMap(w, p) && OnMap(w, q) && Off(w, p) == Off(w, q)
      ensures p == q
    {
      OffOfPos(w, p);
      OffOfPos(w, q);
    }

    lemma {:induction false} NothingPicked(c: int, spike: bool, picks: seq<Pick<Pos>>)
      requires Growing() && 0 <= c < |sect| && Choices(c, spike, picks) && Chosen(picks) == None
      ensures NothingToPick(c)
    {
      hide OnMap, PosOf, Rows, Separated, Nb, Off, Step, TerrainOk, Unaliased;
      ChosenIsPicked(picks);
      forall p | Candidate(c, p)
        ensures adjLand[Off(w, p)] == ALL_LAND
      {
        BitsAreDirections(w, Terrain(), Off(w, p));
        BesideLand(c, p);
        assert !(GrowWeight(Off(w, p), spike) > 0);
      }
    }

    /** A sector that a landmass may grow to has land beside it. */
    lemma {:induction false} BesideLand(c: int, p: Pos)
      requires Growing() && 0 <= c < |sect| && Candidate(c, p)
      ensures adjLand[Off(w, p)] != {}
    {
      hide OnMap, PosOf, Rows, Separated, TerrainOk, Nb, Off, Step;
      var j :| 0 <= j < |sect[c]| && Adjoins(w, sect[c][j], p);
      var d :| 1 <= d <= 6 && Step(w, sect[c][j], d) == p;
      ListedAt(w, Terrain(), c, j);
      StepIsNb(w, sect[c][j], d);
      var u := Off(w, sect[c][j]);
      NbIsSect(w, u, d);
      BitIsLand(w, Terrain(), Off(w, p), DirBack(d));
    }

    /** Grows landmass c by one sector that it may grow to and that adjoins it. It fails only if
        there is none that is not enclosed by land, and then changes nothing. */
    method GrowOneSector(c: int) returns (grown: bool, ghost roll: int, ghost best: Option<Pos>)
      requires Growing() && ZonesOk(c >= nc) && 0 <= c < nc + ni
      requires c < nc ==> forall c' :: nc <= c' < nc + ni ==> sect[c'] == []
      modifies own, adjLand, xzone, seen, isecs, this`sect, this`curSeen
      ensures Growing() && ZonesOk(c >= nc)
      ensures 0 <= roll < 100 && old(exists picks :: Choices(c, roll < sp, picks) && Chosen(picks) == best)
              && (grown <==> best.Some?)
      ensures grown ==> old(Candidate(c, best.value)) && Gained(c, best.value)
      ensures !grown ==> NothingToPick(c)
      ensures !grown ==> sect == old(sect) && own[..] == old(own[..]) && xzone[..] == old(xzone[..])
      ensures Closes(w, old(own[..]), old(xzone[..]), old(adjLand[..]), own[..], xzone[..], adjLand[..], c)
      ensures c < nc && old(ContinentZones()) ==> ContinentZones()
    {
      hide OnMap, PosOf, Rows, Separated, TerrainOk, Nb, Off, NothingToPick, ZonesGuard, ZonesExact, Choices, Chosen;
      var r := Roll0(100);
      roll := r;
      var spike := r < sp;
      curSeen := curSeen + 1;
      var tag := curSeen;
      var found;
      ghost var picks;
      found, picks := PickSector(c, spike, tag);
      grown, best := found.Some?, found;
      assert Choices(c, spike, picks) && Chosen(picks) == best;
      if found.Some? {
        var p := found.value;
        AddSector(c, p.x, p.y);
        assert Gained(c, p);
      }
    }

    /** For a continent, having nothing to pick is being hemmed in. */
    lemma {:induction false} NothingIsHemmed(c: int)
      requires Growing() && 0 <= c < nc
      ensures NothingToPick(c) <==> Hemmed(w, own[..], xzone[..], adjLand[..], sect[c], c)
    {
      hide OnMap, PosOf, Rows, Off, TerrainOk, Separated, Adjoins, Nb;
      if NothingToPick(c) {
        forall p, j | 0 <= j < |sect[c]| && OnMap(w, p) && IsSect(w, Off(w, p))
                      && OpenTo(own[..], xzone[..], c, Off(w, p)) && Adjoins(w, sect[c][j], p)
          ensures adjLand[..][Off(w, p)] == ALL_LAND
        {
          assert Candidate(c, p);
        }
      }
    }

    // -------------------------------------------------------------------------------------------
    // Continents
    // -------------------------------------------------------------------------------------------

    ghost predicate NoIslands()
      requires |sect| == nc + ni
      reads this
    {
      forall c :: nc <= c < nc + ni ==> sect[c] == []
    }

    /** The capital and its right-hand neighbour. */
    ghost function Start(c: int): seq<Pos>
      requires Ready() && 0 <= c < nc
      reads cap
    {
      [cap[c], Step(w, cap[c], 2)]
    }

    /** Every continent has `size` sectors, the first two of which are its capital's. */
    ghost predicate ContinentsHave(size: int)
      requires Ready() && |sect| == nc + ni
      reads this, cap
    {
      forall c :: 0 <= c < nc ==> |sect[c]| == size && Start(c) <= sect[c]
    }

    lemma {:induction false} UntouchedIsGrowing()
      requires Ready() && Untouched()
      ensures Growing() && NoIslands()
    {
      hide OnMap, PosOf, Rows, Nb, Off, Guarded;
      assert forall v :: 0 <= v < w.Size() ==> Terrain().own[v] == own[v] && Terrain().adj[v] == adjLand[v];
      EmptyTerrain(w, Terrain());
      NoLandNoZones(w, own[..], xzone[..], nc + ni, nc, di, id, distinctIslands);
    }

    /** The capital of continent c, or its right-hand neighbour, cannot be grown at. */
    ghost predicate NoRoom(c: int)
      requires Ready() && 0 <= c < nc && IsSect(w, Off(w, cap[c])) && IsSect(w, Off(w, Step(w, cap[c], 2)))
      reads own, xzone, closest, cap
    {
      !CanGrowAt(c, Off(w, cap[c])) || !CanGrowAt(c, Off(w, Step(w, cap[c], 2)))
    }

    /** Having no room is being closed. */
    lemma {:induction false} NoRoomIsClosed(c: int)
      requires Ready() && 0 <= c < nc && IsSect(w, Off(w, cap[c])) && IsSect(w, Off(w, Step(w, cap[c], 2)))
      ensures NoRoom(c) <==> !OpenTo(own[..], xzone[..], c, Off(w, cap[c]))
                             || !OpenTo(own[..], xzone[..], c, Off(w, Step(w, cap[c], 2)))
    {
      hide OnMap, PosOf, Rows, Off, Step;
    }

    /** The capital and its neighbour are sectors. */
    lemma {:induction false} StartIsThere(c: int)
      requires Ready() && 0 <= c < nc && OnMap(w, cap[c])
      ensures IsSect(w, Off(w, cap[c])) && IsSect(w, Off(w, Step(w, cap[c], 2)))
      ensures Step(w, cap[c], 2) == Pos(Wrap(cap[c].x + 2, w.wx), cap[c].y)
    {
      CapitalPair(w, cap[c]);
    }

    /** Adds the first two sectors of a continent, side by side. */
    method AddPair(c: int, p: Pos, q: Pos)
      requires Growing() && ZonesOk(false) && ContinentZones() && 0 <= c < nc && NoIslands() && sect[c] == []
      requires OnMap(w, p) && OnMap(w, q) && IsSect(w, Off(w, p)) && IsSect(w, Off(w, q)) && Adjoins(w, p, q)
      requires Off(w, p) != Off(w, q) && CanGrowAt(c, Off(w, p)) && CanGrowAt(c, Off(w, q))
      modifies own, adjLand, xzone, isecs, this`sect
      ensures Growing() && ZonesOk(false) && ContinentZones() && sect == old(sect)[c := [p, q]]
      ensures Closes(w, old(own[..]), old(xzone[..]), old(adjLand[..]), own[..], xzone[..], adjLand[..], c)
    {
      hide OnMap, PosOf, Rows, Nb, Off, TerrainOk, Separated, ZonesOk, ZonesExact, IsInSphere, Adjoins, Marked, Closes;
      ghost var zone, t := xzone[..], Terrain();
      AddSector(c, p.x, p.y);
      ghost var zone', t' := xzone[..], Terrain();
      MarkedKeepsOpen(w, zone, zone', c, Off(w, p), di, Off(w, q));
      assert sect[c] == [p] && sect[c][0] == p;
      AddSector(c, q.x, q.y);
      assert sect[c] == [p, q];
      ClosesChain(w, t, zone, t', zone', Terrain(), xzone[..], c);
    }

    /** Sets the sector count of a landmass without sectors to zero, which it is already. */
    method ResetCount(c: int)
      requires Growing() && 0 <= c < nc + ni && sect[c] == []
      modifies isecs
      ensures Growing()
    {
      hide TerrainOk, Separated, Rows;
      isecs[c] := 0;
    }

    lemma {:induction false} NothingCloses(c: int)
      requires Ready()
      ensures Closes(w, own[..], xzone[..], adjLand[..], own[..], xzone[..], adjLand[..], c)
    {
      hide OnMap, PosOf, Rows;
    }

    /** Places the first two sectors of a continent; fails, and changes no land, exactly if there is no room
        for one of them. */
    method StartContinent(c: int) returns (placed: bool)
      requires Growing() && ZonesOk(false) && ContinentZones() && 0 <= c < nc && NoIslands() && sect[c] == []
      requires OnMap(w, cap[c]) && IsSect(w, Off(w, cap[c])) && IsSect(w, Off(w, Step(w, cap[c], 2)))
      modifies own, adjLand, xzone, isecs, this`sect
      ensures Growing() && ZonesOk(false) && ContinentZones()
      ensures placed <==> !old(NoRoom(c))
      ensures placed ==> sect == old(sect)[c := Start(c)]
      ensures !placed ==> sect == old(sect) && NoRoom(c)
      ensures Closes(w, old(own[..]), old(xzone[..]), old(adjLand[..]), own[..], xzone[..], adjLand[..], c)
    {
      NothingCloses(c);
      ResetCount(c);
      var p := cap[c];
      var q := Pos(Wrap(p.x + 2, w.wx), p.y);
      CapitalPair(w, p);
      hide OnMap, PosOf, Rows, Nb, Off, TerrainOk, Separated, ZonesOk, ZonesExact, Step, IsInSphere, Wrap, Adjoins,
           ZonesGuard, Closes;
      if !CanGrowAt(c, Off(w, p)) || !CanGrowAt(c, Off(w, q)) {
        return false;
      }
      AddPair(c, p, q);
      assert Start(c) == [p, q];
      return true;
    }

    /** A continent that could not be started. */
    ghost predicate Unstarted(c: int)
      requires Ready() && |sect| == nc + ni && 0 <= c < nc
      reads this, own, xzone, closest, cap
    {
      sect[c] == [] && OnMap(w, cap[c]) && IsSect(w, Off(w, cap[c])) && IsSect(w, Off(w, Step(w, cap[c], 2)))
        && NoRoom(c)
    }

    /** Places the first two sectors of every continent; fails only if one of them has no room. */
    method StartContinents() returns (done: bool)
      requires Growing() && ZonesOk(false) && ContinentZones() && NoIslands()
      requires forall c :: 0 <= c < nc ==> OnMap(w, cap[c]) && sect[c] == []
      modifies own, adjLand, xzone, isecs, this`sect
      ensures Growing() && ZonesOk(false) && ContinentZones() && NoIslands()
      ensures done ==> ContinentsHave(2)
      ensures !done ==> exists c :: 0 <= c < nc && Unstarted(c)
    {
      hide OnMap, PosOf, Rows, Nb, Off, TerrainOk, Separated, ZonesOk, ZonesExact, Step, NoRoom, OpenTo;
      done := true;
      ghost var bad := 0;
      for c := 0 to nc
        invariant Growing() && ZonesOk(false) && ContinentZones() && NoIslands()
        invariant forall k :: c <= k < nc ==> sect[k] == []
        invariant done ==> forall k :: 0 <= k < c ==> sect[k] == Start(k)
        invariant !done ==> 0 <= bad < c && Unstarted(bad)
      {
        StartIsThere(c);
        if !done {
          NoRoomIsClosed(bad);
        }
        var placed := StartContinent(c);
        if !done {
          NoRoomIsClosed(bad);
        }
        if !placed {
          done, bad := false, c;
        }
      }
    }

    /** A continent that could not be grown to its full size. */
    ghost predicate Stunted(c: int)
      requires Ready() && |sect| == nc + ni && 0 <= c < nc
      reads this, own, adjLand, xzone, closest
    {
      2 <= |sect[c]| < sc && NothingToPick(c)
    }

    /** Grows every continent by one sector; fails only if one of them cannot grow. */
    method GrowAllContinents(ghost secs: int) returns (done: bool)
      requires Growing() && ZonesOk(false) && ContinentZones() && NoIslands() && ContinentsHave(secs) && 2 <= secs < sc
      modifies own, adjLand, xzone, seen, isecs, this`sect, this`curSeen
      ensures Growing() && ZonesOk(false) && ContinentZones() && NoIslands()
      ensures done ==> ContinentsHave(secs + 1)
      ensures !done ==> exists c :: 0 <= c < nc && Stunted(c)
    {
      hide OnMap, PosOf, Rows, Nb, Off, TerrainOk, Separated, ZonesOk, ZonesExact, Step, Candidate, NothingToPick,
        Closes,
           Hemmed;
      done := true;
      ghost var bad := 0;
      for c := 0 to nc
        invariant Growing() && ZonesOk(false) && ContinentZones() && NoIslands()
        invariant forall k :: c <= k < nc ==> |sect[k]| == secs && Start(k) <= sect[k]
        invariant done ==> forall k :: 0 <= k < c ==> |sect[k]| == secs + 1 && Start(k) <= sect[k]
        invariant !done ==> 0 <= bad < c && Stunted(bad)
      {
        if !done {
          NothingIsHemmed(bad);
        }
        ghost var t, zone := Terrain(), xzone[..];
        var grown, roll, best := GrowOneSector(c);
        if !done {
          HemmedStays(w, t, zone, Terrain(), xzone[..], sect[bad], bad, c);
          NothingIsHemmed(bad);
        }
        if !grown {
          done, bad := false, c;
        }
      }
    }

    /** On success every continent has exactly `sc` sectors. It fails only if some continent's capital or the
        sector to its right cannot be grown at, or some continent has nowhere left to grow to. */
    method GrowContinents() returns (done: bool)
      requires Ready() && Untouched()
      requires forall c :: 0 <= c < nc ==> OnMap(w, cap[c])
      modifies own, adjLand, xzone, seen, isecs, this`sect, this`curSeen
      ensures Growing() && ContinentZones() && NoIslands()
      ensures done ==> ContinentsHave(sc)
      ensures !done ==> exists c :: 0 <= c < nc && (Unstarted(c) || Stunted(c))
    {
      UntouchedIsGrowing();
      XzoneInit(0);
      NoLandNoZones(w, own[..], xzone[..], nc + ni, nc, di, id, distinctIslands);
      NoLandExact(w, own[..], xzone[..], id, nc, di);
      assert ZonesOk(false) && ContinentZones();
      hide OnMap, PosOf, Rows, Nb, Off, TerrainOk, Separated, ZonesOk, ZonesExact, Step, Unstarted, Stunted;
      done := StartContinents();
      if !done {
        return false;
      }
      var secs := 2;
      while secs < sc && done
        invariant Growing() && ZonesOk(false) && ContinentZones() && NoIslands() && secs <= sc
        invariant done ==> ContinentsHave(secs)
        invariant !done ==> exists c :: 0 <= c < nc && Stunted(c)
      {
        done := GrowAllContinents(secs);
        secs := secs + 1;
      }
    }

    // -------------------------------------------------------------------------------------------
    // Islands
    // -------------------------------------------------------------------------------------------

    /** Where the first sector of island c may go. */
    ghost predicate Site(c: int, v: int)
      requires Ready() && IsSect(w, v)
      reads own, xzone, closest, distance
    {
      CanGrowAt(c, v) && distance[v] > id
    }

    /** The farther from the coast a site is, the more it weighs. */
    ghost function SiteWeight(v: int): int
      requires Ready() && IsSect(w, v)
      reads distance
    {
      (distance[v] - id) * (distance[v] - id)
    }

    /** One site for island c. What it adds to the total weight is limited. */
    ghost predicate SiteOk(c: int, isiz: int, pick: Pick<Pos>)
      requires Ready()
      reads own, xzone, closest, distance
    {
      OnMap(w, pick.what) && IsSect(w, Off(w, pick.what)) && Site(c, Off(w, pick.what))
      && pick.weight == SiteWeight(Off(w, pick.what)) && pick.adds == Smaller(pick.weight, (isiz + 2) / 3)
    }

    /** The sites among the sectors of `met`, each once. */
    ghost predicate SitesAre(c: int, isiz: int, picks: seq<Pick<Pos>>, met: set<int>)
      requires Ready()
      reads own, xzone, closest, distance
    {
      Fair(picks) && (forall k :: 0 <= k < |picks| ==> SiteOk(c, isiz, picks[k]) && Off(w, picks[k].what) in met)
      && (forall j, k :: 0 <= j < k < |picks| ==> picks[j].what != picks[k].what)
      && forall v :: v in met && IsSect(w, v) && Site(c, v) ==> IsPicked(picks, v)
    }

    /** A sector that is no site changes nothing. */
    lemma {:induction false} NoSite(c: int, isiz: int, picks: seq<Pick<Pos>>, met: set<int>, o: int)
      requires Ready() && SitesAre(c, isiz, picks, met) && (IsSect(w, o) ==> !Site(c, o))
      ensures SitesAre(c, isiz, picks, met + {o})
    {
      hide OnMap, PosOf, Rows, Off, Fair, SiteOk, Site, IsPicked, Unaliased;
    }

    lemma {:induction false} SiteMore(c: int, isiz: int, picks: seq<Pick<Pos>>, met: set<int>, p: Pos, r: int)
      requires Ready() && SitesAre(c, isiz, picks, met) && OnMap(w, p) && IsSect(w, Off(w, p)) && Off(w, p) !in met
      requires Site(c, Off(w, p)) && SiteWeight(Off(w, p)) >= 1 && isiz >= 1
      requires var adds := Smaller(SiteWeight(Off(w, p)), (isiz + 2) / 3); 0 <= r < Total(picks) + adds
      ensures var weight := SiteWeight(Off(w, p));
              var adds := Smaller(weight, (isiz + 2) / 3);
              var more := picks + [Pick(p, adds, weight, r)];
              SitesAre(c, isiz, more, met + {Off(w, p)}) && Total(more) == Total(picks) + adds
              && Chosen(more) == if r < weight then Some(p) else Chosen(picks)
    {
      hide OnMap, PosOf, Rows, Off, Fair, Site, SiteWeight, Total, Chosen, Unaliased;
      var weight := SiteWeight(Off(w, p));
      var pick := Pick(p, Smaller(weight, (isiz + 2) / 3), weight, r);
      var more := picks + [pick];
      OneMore(picks, pick);
      forall v | v in met + {Off(w, p)} && IsSect(w, v) && Site(c, v)
        ensures IsPicked(more, v)
      {
        if v == Off(w, p) {
          assert more[|picks|].what == p;
        } else {
          assert IsPicked(picks, v);
          var k :| 0 <= k < |picks| && Off(w, picks[k].what) == v;
          assert more[k] == picks[k];
        }
      }
    }

    /** Looks at one sector as a place for island c. */
    method ConsiderSite(c: int, p: Pos, isiz: int, n: int, best: Option<Pos>, ghost picks: seq<Pick<Pos>>,
                        ghost met: set<int>)
      returns (n': int, best': Option<Pos>, ghost picks': seq<Pick<Pos>>)
      requires Ready() && OnMap(w, p) && IsSect(w, Off(w, p)) && Off(w, p) !in met && isiz >= 1
      requires n == Total(picks) && best == Chosen(picks) && SitesAre(c, isiz, picks, met)
      ensures n' == Total(picks') && best' == Chosen(picks') && SitesAre(c, isiz, picks', met + {Off(w, p)})
    {
      hide OnMap, PosOf, Rows, Off, Unaliased, IsInSphere, XzoneOk, SitesAre, Chosen, Total;
      n', best', picks' := n, best, picks;
      var o := Off(w, p);
      if !CanGrowAt(c, o) {
        NoSite(c, isiz, picks, met, o);
        return;
      }
      var d := distance[o];
      if d <= id {
        NoSite(c, isiz, picks, met, o);
        return;
      }
      var gap := d - id;
      var weight := gap * gap;
      assert weight >= 1;
      var limit := (isiz + 2) / 3;
      n' := n + if weight < limit then weight else limit;
      SitesTotal(c, isiz, picks, met);
      var r := Roll0(n');
      SiteMore(c, isiz, picks, met, p, r);
      picks' := picks + [Pick(p, n' - n, weight, r)];
      if r < weight {
        best' := Some(p);
      }
    }

    lemma {:induction false} SitesTotal(c: int, isiz: int, picks: seq<Pick<Pos>>, met: set<int>)
      requires Ready() && SitesAre(c, isiz, picks, met)
      ensures Total(picks) >= 0 && (Chosen(picks).None? <==> picks == [])
      ensures Chosen(picks).Some? ==> exists k :: 0 <= k < |picks| && picks[k].what == Chosen(picks).value
    {
      ChosenIsPicked(picks);
    }

    /** All the places for the first sector of island c, each once. */
    ghost predicate Sites(c: int, isiz: int, picks: seq<Pick<Pos>>)
      requires Ready()
      reads own, xzone, closest, distance
    {
      SitesAre(c, isiz, picks, set v | 0 <= v < w.Size() && IsSect(w, v))
    }

    /** Picks a place for the first sector of island c, by weight; the answer is None only if there is none. */
    method PickSite(c: int, isiz: int) returns (best: Option<Pos>, ghost picks: seq<Pick<Pos>>)
      requires Ready() && isiz >= 1
      ensures Sites(c, isiz, picks) && best == Chosen(picks)
      ensures best.Some? ==> OnMap(w, best.value) && IsSect(w, Off(w, best.value)) && Site(c, Off(w, best.value))
      ensures best.None? ==> forall v :: IsSect(w, v) ==> !Site(c, v)
    {
      hide OnMap, PosOf, Rows, Off, Unaliased, CanGrowAt, SitesAre, Site;
      best, picks := None, [];
      var n := 0;
      ghost var met := Scanned(w, 0, 0);
      ScanStarts(w);
      assert SitesAre(c, isiz, [], {}) by {
        NoSitesYet(c, isiz);
      }
      for y := 0 to w.wy
        invariant met == Scanned(w, y, y % 2)
        invariant n == Total(picks) && best == Chosen(picks) && SitesAre(c, isiz, picks, met)
      {
        var x := y % 2;
        while x < w.wx
          invariant 0 <= x && (x + y) % 2 == 0 && met == Scanned(w, y, x)
          invariant n == Total(picks) && best == Chosen(picks) && SitesAre(c, isiz, picks, met)
        {
          ScanStep(w, y, x);
          n, best, picks := ConsiderSite(c, Pos(x, y), isiz, n, best, picks, met);
          met := met + {Off(w, Pos(x, y))};
          x := x + 2;
        }
        ScanRow(w, y, x);
      }
      ScanEnds(w, w.wy % 2);
      SitesFound(c, isiz, picks, met);
    }

    lemma {:induction false} NoSitesYet(c: int, isiz: int)
      requires Ready()
      ensures SitesAre(c, isiz, [], {})
    {}

    lemma {:induction false} SitesFound(c: int, isiz: int, picks: seq<Pick<Pos>>, met: set<int>)
      requires Ready() && SitesAre(c, isiz, picks, met) && forall v :: IsSect(w, v) ==> v in met
      ensures Sites(c, isiz, picks)
      ensures var best := Chosen(picks);
              (best.Some? ==> OnMap(w, best.value) && IsSect(w, Off(w, best.value)) && Site(c, Off(w, best.value)))
              && (best.None? ==> forall v :: IsSect(w, v) ==> !Site(c, v))
    {
      hide OnMap, PosOf, Rows, Off, Fair, Site, SiteWeight, Total, Chosen, Unaliased;
      SitesTotal(c, isiz, picks, met);
      if Chosen(picks).None? {
        forall v | IsSect(w, v)
          ensures !Site(c, v)
        {
          assert !IsPicked(picks, v);
        }
      }
    }

    /** Places the first sector of island c more than `id` from every continent, in its sphere. It
        fails only if there is no such place, and then changes nothing. */
    method PlaceIsland(c: int, isiz: int) returns (placed: bool, ghost best: Option<Pos>)
      requires Growing() && ZonesOk(true) && nc <= c < nc + ni && sect[c] == [] && isiz >= 1
      modifies own, adjLand, xzone, isecs, this`sect
      ensures Growing() && ZonesOk(true)
      ensures old(exists picks :: Sites(c, isiz, picks) && Chosen(picks) == best) && (placed <==> best.Some?)
      ensures placed ==> OnMap(w, best.value) && IsSect(w, Off(w, best.value)) && old(Site(c, Off(w, best.value)))
      ensures placed ==> Gained(c, best.value)
      ensures !placed ==> sect == old(sect) && forall v :: IsSect(w, v) ==> !Site(c, v)
    {
      hide OnMap, PosOf, Rows, Off, TerrainOk, Separated, ZonesOk, Sites, Chosen;
      var found;
      ghost var picks;
      found, picks := PickSite(c, isiz);
      placed, best := found.Some?, found;
      assert Sites(c, isiz, picks) && Chosen(picks) == best;
      if found.Some? {
        var p := found.value;
        AddSector(c, p.x, p.y);
        assert Gained(c, p);
      }
    }

    /** Rolls the sizes of n islands. What one island gets more or less is taken from the first, and
        the rolls cancel out, so the first island is as well bounded as the others. */
    method RollSizes(n: nat) returns (isiz: seq<int>)
      requires Ready() && n >= 1
      ensures |isiz| == n && Sum(isiz) == Rows(islandSize, n)
      ensures forall i :: 0 <= i < n ==> 1 <= isiz[i] <= 2 * islandSize - 1
    {
      RowsIsProduct(islandSize, n);
      hide Unaliased, Sizes, Sum, IsMultiple;
      isiz := seq(n, _ => 0);
      isiz := isiz[0 := n * islandSize];
      SumOfFirst(isiz);
      var r1 := Roll0(islandSize);
      ghost var first := r1;
      for i := 1 to n
        invariant |isiz| == n && 0 <= r1 < islandSize
        invariant Sum(isiz) == Rows(islandSize, n)
        invariant isiz[0] == Rows(islandSize, n - i + 1) - r1 + first
        invariant forall k :: 1 <= k < i ==> 1 <= isiz[k] <= 2 * islandSize - 1
        invariant forall k :: i <= k < n ==> isiz[k] == 0
      {
        var r0 := r1;
        r1 := Roll0(islandSize);
        var s := islandSize + r1 - r0;
        SumUpdate(isiz, i, s);
        isiz := isiz[i := s];
        SumUpdate(isiz, 0, isiz[0] - s);
        isiz := isiz[0 := isiz[0] - s];
      }
    }

    /** How many islands there are for each continent. */
    function PerContinent(): (n: nat)
      requires Params()
      ensures Rows(nc, n) == ni
    {
      DivModDef(ni, nc);
      MulBigger(nc, -(ni / nc));
      assert nc * (ni / nc) == ni;
      assert nc * -(ni / nc) == -(nc * (ni / nc));
      RowsIsProduct(nc, ni / nc);
      ni / nc
    }

    /** The sizes of the islands of one continent, largest first. They add up to the average size
        times their number for any rolls, and each is at least 1 without help. */
    method SizeIslands() returns (sizes: seq<int>)
      requires Ready()
      ensures |sizes| == PerContinent() && Descending(sizes)
      ensures forall i :: 0 <= i < |sizes| ==> 1 <= sizes[i] <= 2 * islandSize - 1
      ensures Sum(sizes) == Rows(islandSize, PerContinent())
    {
      var n := PerContinent();
      if n == 0 {
        sizes := [];
      } else {
        sizes := SortedSizes(n);
      }
    }

    /** Rolls the sizes, the greatest first. */
    method SortedSizes(n: nat) returns (sizes: seq<int>)
      requires Ready() && n >= 1
      ensures |sizes| == n && Descending(sizes) && Sum(sizes) == Rows(islandSize, n)
      ensures forall i :: 0 <= i < |sizes| ==> 1 <= sizes[i] <= 2 * islandSize - 1
    {
      hide Unaliased, Sizes, Sum, IsMultiple, Rows, Descending, AtLeast, SortDescending;
      var isiz := RollSizes(n);
      SortKeeps(isiz);
      var sorted := SortDescending(isiz);
      SameBounds(isiz, sorted, 1, 2 * islandSize - 1);
      AtLeastIsSame(sorted, 1);
      sizes := AtLeast(sorted, 1);
    }

    /** The nc landmasses from c on all have `size` sectors. */
    ghost predicate BatchHas(c: int, size: int)
      requires 0 <= c && c + nc <= |sect|
      reads this
    {
      forall k :: c <= k < c + nc ==> |sect[k]| == size
    }

    /** An island for which there is no place. */
    ghost predicate Unplaced(c: int)
      requires Ready() && |sect| == nc + ni && nc <= c < nc + ni
      reads this`sect, own, xzone, closest, distance
    {
      sect[c] == [] && forall v :: IsSect(w, v) ==> !Site(c, v)
    }

    ghost predicate SomeUnplaced()
      requires Ready() && |sect| == nc + ni
      reads this`sect, own, xzone, closest, distance
    {
      exists c :: nc <= c < nc + ni && Unplaced(c)
    }

    /** Places the first sector of each island of a batch; fails only at an island for which there is no place. */
    method PlaceBatch(c: int, isiz: int) returns (placed: bool)
      requires Growing() && ZonesOk(true) && nc <= c && c + nc <= nc + ni && isiz >= 1
      requires forall k :: c <= k < nc + ni ==> sect[k] == []
      modifies own, adjLand, xzone, isecs, this`sect
      ensures Growing() && ZonesOk(true)
      ensures |sect| == nc + ni && sect[..c] == old(sect[..c]) && sect[c + nc..] == old(sect[c + nc..])
      ensures placed ==> BatchHas(c, 1)
      ensures !placed ==> SomeUnplaced()
    {
      hide OnMap, PosOf, Rows, Off, TerrainOk, Separated, ZonesOk, Site, Sites, Chosen, IsSect, IsMultiple;
      for j := 0 to nc
        invariant Growing() && ZonesOk(true)
        invariant sect[..c] == old(sect[..c]) && sect[c + nc..] == old(sect[c + nc..])
        invariant forall k :: c <= k < c + nc ==> |sect[k]| == if k < c + j then 1 else 0
      {
        ResetCount(c + j);
        var ok, best := PlaceIsland(c + j, isiz);
        if !ok {
          assert Unplaced(c + j);
          return false;
        }
      }
      return true;
    }

    /** Gives each island of a batch one more sector, as far as possible. */
    method GrowBatchOnce(c: int, ghost secs: int) returns (done: bool)
      requires Growing() && ZonesOk(true) && nc <= c && c + nc <= nc + ni && BatchHas(c, secs)
      modifies own, adjLand, xzone, seen, isecs, this`sect, this`curSeen
      ensures Growing() && ZonesOk(true)
      ensures |sect| == nc + ni && sect[..c] == old(sect[..c]) && sect[c + nc..] == old(sect[c + nc..])
      ensures forall k :: c <= k < c + nc ==> |sect[k]| == secs || |sect[k]| == secs + 1
      ensures done ==> BatchHas(c, secs + 1)
    {
      hide OnMap, PosOf, Rows, Off, TerrainOk, Separated, ZonesOk, Candidate, NothingToPick, IsMultiple;
      done := true;
      for j := 0 to nc
        invariant Growing() && ZonesOk(true)
        invariant sect[..c] == old(sect[..c]) && sect[c + nc..] == old(sect[c + nc..])
        invariant forall k :: c <= k < c + nc ==> |sect[k]| == secs || (k < c + j && |sect[k]| == secs + 1)
        invariant done ==> forall k :: c <= k < c + j ==> |sect[k]| == secs + 1
      {
        var grown, roll, best := GrowOneSector(c + j);
        if !grown {
          done := false;
        }
      }
    }

    /** Gives the last sector of landmass c back to the sea. */
    method DropLastSector(c: int)
      requires Growing() && 0 <= c < nc + ni && |sect[c]| > 0
      modifies own, adjLand, isecs, this`sect
      ensures Growing() && sect == old(sect)[c := old(sect)[c][..|old(sect)[c]| - 1]]
    {
      ghost var t := Terrain();
      var last := isecs[c] - 1;
      var p := sect[c][last];
      ListedAt(w, t, c, last);
      hide OnMap, PosOf, Rows, Off, TerrainOk, Separated, AdjSet, IsMultiple;
      var lo := Off(w, p);
      own[lo] := SEA;
      sect := sect[c := sect[c][..last]];
      isecs[c] := isecs[c] - 1;
      assert own[..] == t.own[lo := SEA];
      AdjLandUpdate(p.x, p.y);
      UndoKeeps(w, t, Terrain(), c);
      RemoveSeparates(w, t.own, nc, di, id, distinctIslands, lo);
    }

    /** Trims the islands of a batch to the size of the smallest. */
    method TrimBatch(c: int, secs: int)
      requires Growing() && nc <= c && c + nc <= nc + ni && secs >= 1
      requires forall k :: c <= k < c + nc ==> |sect[k]| == secs || |sect[k]| == secs + 1
      modifies own, adjLand, isecs, this`sect
      ensures Growing()
      ensures |sect| == nc + ni && sect[..c] == old(sect[..c]) && sect[c + nc..] == old(sect[c + nc..])
      ensures BatchHas(c, secs)
    {
      hide OnMap, PosOf, Rows, Off, TerrainOk, Separated, IsMultiple;
      for j := 0 to nc
        invariant Growing()
        invariant sect[..c] == old(sect[..c]) && sect[c + nc..] == old(sect[c + nc..])
        invariant forall k :: c <= k < c + nc ==> |sect[k]| == secs || (c + j <= k && |sect[k]| == secs + 1)
      {
        if isecs[c + j] != secs {
          DropLastSector(c + j);
        }
      }
    }

    /** Grows the islands of a batch together up to isiz sectors each. If one of them cannot keep up,
        all are trimmed to its size, and the zones no longer fit the land. */
    method GrowBatch(c: int, isiz: int) returns (secs: int, done: bool)
      requires Growing() && ZonesOk(true) && nc <= c && c + nc <= nc + ni && isiz >= 1 && BatchHas(c, 1)
      modifies own, adjLand, xzone, seen, isecs, this`sect, this`curSeen
      ensures Growing() && (done ==> ZonesOk(true))
      ensures |sect| == nc + ni && sect[..c] == old(sect[..c]) && sect[c + nc..] == old(sect[c + nc..])
      ensures BatchHas(c, secs) && 1 <= secs <= isiz && (done ==> secs == isiz)
    {
      hide OnMap, PosOf, Rows, Off, TerrainOk, Separated, ZonesOk, IsMultiple;
      done := true;
      secs := 1;
      while secs < isiz && done
        invariant Growing() && ZonesOk(true)
        invariant sect[..c] == old(sect[..c]) && sect[c + nc..] == old(sect[c + nc..])
        invariant 1 <= secs <= isiz && (done ==> BatchHas(c, secs))
        invariant !done ==> secs >= 2 && forall k :: c <= k < c + nc ==> |sect[k]| == secs - 1 || |sect[k]| == secs
      {
        done := GrowBatchOnce(c, secs);
        secs := secs + 1;
      }
      if !done {
        secs := secs - 1;
        TrimBatch(c, secs);
      }
    }

    /** One batch of islands, one for each continent. */
    method GrowOneBatch(c: int, isiz: int, xzoneValid: bool) returns (ok: bool, secs: int, done: bool)
      requires Growing() && nc <= c && c + nc <= nc + ni && isiz >= 1 && (xzoneValid ==> ZonesOk(true))
      requires forall k :: c <= k < nc + ni ==> sect[k] == []
      modifies own, adjLand, xzone, seen, isecs, this`sect, this`curSeen
      ensures Growing() && (ok && done ==> ZonesOk(true))
      ensures |sect| == nc + ni && sect[..c] == old(sect[..c]) && sect[c + nc..] == old(sect[c + nc..])
      ensures ok ==> BatchHas(c, secs) && 1 <= secs <= isiz
      ensures !ok ==> SomeUnplaced()
    {
      hide OnMap, PosOf, Rows, Off, TerrainOk, Separated, IsMultiple;
      if !xzoneValid {
        XzoneInit(c);
        TerrainOwners(w, Terrain(), c);
        ExactGuardsAll(w, own[..], xzone[..], c, nc, di, id, distinctIslands, nc + ni);
      }
      hide ZonesOk;
      secs, done := 0, false;
      ok := PlaceBatch(c, isiz);
      if ok {
        secs, done := GrowBatch(c, isiz);
      }
    }

    /** On success every batch consists of nc islands of one common size between 1 and twice the
        average, and the number of island sectors is short of the target by exactly the carry for
        each continent. It fails only at an island for which there is no place. */
    method GrowIslands() returns (ok: bool, carry: int, ghost batch: seq<int>)
      requires Growing() && NoIslands()
      modifies own, adjLand, xzone, seen, isecs, closest, distance, bfsBuf, this
      ensures Growing() && sect[..nc] == old(sect[..nc])
      ensures ok ==> |batch| == PerContinent() && BatchesAre(sect[nc..], nc, islandSize, batch) && carry >= 0
      ensures ok ==> SectorCount(sect[nc..]) == islandSize * ni - carry * nc
      ensures !ok ==> SomeUnplaced()
    {
      var sizes := SizeIslands();
      batch, carry := [], 0;
      ghost var n := PerContinent();
      assert sizes[..0] == [] && sizes[..n] == sizes && Sum([]) == 0;
      NoBatches(sect[nc..], nc, islandSize);
      hide OnMap, PosOf, Rows, Off, TerrainOk, Separated, ZonesOk, IsMultiple, BatchesAre, Descending, PerContinent,
           Sum,
           SectorCount;
      if |sizes| == 0 {
        BatchesAmountTo(sect[nc..], nc, islandSize, batch, carry, n);
        return true, carry, batch;
      }
      ghost var dist, tag := InitSpheresOfInfluence();
      var xzoneValid := false;
      for i := 0 to |sizes|
        invariant Growing() && (xzoneValid ==> ZonesOk(true)) && sect[..nc] == old(sect[..nc])
        invariant |batch| == i && BatchesAre(sect[nc..], nc, islandSize, batch)
        invariant carry >= 0 && Sum(batch) + carry == Sum(sizes[..i])
      {
        SumPrefix(sizes, i);
        carry := carry + sizes[i];
        var isiz := if 2 * islandSize < carry then 2 * islandSize else carry;
        var ok', secs, done := IslandBatch(i, isiz, xzoneValid, batch);
        if !ok' {
          return false, carry, batch;
        }
        xzoneValid := done;
        SumNext(batch, secs);
        batch := batch + [secs];
        carry := carry - secs;
      }
      BatchesAmountTo(sect[nc..], nc, islandSize, batch, carry, n);
      return true, carry, batch;
    }

    /** The i-th batch. */
    method IslandBatch(i: nat, isiz: int, xzoneValid: bool, ghost batch: seq<int>)
      returns (ok: bool, secs: int, done: bool)
      requires Growing() && (xzoneValid ==> ZonesOk(true)) && 1 <= isiz <= 2 * islandSize
      requires |batch| == i < PerContinent() && BatchesAre(sect[nc..], nc, islandSize, batch)
      modifies own, adjLand, xzone, seen, isecs, this`sect, this`curSeen
      ensures Growing() && (ok && done ==> ZonesOk(true)) && sect[..nc] == old(sect[..nc])
      ensures ok ==> 1 <= secs <= isiz && BatchesAre(sect[nc..], nc, islandSize, batch + [secs])
      ensures !ok ==> SomeUnplaced()
    {
      RowsIsProduct(nc, i);
      RowsNext(nc, i);
      RowsMono(nc, i + 1, PerContinent());
      hide OnMap, PosOf, Rows, Off, TerrainOk, Separated, ZonesOk, IsMultiple, PerContinent, Sum, SectorCount,
        BatchesAre;
      var c := nc + i * nc;
      ghost var before := sect;
      RestIsEmpty(before, nc, islandSize, batch, c);
      ok, secs, done := GrowOneBatch(c, isiz, xzoneValid);
      PrefixKept(before, sect, nc, c);
      if ok {
        NextBatchAt(before, sect, nc, islandSize, batch, secs, c);
      }
    }

    // -------------------------------------------------------------------------------------------
    // Capitals
    // -------------------------------------------------------------------------------------------

    /** How isolated capital j would be at p. */
    method Iso(j: int, p: Pos) returns (d: int)
      requires Ready() && AllOnMap(w, cap[..]) && OnMap(w, p)
      ensures IsIso(w, cap[..], j, p, d)
    {
      hide Unaliased, MapDist, OnMap, Rows, IsMultiple;
      d := I32_MAX;
      for i := 0 to nc
        invariant d <= I32_MAX
        invariant forall k :: 0 <= k < i && k != j ==> d <= MapDist(w, cap[k], p)
        invariant d == I32_MAX || exists k :: 0 <= k < i && k != j && d == MapDist(w, cap[k], p)
      {
        if i != j {
          var md := MapDist(w, cap[i], p);
          if md < d {
            d := md;
          }
        }
      }
      assert forall k :: 0 <= k < nc ==> cap[..][k] == cap[k];
    }

    /** The direction t steps round from d0. */
    static ghost function Turned(d0: int, t: int): int {
      if d0 + t > 6 then d0 + t - 6 else d0 + t
    }

    /** Moves capital j by one step if that leaves it at least as isolated; only if no step does, it stays. */
    method DriftCapital(j: int)
      requires Ready() && AllOnMap(w, cap[..]) && 0 <= j < nc
      modifies cap
      ensures AllOnMap(w, cap[..]) && Drifted(w, old(cap[..]), cap[..], j)
      ensures forall m :: m <= I32_MAX && Spread(w, old(cap[..]), m) ==> Spread(w, cap[..], m)
    {
      hide Unaliased, MapDist, OnMap, Rows, IsMultiple, Step, IsIso, Spread;
      ghost var cap0 := cap[..];
      var r := Roll0(6);
      var dir := (5 + r) % 7;
      ghost var d0 := if dir == 0 then 1 else dir;
      var here := cap[j];
      var base := Iso(j, here);
      for k := 0 to 6
        invariant cap[..] == cap0
        invariant if k == 0 then d0 == (if dir == 0 then 1 else dir) else dir == Turned(d0, k)
        invariant forall t :: 0 <= t < k ==> Worse(w, cap0, j, Step(w, here, Turned(d0, t)), here)
      {
        if dir < DIR_FIRST || dir > DIR_LAST {
          dir := DIR_FIRST;
        }
        StepBack(w, here, dir);
        var there := Step(w, here, dir);
        var d := Iso(j, there);
        if d >= base {
          forall m | m <= I32_MAX && Spread(w, cap0, m)
            ensures Spread(w, cap0[j := there], m)
          {
            MoveKeepsSpread(w, cap0, j, there, base, d, m);
          }
          MoveStaysOnMap(j, there);
          assert NoWorse(w, cap0, j, there, here);
          cap[j] := there;
          assert cap[..] == cap0[j := there];
          return;
        }
        assert Worse(w, cap0, j, Step(w, here, Turned(d0, k)), here);
        dir := if dir >= DIR_LAST then DIR_FIRST else dir + 1;
      }
      forall d | 1 <= d <= 6
        ensures Worse(w, cap0, j, Step(w, here, d), here)
      {
        assert d == Turned(d0, if d >= d0 then d - d0 else d - d0 + 6);
      }
    }

    lemma {:induction false} MoveStaysOnMap(j: int, p: Pos)
      requires Ready() && AllOnMap(w, cap[..]) && 0 <= j < nc && OnMap(w, p)
      ensures AllOnMap(w, cap[..][j := p])
    {
      hide OnMap, Rows, Unaliased;
    }

    /** Whether the largest isolation is that of all four turns remembered, which it never is before half
        the world's circumference; remembers this one in place of the oldest. */
    method Stable(turns: nat, mc: array<int>) returns (stab: bool)
      requires Ready() && AllOnMap(w, cap[..]) && mc.Length == 4
      modifies mc
      ensures turns <= HalfRound(w) ==> !stab && mc[..] == if turns == 0 then [0, 1, 2, 3] else old(mc[..])
      ensures turns > HalfRound(w) ==>
                exists d :: IsLargestIso(w, cap[..], d) && mc[..] == old(mc[..])[turns % 4 := d]
                            && (stab <==> old(mc[..]) == [d, d, d, d])
    {
      hide Unaliased, OnMap, Rows, IsMultiple, IsIso;
      var beforeCheck := HalfRound(w);
      if turns == 0 {
        for i := 0 to 4
          invariant forall k :: 0 <= k < i ==> mc[k] == k
        {
          mc[i] := i;
        }
      }
      if turns <= beforeCheck {
        return false;
      }
      ghost var mc0 := mc[..];
      var d := LargestIso();
      stab := true;
      for i := 0 to 4
        invariant mc[..] == mc0 && (stab <==> forall k :: 0 <= k < i ==> mc[k] == d)
      {
        if mc[i] != d {
          stab := false;
        }
      }
      assert mc0 == [mc0[0], mc0[1], mc0[2], mc0[3]];
      mc[turns % 4] := d;
    }

    /** How isolated the most isolated capital is. */
    method LargestIso() returns (d: int)
      requires Ready() && AllOnMap(w, cap[..])
      ensures IsLargestIso(w, cap[..], d)
    {
      hide Unaliased, OnMap, Rows, IsMultiple, IsIso;
      ghost var c := cap[..];
      d := 0;
      for i := 0 to nc
        invariant d == 0 || exists k :: 0 <= k < i && IsIso(w, c, k, c[k], d)
        invariant forall k :: 0 <= k < i ==> IsoAtMost(w, c, k, d)
      {
        var isod := Iso(i, cap[i]);
        assert IsIso(w, c, i, c[i], isod);
        if isod > d {
          forall k | 0 <= k < i
            ensures IsoAtMost(w, c, k, isod)
          {
            assert IsoAtMost(w, c, k, d);
            var e :| IsIso(w, c, k, c[k], e) && e <= d;
            assert e <= isod;
          }
          d := isod;
        }
        assert IsoAtMost(w, c, i, d);
      }
      assert forall k :: 0 <= k < nc ==> IsoAtMost(w, c, k, d);
    }

    /** Spreads the capitals evenly. */
    method PlaceCapitals()
      requires Ready() && 2 * nc <= w.Size()
      modifies cap
      ensures AllOnMap(w, cap[..]) && forall i :: 0 <= i < nc ==> cap[i] == StartPos(w, i)
    {
      hide Unaliased, OnMap, Rows, IsMultiple, PosOf;
      for i := 0 to nc
        invariant forall k :: 0 <= k < i ==> cap[k] == StartPos(w, k) && OnMap(w, cap[k])
      {
        var p := PosOf(w, 2 * i);
        cap[i] := Pos(p.x + p.y % 2, p.y);
        StartPosOnMap(w, i);
      }
    }

    /** Where the capitals are placed before they drift. */
    ghost function StartPositions(): (s: seq<Pos>)
      requires Ready()
      ensures |s| == nc
    {
      seq(nc, i requires 0 <= i < nc => StartPos(w, i))
    }

    /** One turn: every capital drifts in its turn. */
    method DriftAll() returns (ghost turn: seq<seq<Pos>>)
      requires Ready() && AllOnMap(w, cap[..])
      modifies cap
      ensures AllOnMap(w, cap[..])
      ensures |turn| == nc + 1 && DriftTurn(w, turn, nc) && turn[0] == old(cap[..]) && turn[nc] == cap[..]
      ensures forall m :: m <= I32_MAX && Spread(w, old(cap[..]), m) ==> Spread(w, cap[..], m)
    {
      hide Unaliased, OnMap, Rows, IsMultiple, Spread, Drifted;
      ghost var cap0 := cap[..];
      turn := [cap0];
      for i := 0 to nc
        invariant AllOnMap(w, cap[..]) && |turn| == i + 1 && turn[0] == cap0 && turn[i] == cap[..]
        invariant forall k :: 0 <= k <= i ==> |turn[k]| == nc
        invariant forall k :: 0 <= k < i ==> Drifted(w, turn[k], turn[k + 1], k)
        invariant forall m :: m <= I32_MAX && Spread(w, cap0, m) ==> Spread(w, cap[..], m)
      {
        DriftCapital(i);
        turn := turn + [cap[..]];
      }
    }

    /** Reads and remembers the largest isolation before a turn; stable if it was the same four turns long. */
    method TakeReading(turns: nat, mc: array<int>, ghost run: seq<seq<seq<Pos>>>, ghost readings: seq<int>)
      returns (stab: bool, ghost ds: seq<int>)
      requires Ready() && AllOnMap(w, cap[..]) && mc.Length == 4 && |readings| == |run| == turns
      requires AreReadings(w, run, cap[..], readings, HalfRound(w))
      requires turns > 0 ==> Remembers(mc[..], readings, HalfRound(w))
      modifies mc
      ensures |ds| == turns + 1 && AreReadings(w, run, cap[..], ds, HalfRound(w))
      ensures Remembers(mc[..], ds, HalfRound(w)) && (stab <==> Steady(ds, turns, HalfRound(w)))
      ensures stab ==> turns > HalfRound(w)
      ensures forall t :: 0 <= t < turns ==>
                (Steady(ds, t, HalfRound(w)) <==> Steady(readings, t, HalfRound(w)))
    {
      hide Unaliased, OnMap, Rows, IsMultiple, AreReadings, Remembers, IsLargestIso, Reading;
      ghost var b := HalfRound(w);
      ghost var mc0 := if turns == 0 then [0, 1, 2, 3] else mc[..];
      RemembersNothing(b);
      assert turns == 0 ==> readings == [];
      stab := Stable(turns, mc);
      ghost var d := 0;
      if turns > b {
        d :| IsLargestIso(w, cap[..], d) && mc[..] == mc0[turns % 4 := d] && (stab <==> mc0 == [d, d, d, d]);
        SteadyIff(mc0, readings, b, d);
      }
      ds := readings + [d];
      RemembersNext(mc0, readings, b, d);
      ReadingsNext(w, run, cap[..], readings, b, d);
      forall t | 0 <= t < turns
        ensures Steady(ds, t, b) <==> Steady(readings, t, b)
      {
        SteadyStays(readings, d, t, b);
      }
    }

    /** How far the drift has come: a run of turns from the start with a reading before each and, when it is found
        stable, one more, the first that is steady; the capitals are no closer than they were. */
    ghost predicate Drifting(start: seq<Pos>, run: seq<seq<seq<Pos>>>, readings: seq<int>, stable: bool)
      requires Ready()
      reads cap
    {
      AllOnMap(w, cap[..]) && DriftRun(w, start, run, cap[..]) && AreReadings(w, run, cap[..], readings, HalfRound(w))
      && |start| == nc && |readings| == |run| + (if stable then 1 else 0)
      && (forall t :: 0 <= t < |readings| ==> (Steady(readings, t, HalfRound(w)) <==> stable && t == |run|))
      && forall m :: m <= I32_MAX && Spread(w, start, m) ==> Spread(w, cap[..], m)
    }

    /** One turn of the drift, unless it is found stable. */
    method DriftOn(turns: nat, mc: array<int>, ghost start: seq<Pos>, ghost run: seq<seq<seq<Pos>>>,
                   ghost readings: seq<int>)
      returns (stable: bool, ghost run': seq<seq<seq<Pos>>>, ghost readings': seq<int>)
      requires Ready() && mc.Length == 4 && |run| == turns && Drifting(start, run, readings, false)
      requires turns > 0 ==> Remembers(mc[..], readings, HalfRound(w))
      modifies cap, mc
      ensures Drifting(start, run', readings', stable) && Remembers(mc[..], readings', HalfRound(w))
      ensures |run'| == if stable then turns else turns + 1
      ensures stable ==> turns > HalfRound(w)
    {
      hide Unaliased, OnMap, Rows, IsMultiple, Spread, DriftTurn, DriftRun, AreReadings, Remembers, Steady;
      run' := run;
      stable, readings' := TakeReading(turns, mc, run, readings);
      if !stable {
        ghost var turn := DriftAll();
        DriftRunNext(w, start, run, turn[0], turn);
        ReadingsTurn(w, run, turn[0], readings', HalfRound(w), turn, cap[..]);
        run' := run + [turn];
      }
    }

    /** Places the capitals and lets them drift, turn by turn, for (wx + wy) * 2 turns unless they are
        found stable: when the largest isolation has been the same before five turns on end. However the dice
        fall, no two capitals end up nearer to each other than the nearest two were at the start, so they stay
        distinct sectors. */
    method Drift() returns (stable: bool, ghost run: seq<seq<seq<Pos>>>, ghost readings: seq<int>)
      requires Ready() && 2 * nc <= w.Size()
      modifies cap
      ensures Drifting(StartPositions(), run, readings, stable)
      ensures if stable then HalfRound(w) < |run| < (w.wx + w.wy) * 2 else |run| == (w.wx + w.wy) * 2
      ensures forall i, j :: 0 <= i < j < nc ==> cap[i] != cap[j]
    {
      PlaceCapitals();
      StartsDistinct();
      hide Unaliased, OnMap, Rows, IsMultiple, StartPositions, Spread, Remembers, Drifting;
      ghost var start := StartPositions();
      var driftMax := (w.wx + w.wy) * 2;
      var mc := new int[4](_ => 0);
      stable, run, readings := false, [], [];
      NoDrift();
      for turns := 0 to driftMax
        invariant Drifting(start, run, readings, false) && !stable && |run| == turns
        invariant turns > 0 ==> Remembers(mc[..], readings, HalfRound(w))
      {
        stable, run, readings := DriftOn(turns, mc, start, run, readings);
        if stable {
          break;
        }
      }
      DriftedApart(run, readings, stable);
    }

    lemma {:induction false} DriftedApart(run: seq<seq<seq<Pos>>>, readings: seq<int>, stable: bool)
      requires Ready() && Drifting(StartPositions(), run, readings, stable) && Spread(w, StartPositions(), 1)
      ensures AllOnMap(w, cap[..]) && forall i, j :: 0 <= i < j < nc ==> cap[i] != cap[j]
    {
      hide Unaliased, OnMap, Rows, IsMultiple, StartPositions, Spread, DriftRun, AreReadings, Steady;
      DistinctIsSpread(w, cap[..]);
      assert forall i :: 0 <= i < nc ==> cap[..][i] == cap[i];
    }

    lemma {:induction false} NoDrift()
      requires Ready() && AllOnMap(w, cap[..]) && forall i :: 0 <= i < nc ==> cap[i] == StartPos(w, i)
      ensures Drifting(StartPositions(), [], [], false)
    {
      hide OnMap, Spread, StartPos;
      assert cap[..] == StartPositions();
    }

    lemma {:induction false} StartsDistinct()
      requires Ready() && 2 * nc <= w.Size() && AllOnMap(w, StartPositions())
      ensures Spread(w, StartPositions(), 1)
    {
      hide Unaliased, OnMap, Rows, IsMultiple, StartPos, Spread;
      var start := StartPositions();
      forall i, j | 0 <= i < j < nc
        ensures start[i] != start[j]
      {
        StartPosDistinct(w, i, j);
      }
      DistinctIsSpread(w, start);
    }

    // -------------------------------------------------------------------------------------------
    // Elevation
    // -------------------------------------------------------------------------------------------

    /** Sea is not above, and land not below, zero; heights fit in 16 bits. */
    ghost predicate SidesOk()
      requires Ready()
      reads own, elev
    {
      Sides(own[..], elev[..])
    }

    /** Moves one sector by `amount` away from zero. */
    method Move(o: int, amount: int)
      requires Ready() && SidesOk() && 0 <= o < w.Size() && (if own[o] == SEA then amount <= 0 else amount >= 0)
      modifies elev
      ensures SidesOk() && NoneCrossed(own[..], old(elev[..]), elev[..])
      ensures elev[..] == old(elev[..])[o := Clamp16(old(elev[o]) + amount)]
    {
      hide Rows, IsMultiple;
      var e := elev[o] + amount;
      MoveOnSide(own[..], elev[..], o, amount);
      hide Sides, NoneCrossed;
      elev[o] := Clamp16(e);
    }

    /** Moves the sectors on one ring around p, all of which lie on p's side of the coast. */
    method MoveRing(p: Pos, d: int, amount: int)
      requires Ready() && SidesOk() && OnMap(w, p) && IsSect(w, Off(w, p)) && d >= 1
      requires Pure(w, own[..], Off(w, p), d) && (if own[Off(w, p)] == SEA then amount <= 0 else amount >= 0)
      modifies elev
      ensures SidesOk() && NoneCrossed(own[..], old(elev[..]), elev[..])
      ensures RingMoved(w, old(elev[..]), elev[..], Off(w, p), d, amount)
      ensures elev[..] == RingPushed(w, old(elev[..]), p, d, amount)
    {
      assert own != elev;
      hide Nb, OnMap, PosOf, Rows, Off, Dist, MapDist, Wrap, Shift, RingAt, Pure, RingMoving, RingMoved,
           RingPushed, Sides, NoneCrossed, IsMultiple, Sizes, Unaliased;
      RingStart(w, p, d);
      ghost var e0 := elev[..];
      ghost var met: set<int> := {};
      RingMovingStarts(p, d, amount);
      var rx := Wrap(p.x - 2 * d, w.wx);
      var ry := p.y;
      var iter := new HexagonIter(d);
      var more := true;
      while more
        invariant iter.Valid() && iter.n == d && (more <==> iter.dir <= DIR_LAST)
        invariant Pos(rx, ry) == RingPos(w, p, d, iter.dir, iter.step)
        invariant RingMoving(p, d, amount, e0, iter.dir, iter.step, met)
        invariant !more ==> iter.dir == 7 && iter.step == 0
        decreases 7 - iter.dir, d - iter.step
      {
        more, rx, ry, met := MoveOn(iter, p, d, amount, e0, met, rx, ry);
      }
      RingMovingEnds(p, d, amount, e0, met);
    }

    /** Moves the sector at the point the walk has come to, and goes on to the next point. */
    method MoveOn(iter: HexagonIter, p: Pos, d: int, amount: int, ghost e0: seq<int>, ghost met: set<int>, rx: int,
                  ry: int)
      returns (more: bool, rx': int, ry': int, ghost met': set<int>)
      requires Ready() && OnMap(w, p) && IsSect(w, Off(w, p)) && iter.Valid() && iter.n == d && iter.dir <= DIR_LAST
      requires Pure(w, own[..], Off(w, p), d) && (if own[Off(w, p)] == SEA then amount <= 0 else amount >= 0)
      requires Pos(rx, ry) == RingPos(w, p, d, iter.dir, iter.step)
      requires RingMoving(p, d, amount, e0, iter.dir, iter.step, met)
      modifies iter, elev
      ensures iter.Valid() && (iter.dir, iter.step) == NextSide(d, old(iter.dir), old(iter.step))
      ensures more <==> iter.dir <= DIR_LAST
      ensures Pos(rx', ry') == RingPos(w, p, d, iter.dir, iter.step)
      ensures RingMoving(p, d, amount, e0, iter.dir, iter.step, met')
    {
      hide Nb, OnMap, PosOf, Rows, Off, Dist, MapDist, Wrap, Shift, RingAt, Pure, RingMoving, IsMultiple, Sizes,
        Unaliased;
      met' := MoveAt(p, d, amount, e0, iter.dir, iter.step, met, rx, ry);
      more, rx', ry' := iter.Advance(w, rx, ry, p);
    }

    /** The points of the ring before (dir, step) have been met and moved, and nothing else. */
    ghost predicate RingMoving(p: Pos, d: int, amount: int, e0: seq<int>, dir: int, step: int, met: set<int>)
      requires Ready()
      reads own, elev
    {
      SidesOk() && NoneCrossed(own[..], e0, elev[..]) && 1 <= dir <= 7 && 0 <= step < d
      && Walked(w, p, d, dir, step, met) && MovedAll(e0, elev[..], met, amount)
      && PushedAll(e0, elev[..], RingTimes(w, p, d, dir, step), amount)
      && forall v :: v in met ==> IsSect(w, v) && Dist(w, Off(w, p), v) <= d
    }

    lemma {:induction false} RingMovingStarts(p: Pos, d: int, amount: int)
      requires Ready() && SidesOk() && d >= 1
      ensures RingMoving(p, d, amount, elev[..], 1, 0, {})
    {
      NoneCrossedStays(own[..], elev[..]);
      NothingWalked(w, p, d, elev[..], amount);
    }

    lemma {:induction false} RingMovingEnds(p: Pos, d: int, amount: int, e0: seq<int>, met: set<int>)
      requires Ready() && OnMap(w, p) && IsSect(w, Off(w, p)) && d >= 1 && Sides(own[..], e0)
      requires RingMoving(p, d, amount, e0, 7, 0, met)
      ensures SidesOk() && NoneCrossed(own[..], e0, elev[..])
      ensures RingMoved(w, e0, elev[..], Off(w, p), d, amount) && elev[..] == RingPushed(w, e0, p, d, amount)
    {
      PushedIsRing(w, e0, elev[..], p, d, amount);
      hide RingTimes, RingPushed;
      hide Nb, OnMap, PosOf, Rows, Off, Dist, MapDist, Wrap, RingAt, Sides, NoneCrossed, IsMultiple, Walked;
      forall v | IsSect(w, v) && Dist(w, Off(w, p), v) == d
        ensures v in met
      {
        WalkedAll(w, p, d, met, v);
      }
      RingMovedBy(w, own[..], e0, elev[..], met, Off(w, p), d, amount);
    }

    /** Moves the sector at one point of the ring. */
    method MoveAt(p: Pos, d: int, amount: int, ghost e0: seq<int>, ghost dir: int, ghost step: int,
                  ghost met: set<int>, rx: int, ry: int)
      returns (ghost met': set<int>)
      requires Ready() && OnMap(w, p) && IsSect(w, Off(w, p)) && d >= 1 && 1 <= dir <= 6 && 0 <= step < d
      requires Pure(w, own[..], Off(w, p), d) && (if own[Off(w, p)] == SEA then amount <= 0 else amount >= 0)
      requires Pos(rx, ry) == RingPos(w, p, d, dir, step) && RingMoving(p, d, amount, e0, dir, step, met)
      modifies elev
      ensures RingMoving(p, d, amount, e0, NextSide(d, dir, step).0, NextSide(d, dir, step).1, met')
    {
      hide Nb, OnMap, PosOf, Rows, Off, Dist, MapDist, Wrap, RingAt, Sides, NoneCrossed, IsMultiple, Pure, MovedAll,
           Walked, PushedAll, RingTimes;
      RingSectNear(w, p, d, dir, step);
      var ro := Off(w, Pos(rx, ry));
      PureAt(w, own[..], Off(w, p), d, ro);
      ghost var e := elev[..];
      MovedNext(own[..], e0, e, met, amount, ro);
      PushedNext(e0, e, RingTimes(w, p, d, dir, step), amount, ro);
      RingTimesNext(w, p, d, dir, step);
      WalkedNext(w, p, d, dir, step, met);
      Move(ro, amount);
      met' := met + {ro};
      NoneCrossedJoins(own[..], e0, e, elev[..]);
    }

    lemma {:induction false} NothingWalked(w: World, p: Pos, d: int, e: seq<int>, amount: int)
      requires w.Valid()
      ensures Walked(w, p, d, 1, 0, {}) && MovedAll(e, e, {}, amount)
    {}

    /** A random radius for moving the ground around o; everything nearer is on o's side of the coast. */
    method PickRadius(o: int) returns (r: int)
      requires Ready() && 0 <= o < w.Size() && Bfs.Shape(w, FieldNow())
      requires forall v :: 0 <= v < w.Size() ==> SEA <= own[v] < nc + ni && (own[v] != SEA ==> IsSect(w, v))
      requires Bfs.ExactDistance(w, Coast.CoastSources(w, own[..], nc + ni), distance[..])
      ensures 1 <= r <= 4 && (r > 1 ==> IsSect(w, o) && Pure(w, own[..], o, r - 1))
      ensures r == 1 || r <= Roll(own[o] != SEA, distance[o])
    {
      hide Unaliased, Nb, OnMap, PosOf, Rows, Off, Dist, IsMultiple, Bfs.ExactDistance, Pure, Coast.CoastSources;
      var land := own[o] != SEA;
      var roll := Roll0(Roll(land, distance[o]));
      r := roll + 1;
      if r > 1 {
        assert FieldNow().dist[o] == distance[o];
        assert IsSect(w, o);
        RollStaysPure(w, own[..], nc + ni, distance[..], o, r);
      }
    }

    /** Raises or lowers the ground around a random sector, on its own side of the coast only. */
    method Strike() returns (ghost o: int, ghost r: int)
      requires Ready() && SidesOk() && Bfs.Shape(w, FieldNow())
      requires forall v :: 0 <= v < w.Size() ==> SEA <= own[v] < nc + ni && (own[v] != SEA ==> IsSect(w, v))
      requires Bfs.ExactDistance(w, Coast.CoastSources(w, own[..], nc + ni), distance[..])
      modifies elev
      ensures SidesOk() && NoneCrossed(own[..], old(elev[..]), elev[..])
      ensures IsBlow(old(elev[..]), elev[..], o, r)
    {
      OffBound(w, 0, 0);
      hide Nb, OnMap, PosOf, Rows, Off, Dist, Sides, NoneCrossed, IsMultiple, Bfs.ExactDistance, Bfs.Shape, Pure,
           Striking, Struck;
      ghost var e0 := elev[..];
      var o0 := Roll0(w.Size());
      var radius := PickRadius(o0);
      o, r := o0, radius;
      StrikeCentre(o0, radius);
      for d := 1 to radius
        invariant Striking(o0, radius, e0, d)
      {
        StrikeRing(o0, radius, e0, d);
      }
      StrikingEnds(o0, radius, e0);
    }

    lemma {:induction false} StrikingEnds(o: int, r: int, e0: seq<int>)
      requires Ready() && r >= 1 && Striking(o, r, e0, r)
      ensures SidesOk() && NoneCrossed(own[..], e0, elev[..]) && Struck(w, own[..], e0, elev[..], o, r)
      ensures 0 <= o < |e0| == w.Size() && elev[..] == Blown(w, e0, o, r, own[o] != SEA, r)
    {
      hide Rows, IsMultiple, Sides, NoneCrossed, StruckSoFar, Struck, Blown;
      AllStruck(w, own[..], e0, elev[..], o, r);
    }

    /** Moves the centre of a blow. */
    method StrikeCentre(o: int, r: int)
      requires Ready() && SidesOk() && 0 <= o < w.Size() && 1 <= r
      modifies elev
      ensures Striking(o, r, old(elev[..]), 1)
    {
      hide Rows, IsMultiple, Sides, NoneCrossed, StruckSoFar, Lift;
      StruckCentre(w, own[..], elev[..], o, r);
      LiftSigns(r, 0);
      Move(o, LiftBy(r, 0, own[o] != SEA));
    }

    /** What one blow has done to everything nearer than d. */
    ghost predicate Striking(o: int, r: int, e0: seq<int>, d: int)
      requires Ready()
      reads own, elev
    {
      SidesOk() && NoneCrossed(own[..], e0, elev[..]) && StruckSoFar(w, own[..], e0, elev[..], o, r, d)
      && d >= 1 && |e0| == w.Size() && 0 <= o < w.Size() && elev[..] == Blown(w, e0, o, r, own[o] != SEA, d)
    }

    /** Moves the ring at distance d by its share of a blow of radius r at o. */
    method StrikeRing(o: int, r: int, ghost e0: seq<int>, d: int)
      requires Ready() && IsSect(w, o) && 1 <= d < r && Pure(w, own[..], o, r - 1) && Striking(o, r, e0, d)
      modifies elev
      ensures Striking(o, r, e0, d + 1)
    {
      hide Nb, OnMap, PosOf, Rows, Off, Dist, Sides, NoneCrossed, IsMultiple, Pure, StruckSoFar, RingMoved,
        RingPushed, Lift;
      PosOfOff(w, o);
      LiftSigns(r, d);
      PureSmaller(w, own[..], o, r - 1, d);
      ghost var e := elev[..];
      MoveRing(PosOf(w, o), d, LiftBy(r, d, own[o] != SEA));
      NoneCrossedJoins(own[..], e0, e, elev[..]);
      StruckRing(w, own[..], e0, e, elev[..], o, r, d);
    }

    /** For any dice, the random walk never raises a sea sector and never lowers a land sector. */
    method ElevatePrep() returns (ghost trace: seq<seq<int>>)
      requires Ready() && TerrainOk(w, Terrain()) && |sect| == nc + ni && SidesOk()
      modifies closest, distance, bfsBuf, elev, this`bfsHead, this`bfsTail, this`queue
      ensures SidesOk() && NoneCrossed(own[..], old(elev[..]), elev[..])
      ensures |trace| == 8 * w.Size() + 1 && trace[0] == old(elev[..]) && trace[8 * w.Size()] == elev[..]
      ensures forall i :: 0 <= i < 8 * w.Size() ==> Blow(trace[i], trace[i + 1])
    {
      hide Rows, OnMap, PosOf, TerrainOk, Bfs.ExactDistance, Bfs.Shape, IsMultiple, Bfs.ExactTag, Sides, NoneCrossed,
           IsBlow;
      ghost var e0 := elev[..];
      NoneCrossedStays(own[..], e0);
      TerrainOwners(w, Terrain(), nc + ni);
      LandIsSect(w, Terrain());
      InitDistanceToCoast();
      trace := [e0];
      var iterations := w.Size() * 8;
      for i := 0 to iterations
        invariant SidesOk() && NoneCrossed(own[..], e0, elev[..]) && Bfs.Shape(w, FieldNow())
        invariant Bfs.ExactDistance(w, Coast.CoastSources(w, own[..], nc + ni), distance[..])
        invariant |trace| == i + 1 && trace[0] == e0 && trace[i] == elev[..]
        invariant forall k :: 0 <= k < i ==> Blow(trace[k], trace[k + 1])
      {
        ghost var e := elev[..];
        ghost var o, r := Strike();
        NoneCrossedJoins(own[..], e0, e, elev[..]);
        assert Blow(e, elev[..]);
        trace := trace + [elev[..]];
      }
    }

    /** Some blow, of a radius that may be rolled for its centre, turns one elevation into the other. */
    ghost predicate Blow(before: seq<int>, after: seq<int>)
      requires Ready()
      reads own, distance
    {
      exists o, r :: IsBlow(before, after, o, r)
    }

    ghost predicate IsBlow(before: seq<int>, after: seq<int>, o: int, r: int)
      requires Ready()
      reads own, distance
    {
      1 <= r <= 4 && 0 <= o < w.Size() == |before| && (r == 1 || r <= Roll(own[o] != SEA, distance[o]))
      && Struck(w, own[..], before, after, o, r) && after == Blown(w, before, o, r, own[o] != SEA, r)
    }

    /** Writes heights to sectors given in ascending order: first the plains, then the mountains. */
    method SetHeights(offs: seq<int>, plain: nat, maxNm: int)
      requires Ready() && plain <= |offs| && Bfs.Distinct(offs)
      requires forall k :: 0 <= k < |offs| ==> 0 <= offs[k] < w.Size()
      modifies elev
      ensures forall k :: 0 <= k < |offs| ==> elev[offs[k]] == Height(plain, maxNm, k)
      ensures forall v :: 0 <= v < w.Size() && v !in offs ==> elev[v] == old(elev[v])
    {
      hide Rows, IsMultiple, Unaliased, Params;
      var delta := 96.0 / AtLeastOne(plain) as real;
      var elevation := LANDMIN as real;
      for i := 0 to plain
        invariant elevation == LANDMIN as real + Steps(delta, i)
        invariant forall k :: 0 <= k < i ==> elev[offs[k]] == Height(plain, maxNm, k)
        invariant forall v :: 0 <= v < w.Size() && v !in offs ==> elev[v] == old(elev[v])
      {
        elev[offs[i]] := (elevation + 0.5).Floor;
        elevation := elevation + delta;
      }
      var mountainDelta := 29.0 / AtLeastOne(maxNm) as real;
      elevation := HIGHMIN as real;
      for i := plain to |offs|
        invariant elevation == HIGHMIN as real + Steps(mountainDelta, i - plain)
        invariant forall k :: 0 <= k < i ==> elev[offs[k]] == Height(plain, maxNm, k)
        invariant forall v :: 0 <= v < w.Size() && v !in offs ==> elev[v] == old(elev[v])
      {
        elevation := elevation + mountainDelta;
        elev[offs[i]] := (elevation + 0.5).Floor;
      }
    }

    /** The offsets of the sectors of a landmass from the i0-th on. */
    method CollectOffs(c: int, i0: nat) returns (offs: seq<int>)
      requires Ready() && TerrainOk(w, Terrain()) && 0 <= c < |sect| && i0 <= |sect[c]|
      ensures |offs| == |sect[c]| - i0
      ensures forall k :: 0 <= k < |offs| ==> offs[k] == Off(w, sect[c][i0 + k]) && 0 <= offs[k] < w.Size()
      ensures forall k :: 0 <= k < |offs| ==> own[offs[k]] == c
      ensures Bfs.Distinct(offs)
    {
      hide Rows, IsMultiple, Unaliased, OnMap, PosOf, Off, TerrainOk;
      offs := [];
      for i := i0 to |sect[c]|
        invariant |offs| == i - i0
        invariant forall k :: 0 <= k < |offs| ==> offs[k] == Off(w, sect[c][i0 + k]) && 0 <= offs[k] < w.Size()
        invariant forall k :: 0 <= k < |offs| ==> own[offs[k]] == c
      {
        ListedAt(w, Terrain(), c, i);
        offs := offs + [Off(w, sect[c][i])];
      }
      forall j, k | 0 <= j < k < |offs|
        ensures offs[j] != offs[k]
      {
        ListedApart(w, Terrain(), c, i0 + j, i0 + k);
      }
    }

    /** Raises the first i0 sectors of a landmass to the plateau. */
    method Plateau(c: int, i0: nat)
      requires Ready() && TerrainOk(w, Terrain()) && 0 <= c < |sect| && i0 <= |sect[c]|
      modifies elev
      ensures forall i :: 0 <= i < i0 ==> 0 <= Off(w, sect[c][i]) < w.Size() && elev[Off(w, sect[c][i])] == PLATMIN
      ensures forall v :: 0 <= v < w.Size() && (forall i :: 0 <= i < i0 ==> v != Off(w, sect[c][i])) ==>
                elev[v] == old(elev[v])
    {
      hide Rows, IsMultiple, OnMap, PosOf, Off, TerrainOk;
      for i := 0 to i0
        invariant forall k :: 0 <= k < i ==> 0 <= Off(w, sect[c][k]) < w.Size() && elev[Off(w, sect[c][k])] == PLATMIN
        invariant forall v :: 0 <= v < w.Size() && (forall k :: 0 <= k < i ==> v != Off(w, sect[c][k])) ==>
                    elev[v] == old(elev[v])
      {
        ListedAt(w, Terrain(), c, i);
        elev[Off(w, sect[c][i])] := PLATMIN;
      }
    }

    ghost function PlateauSize(c: int): nat {
      if c < nc then 2 else 0
    }

    /** How many of a landmass's sectors beyond the plateau stay plains. */
    function Plain(c: int): nat
      requires Ready() && 0 <= c < |sect|
      reads this
    {
      var n := |sect[c]| - if c < nc then 2 else 0;
      var nm := Percent(pm, |sect[c]|);
      if n > nm then n - nm else 0
    }

    function MaxMountains(): nat
      requires Params()
    {
      Percent(pm, if sc > islandSize * 2 then sc else islandSize * 2)
    }

    /** No landmass is larger than was asked for, and every continent has its capital's sectors. */
    ghost predicate SizesOk()
      requires |sect| == nc + ni
      reads this
    {
      forall c :: 0 <= c < nc + ni ==>
        PlateauSize(c) <= |sect[c]| <= if sc > islandSize * 2 then sc else islandSize * 2
    }

    /** `order` lists the sectors of a landmass beyond its plateau from low to high. */
    ghost predicate Ordered(c: int, before: seq<int>, order: seq<int>)
      requires Ready() && 0 <= c < |sect|
      reads this, own
    {
      |before| == w.Size() && InElev(before, order) && SortedByElev(before, order) && Bfs.Distinct(order)
      && |order| == |sect[c]| - PlateauSize(c)
      && forall k :: 0 <= k < |order| ==> own[order[k]] == c
    }

    /** Gives the sectors of one landmass their heights: the plateau first, then the others by the
        order of the random walk, the given share of them as mountains. */
    method ElevateIsland(c: int) returns (ghost order: seq<int>)
      requires Ready() && TerrainOk(w, Terrain()) && |sect| == nc + ni && SizesOk() && 0 <= c < nc + ni
      modifies elev
      ensures forall v :: 0 <= v < w.Size() && own[v] != c ==> elev[v] == old(elev[v])
      ensures forall v :: 0 <= v < w.Size() && own[v] == c ==> LANDMIN <= elev[v] <= 127
      ensures Ordered(c, old(elev[..]), order)
      ensures forall k :: 0 <= k < |order| ==> elev[order[k]] == Height(Plain(c), MaxMountains(), k)
      ensures forall i :: 0 <= i < PlateauSize(c) ==> elev[Off(w, sect[c][i])] == PLATMIN
    {
      hide Rows, IsMultiple, OnMap, PosOf, Off, TerrainOk, Percent, Height, SortedByElev, Plain, MaxMountains;
      ghost var before := elev[..];
      var i0 := if c < nc then 2 else 0;
      PlateauOwned(c);
      Plateau(c, i0);
      var offs := CollectOffs(c, i0);
      var sorted := SortByElev(elev[..], offs);
      SortedDistinct(elev[..], offs);
      order := sorted;
      PlateauApart(c, i0, before, elev[..], offs, sorted);
      PlainFits(c, |sorted|);
      SetHeights(sorted, Plain(c), MaxMountains());
    }

    lemma {:induction false} PlateauOwned(c: int)
      requires Ready() && TerrainOk(w, Terrain()) && 0 <= c < |sect| && PlateauSize(c) <= |sect[c]|
      ensures forall i :: 0 <= i < PlateauSize(c) ==> 0 <= Off(w, sect[c][i]) < w.Size() && own[Off(w, sect[c][i])] == c
    {
      hide Rows, IsMultiple, OnMap, PosOf, Off, TerrainOk;
      forall i | 0 <= i < PlateauSize(c)
        ensures 0 <= Off(w, sect[c][i]) < w.Size() && own[Off(w, sect[c][i])] == c
      {
        ListedAt(w, Terrain(), c, i);
      }
    }

    /** There are not too many mountains for their heights to be within bounds. */
    lemma {:induction false} PlainFits(c: int, n: int)
      requires Ready() && |sect| == nc + ni && SizesOk() && 0 <= c < nc + ni && n == |sect[c]| - PlateauSize(c)
      ensures Plain(c) <= n
      ensures forall k :: 0 <= k < n ==> LANDMIN <= Height(Plain(c), MaxMountains(), k) <= 127
      ensures forall k :: 0 <= k < n ==> (Height(Plain(c), MaxMountains(), k) >= HIGHMIN <==> k >= Plain(c))
    {
      hide Rows, IsMultiple, Percent, Height, Unaliased, Sizes;
      PercentMono(pm, |sect[c]|, if sc > islandSize * 2 then sc else islandSize * 2);
      forall k | 0 <= k < n
        ensures LANDMIN <= Height(Plain(c), MaxMountains(), k) <= 127
        ensures Height(Plain(c), MaxMountains(), k) >= HIGHMIN <==> k >= Plain(c)
      {
        HeightBounds(Plain(c), MaxMountains(), k);
      }
    }

    /** The plateau is not among the sectors that are sorted, and so does not change their order. */
    lemma {:induction false} PlateauApart(c: int, i0: nat, before: seq<int>, after: seq<int>, offs: seq<int>,
                                          order: seq<int>)
      requires Ready() && TerrainOk(w, Terrain()) && 0 <= c < |sect| && i0 == PlateauSize(c) <= |sect[c]|
      requires |before| == |after| == w.Size() && InElev(after, order) && SortedByElev(after, order)
               && Bfs.Distinct(order)
      requires |offs| == |order| == |sect[c]| - i0 && forall v :: v in order <==> v in offs
      requires forall k :: 0 <= k < |offs| ==> offs[k] == Off(w, sect[c][i0 + k]) && 0 <= offs[k] < w.Size()
      requires forall k :: 0 <= k < |offs| ==> own[offs[k]] == c
      requires forall v :: 0 <= v < w.Size() && (forall i :: 0 <= i < i0 ==> v != Off(w, sect[c][i])) ==>
               after[v] == before[v]
      ensures Ordered(c, before, order)
      ensures forall i :: 0 <= i < i0 ==> Off(w, sect[c][i]) !in order
      ensures forall v :: 0 <= v < w.Size() && own[v] == c ==>
                v in order || exists i :: 0 <= i < i0 && v == Off(w, sect[c][i])
    {
      hide Rows, IsMultiple, OnMap, PosOf, Off, TerrainOk;
      forall i | 0 <= i < i0
        ensures Off(w, sect[c][i]) !in offs
      {
        forall k | 0 <= k < |offs|
          ensures offs[k] != Off(w, sect[c][i])
        {
          ListedApart(w, Terrain(), c, i, i0 + k);
        }
      }
      forall k | 0 <= k < |order|
        ensures 0 <= order[k] < w.Size() && own[order[k]] == c && after[order[k]] == before[order[k]]
      {
        assert order[k] in offs;
      }
      forall v | 0 <= v < w.Size() && own[v] == c
        ensures v in offs || exists i :: 0 <= i < i0 && v == Off(w, sect[c][i])
      {
        var i := ListedWhere(w, Terrain(), v);
        if i >= i0 {
          assert offs[i - i0] == v;
        }
      }
    }

    /** The sectors of landmass c beyond its plateau, ordered by the heights they had before, now have
        the heights that belong to their places. */
    ghost predicate Profiled(c: int, before: seq<int>, after: seq<int>)
      requires Ready() && 0 <= c < |sect|
      reads this, own
    {
      |after| == w.Size() && exists order :: ProfiledBy(c, before, after, order)
    }

    ghost predicate ProfiledBy(c: int, before: seq<int>, after: seq<int>, order: seq<int>)
      requires Ready() && 0 <= c < |sect| && |after| == w.Size()
      reads this, own
    {
      Ordered(c, before, order)
      && forall k :: 0 <= k < |order| ==> after[order[k]] == Height(Plain(c), MaxMountains(), k)
    }

    /** A profile depends only on the landmass's own sectors. */
    lemma {:induction false} ProfileKept(c: int, before: seq<int>, after: seq<int>, before': seq<int>, after': seq<int>)
      requires Ready() && 0 <= c < |sect| && Profiled(c, before, after)
      requires |before| == |before'| == |after'| == w.Size()
      requires forall v :: 0 <= v < w.Size() && own[v] == c ==> before'[v] == before[v] && after'[v] == after[v]
      ensures Profiled(c, before', after')
    {
      hide Rows, IsMultiple, Height, Plain, MaxMountains;
      var order :| ProfiledBy(c, before, after, order);
      assert ProfiledBy(c, before', after', order);
    }

    /** Afterwards every land sector has a height from 1 to 127, and on every landmass the higher
        sectors of the random walk are the higher ones still. */
    method ElevateLand()
      requires Ready() && TerrainOk(w, Terrain()) && |sect| == nc + ni && SizesOk()
      modifies elev
      ensures forall v :: 0 <= v < w.Size() && own[v] == SEA ==> elev[v] == old(elev[v])
      ensures forall v :: 0 <= v < w.Size() && own[v] != SEA ==> LANDMIN <= elev[v] <= 127
      ensures forall c :: 0 <= c < nc + ni ==> Profiled(c, old(elev[..]), elev[..])
    {
      LandIsSect(w, Terrain());
      TerrainOwners(w, Terrain(), nc + ni);
      hide Rows, IsMultiple, OnMap, PosOf, Off, TerrainOk, Height, Plain, MaxMountains, Ordered, Profiled;
      ghost var before := elev[..];
      for c := 0 to nc + ni
        invariant Elevated(c, before, elev[..])
      {
        ghost var here := elev[..];
        ghost var order := ElevateIsland(c);
        IslandProfiled(c, before, here, order);
        ElevatedNext(c, before, here, elev[..]);
      }
    }

    /** The first n landmasses have got their heights, and nothing else has changed. */
    ghost predicate Elevated(n: int, before: seq<int>, now: seq<int>)
      requires Ready() && 0 <= n <= |sect|
      reads this, own
    {
      |before| == |now| == w.Size()
      && (forall v :: 0 <= v < w.Size() && (own[v] == SEA || own[v] >= n) ==> now[v] == before[v])
      && (forall v :: 0 <= v < w.Size() && 0 <= own[v] < n ==> LANDMIN <= now[v] <= 127)
      && forall k :: 0 <= k < n ==> Profiled(k, before, now)
    }

    lemma {:induction false} ElevatedNext(c: int, before: seq<int>, here: seq<int>, now: seq<int>)
      requires Ready() && 0 <= c < |sect| && Elevated(c, before, here) && |now| == w.Size()
      requires forall v :: 0 <= v < w.Size() && own[v] != c ==> now[v] == here[v]
      requires forall v :: 0 <= v < w.Size() && own[v] == c ==> LANDMIN <= now[v] <= 127
      requires Profiled(c, before, now)
      ensures Elevated(c + 1, before, now)
    {
      hide Rows, IsMultiple, Profiled;
      forall k | 0 <= k < c
        ensures Profiled(k, before, now)
      {
        ProfileKept(k, before, here, before, now);
      }
    }

    lemma {:induction false} IslandProfiled(c: int, before: seq<int>, here: seq<int>, order: seq<int>)
      requires Ready() && 0 <= c < |sect| && |before| == |here| == w.Size()
      requires Elevated(c, before, here)
      requires Ordered(c, here, order)
      requires forall k :: 0 <= k < |order| ==> elev[order[k]] == Height(Plain(c), MaxMountains(), k)
      ensures Profiled(c, before, elev[..])
    {
      hide Rows, IsMultiple, Height, Plain, MaxMountains;
      assert ProfiledBy(c, here, elev[..], order);
      ProfileKept(c, here, elev[..], before, elev[..]);
    }

    /** The least height below zero, or zero. */
    method Deepest() returns (min: int)
      requires Ready()
      ensures IsDeepest(elev[..], min)
    {
      hide Rows, IsMultiple;
      min := 0;
      for i := 0 to elev.Length
        invariant min <= 0 && forall v :: 0 <= v < i ==> min <= elev[v] || elev[v] >= 0
        invariant min < 0 ==> exists v :: 0 <= v < i && elev[v] == min
      {
        if elev[i] < 0 && elev[i] < min {
          min := elev[i];
        }
      }
    }

    method ScaleDepths(min: int)
      requires Ready() && min < 0
      modifies elev
      ensures forall v :: 0 <= v < w.Size() ==>
                elev[v] == if old(elev[v]) < 0 then Depth(old(elev[v]), min) else old(elev[v])
    {
      hide Rows, IsMultiple, Unaliased, Params, Depth;
      for i := 0 to elev.Length
        invariant forall v :: i <= v < w.Size() ==> elev[v] == old(elev[v])
        invariant forall v :: 0 <= v < i ==> elev[v] == if old(elev[v]) < 0 then Depth(old(elev[v]), min)
                    else old(elev[v])
      {
        if elev[i] < 0 {
          elev[i] := Depth(elev[i], min);
        }
      }
    }

    /** Scales all depths in proportion, so that the deepest is -127; what is not below zero stays. */
    method ElevateSea() returns (ghost min: int)
      requires Ready()
      modifies elev
      ensures IsDeepest(old(elev[..]), min)
      ensures forall v :: 0 <= v < w.Size() ==>
                elev[v] == if old(elev[v]) < 0 then Depth(old(elev[v]), min) else old(elev[v])
      ensures forall v :: 0 <= v < w.Size() && old(elev[v]) < 0 ==> -127 <= elev[v] <= -1
      ensures min < 0 ==> exists v :: 0 <= v < w.Size() && elev[v] == -127
    {
      hide Rows, IsMultiple, Unaliased, Params, Depth;
      var deepest := Deepest();
      min := deepest;
      ghost var e0 := elev[..];
      if deepest >= 0 {
        return;
      }
      ScaleDepths(deepest);
      ghost var deep :| 0 <= deep < w.Size() && e0[deep] == min;
      forall v | 0 <= v < w.Size() && e0[v] < 0
        ensures -127 <= elev[v] <= -1
      {
        DepthBounds(e0[v], min);
      }
      DepthBounds(min, min);
      assert elev[deep] == -127;
    }

    /** Every slot is typed sea exactly when it is not land, and heights are within bounds. */
    ghost predicate Typed()
      requires Ready()
      reads own, elev
    {
      forall v :: 0 <= v < w.Size() ==>
        -127 <= elev[v] <= 127 && (TypeOf(elev[v]) == Sea <==> own[v] == SEA)
    }

    /** For any dice, a sector ends up typed sea exactly when no landmass owns it. */
    method CreateElevations()
      requires Ready() && TerrainOk(w, Terrain()) && |sect| == nc + ni && SizesOk()
      requires forall v :: 0 <= v < w.Size() ==> elev[v] == 0
      modifies closest, distance, bfsBuf, elev, this`bfsHead, this`bfsTail, this`queue
      ensures Typed()
    {
      hide Rows, IsMultiple, OnMap, PosOf, Off, TerrainOk, Profiled;
      ghost var trace := ElevatePrep();
      ElevateLand();
      ghost var deepest := ElevateSea();
    }

    // -------------------------------------------------------------------------------------------
    // Output
    // -------------------------------------------------------------------------------------------

    /** The character of a sector on the printed map. */
    function MapChar(p: Pos): (ch: char)
      requires Ready() && OnMap(w, p) && IsSect(w, Off(w, p)) && own[Off(w, p)] < nc + ni
      reads own, elev, cap
    {
      var o := Off(w, p);
      var c := own[o];
      match TypeOf(elev[o])
      case Sea => '.'
      case Mountain => '^'
      case Wilderness =>
        if c < 0 then '.'
        else if c >= nc then '%'
        else if (p.x == cap[c].x || p.x == Wrap(cap[c].x + 2, w.wx)) && p.y == cap[c].y then
          NumLetter(c % 62)
        else '#'
    }

    /** The digits, then the small letters, then the capital letters. */
    static function NumLetter(k: int): char
      requires 0 <= k < 62
    {
      if k < 10 then ('0' as int + k) as char
      else if k < 36 then ('a' as int + (k - 10)) as char
      else ('A' as int + (k - 36)) as char
    }

    /** The map shows '.' exactly at sea: land pushed under water, or water raised by spill-over from
        the random walk, does not occur. */
    lemma {:induction false} MapShowsSea(p: Pos)
      requires Ready() && Typed() && OnMap(w, p) && IsSect(w, Off(w, p)) && SEA <= own[Off(w, p)] < nc + ni
      ensures MapChar(p) == '.' <==> own[Off(w, p)] == SEA
      ensures TypeOf(elev[Off(w, p)]) == Wilderness ==> own[Off(w, p)] >= 0
    {
      hide Rows, IsMultiple, OnMap, PosOf, Off, Wrap;
    }

    /** What is stored of one sector. */
    ghost predicate RecordOf(p: Pos, r: SectorRecord)
      requires Ready() && OnMap(w, p) && IsSect(w, Off(w, p))
      reads own, elev
    {
      var o := Off(w, p);
      r.uid == o && r.x == p.x && r.y == p.y && r.elev == elev[o]
      && r.sectorType == TypeOf(elev[o]) && (r.sectorType == Sea <==> own[o] == SEA)
      && (r.coastal <==> Coastal(w, own[..], o))
      && r.dterr == (own[o] + 1) % 256
      && r.resources == Resources.YieldAt(elev[o]) && r.resources.InRange()
    }

    /** Whether a stored sector is marked as coastal: never when it is sea. */
    method CoastFlag(p: Pos, st: SectorType) returns (coastal: bool)
      requires Ready() && TerrainOk(w, Terrain()) && OnMap(w, p) && IsSect(w, Off(w, p))
      requires st == Sea <==> own[Off(w, p)] == SEA
      ensures coastal <==> Coastal(w, own[..], Off(w, p))
    {
      hide Rows, IsMultiple, OnMap, PosOf, Off, TerrainOk, Coastal, Nb;
      coastal := false;
      if st != Sea {
        coastal := IsCoastal(p.x, p.y);
      } else {
        SeaNotCoastal(w, own[..], Off(w, p));
      }
    }

    lemma {:induction false} TypedAt(o: int)
      requires Ready() && Typed() && IsSect(w, o)
      ensures -127 <= elev[o] <= 127 && (TypeOf(elev[o]) == Sea <==> own[o] == SEA)
    {
      hide Rows, OnMap, PosOf, TypeOf;
    }

    method BuildSector(p: Pos) returns (r: SectorRecord)
      requires Ready() && TerrainOk(w, Terrain()) && |sect| == nc + ni && Typed()
      requires OnMap(w, p) && IsSect(w, Off(w, p))
      ensures RecordOf(p, r)
    {
      LandIsSect(w, Terrain());
      TypedAt(Off(w, p));
      hide Rows, IsMultiple, OnMap, PosOf, Off, TerrainOk, Coastal, Nb, Resources.YieldAt, TypeOf, Unaliased, Params,
           Typed;
      var o := Off(w, p);
      var e := elev[o];
      var st := TypeOf(e);
      var coastal := CoastFlag(p, st);
      r := SectorRecord(o, p.x, p.y, st, coastal, TerritoryOf(own[o]), Resources.Clamp(e, -128, 127),
                        Resources.YieldAt(e));
      hide Ready, Coastal, Resources.Clamp, TerritoryOf;
      InByte(e);
      OwnTerritory(own[o]);
    }

    static function TerritoryOf(owner: int): int {
      if owner >= 0 then (owner + 1) % 256 else 0
    }

    static lemma {:induction false} OwnTerritory(owner: int)
      requires owner >= SEA
      ensures TerritoryOf(owner) == (owner + 1) % 256
    {}

    static lemma {:induction false} InByte(e: int)
      requires -127 <= e <= 127
      ensures Resources.Clamp(e, -128, 127) == e
    {}

    /** The records made so far are those of the sectors in `met`, each once. */
    ghost predicate RecordsOf(out: seq<SectorRecord>, met: set<int>)
      requires Ready()
      reads own, elev
    {
      (forall i :: 0 <= i < |out| ==>
         OnMap(w, Pos(out[i].x, out[i].y)) && IsSect(w, Off(w, Pos(out[i].x, out[i].y)))
         && RecordOf(Pos(out[i].x, out[i].y), out[i]) && out[i].uid in met)
      && (forall i, j :: 0 <= i < j < |out| ==> out[i].uid != out[j].uid)
      && forall v :: v in met ==> exists i :: 0 <= i < |out| && out[i].uid == v
    }

    lemma {:induction false} RecordsNext(out: seq<SectorRecord>, met: set<int>, p: Pos, r: SectorRecord)
      requires Ready() && RecordsOf(out, met) && OnMap(w, p) && IsSect(w, Off(w, p)) && RecordOf(p, r)
      requires Off(w, p) !in met
      ensures RecordsOf(out + [r], met + {Off(w, p)})
    {
      hide Rows, IsMultiple, OnMap, PosOf, Off, RecordOf, Unaliased;
      assert r.uid == Off(w, p) && Pos(r.x, r.y) == p by {
        RecordKeys(p, r);
      }
      var out' := out + [r];
      forall v | v in met + {Off(w, p)}
        ensures exists i :: 0 <= i < |out'| && out'[i].uid == v
      {
        if v in met {
          var i :| 0 <= i < |out| && out[i].uid == v;
          assert out'[i].uid == v;
        } else {
          assert out'[|out|].uid == v;
        }
      }
    }

    lemma {:induction false} RecordKeys(p: Pos, r: SectorRecord)
      requires Ready() && OnMap(w, p) && IsSect(w, Off(w, p)) && RecordOf(p, r)
      ensures r.uid == Off(w, p) && Pos(r.x, r.y) == p
    {}

    /** One record for every sector, none twice. */
    method BuildSectors() returns (out: seq<SectorRecord>)
      requires Ready() && TerrainOk(w, Terrain()) && |sect| == nc + ni && Typed()
      ensures forall i :: 0 <= i < |out| ==>
                OnMap(w, Pos(out[i].x, out[i].y)) && IsSect(w, Off(w, Pos(out[i].x, out[i].y)))
                && RecordOf(Pos(out[i].x, out[i].y), out[i])
      ensures forall i, j :: 0 <= i < j < |out| ==> out[i].uid != out[j].uid
      ensures forall v :: IsSect(w, v) ==> exists i :: 0 <= i < |out| && out[i].uid == v
    {
      hide Rows, PosOf, Off, Nb, Unaliased, OnMap, TerrainOk, IsMultiple, RecordOf, Typed;
      out := [];
      ghost var met := Scanned(w, 0, 0);
      ScanStarts(w);
      for y := 0 to w.wy
        invariant met == Scanned(w, y, y % 2) && RecordsOf(out, met)
      {
        var x := y % 2;
        while x < w.wx
          invariant 0 <= x && (x + y) % 2 == 0 && met == Scanned(w, y, x) && RecordsOf(out, met)
        {
          ScanStep(w, y, x);
          var r := BuildSector(Pos(x, y));
          RecordsNext(out, met, Pos(x, y), r);
          out := out + [r];
          met := met + {Off(w, Pos(x, y))};
          x := x + 2;
        }
        ScanRow(w, y, x);
      }
      ScanEnds(w, w.wy % 2);
    }

    // -------------------------------------------------------------------------------------------
    // A whole run
    // -------------------------------------------------------------------------------------------

    /** The sizes that growing has given the landmasses are within bounds. */
    lemma {:induction false} GrownSizes(batch: seq<int>)
      requires Growing() && ContinentsHave(sc)
      requires |batch| == PerContinent() && BatchesAre(sect[nc..], nc, islandSize, batch)
      ensures SizesOk()
    {
      hide Rows, IsMultiple, OnMap, PosOf, Off, TerrainOk, Separated, Sum, SectorCount, PerContinent;
      forall c | nc <= c < nc + ni
        ensures |sect[c]| <= islandSize * 2
      {
        assert sect[nc..][c - nc] == sect[c];
        BatchesBound(sect[nc..], nc, islandSize, batch, c - nc);
      }
    }

    /** The islands have come in batches of these sizes, and what is missing is the carry. */
    ghost predicate Accounted(carry: int, batch: seq<int>)
      requires Ready() && |sect| == nc + ni
      reads this
    {
      |batch| == PerContinent() && BatchesAre(sect[nc..], nc, islandSize, batch)
      && carry >= 0 && SectorCount(sect[nc..]) == islandSize * ni - carry * nc
    }

    /** A world as it should be, and its records: every continent has its size and starts with its capital's
        two sectors; all landmasses are connected, disjoint and as far apart as was asked for; islands come
        in batches of one size, short of the target by exactly the carry; and every sector is stored once,
        as sea exactly if no landmass owns it. */
    ghost predicate Finished(out: seq<SectorRecord>)
      reads this, own, adjLand, elev, seen, isecs, cap
    {
      Growing() && ContinentsHave(sc) && Typed() && (exists carry, batch :: Accounted(carry, batch))
      && (forall i :: 0 <= i < |out| ==>
            OnMap(w, Pos(out[i].x, out[i].y)) && IsSect(w, Off(w, Pos(out[i].x, out[i].y)))
            && RecordOf(Pos(out[i].x, out[i].y), out[i]))
      && (forall i, j :: 0 <= i < j < |out| ==> out[i].uid != out[j].uid)
      && forall v :: IsSect(w, v) ==> exists i :: 0 <= i < |out| && out[i].uid == v
    }

    /** Why an attempt can fail: a continent has no room for its capital or to grow, or an island has no place. */
    ghost predicate Failed()
      requires Growing()
      reads this, own, adjLand, xzone, closest, distance, cap, isecs, seen
    {
      (exists c :: 0 <= c < nc && (Unstarted(c) || Stunted(c))) || SomeUnplaced()
    }

    /** An attempt has ended in failure. */
    ghost predicate GaveUp()
      reads this, own, adjLand, xzone, closest, distance, cap, isecs, seen
    {
      Growing() && Failed()
    }

    /** The world that was asked for. */
    ghost predicate Asked(w: World, nc: nat, sc: nat, ni: nat, islandSize: nat, sp: int, pm: int, di: int, id: int,
                          distinctIslands: bool)
    {
      this.w == w && this.nc == nc && this.sc == sc && this.ni == ni && this.islandSize == islandSize && this.sp == sp
      && this.pm == pm && this.di == di && this.id == id && this.distinctIslands == distinctIslands
    }

    /** One attempt at a world, for all dice. */
    method Generate() returns (ok: bool, out: seq<SectorRecord>)
      requires Ready() && Untouched() && 2 * nc <= w.Size()
      modifies own, adjLand, elev, xzone, seen, closest, distance, bfsBuf, cap, isecs, this
      ensures ok ==> Finished(out)
      ensures !ok ==> Growing() && Failed()
    {
      hide Rows, IsMultiple, OnMap, PosOf, Off, TerrainOk, Separated, Sum, SectorCount, PerContinent, BatchesAre,
           Typed, RecordOf, Unstarted, Stunted, SomeUnplaced;
      out := [];
      var stable, drifts, readings := Drift();
      ok := GrowContinents();
      if !ok {
        return;
      }
      var carry: int;
      ghost var batch;
      ok, carry, batch := GrowIslands();
      if !ok {
        return;
      }
      GrownSizes(batch);
      assert Accounted(carry, batch);
      CreateElevations();
      out := BuildSectors();
      assert Accounted(carry, batch);
    }
  }

  const NUM_TRIES := 10

  /** Attempts at a world until one succeeds. */
  method Create(w: World, nc: nat, sc: nat, ni: nat, islandSize: nat, sp: int, pm: int, di: int, id: int,
                distinctIslands: bool)
    returns (world: Fairland?, out: seq<SectorRecord>, ghost failures: seq<Fairland>)
    requires w.Valid() && nc >= 1 && sc >= 2 && IsMultiple(ni, nc) && islandSize >= 1 && 2 * nc <= w.Size()
    requires 0 <= sp <= 100 && 0 <= pm <= 100 && 0 <= di <= w.wx + w.wy && 0 <= id <= w.wx + w.wy
    ensures world != null ==> fresh(world) && world.Finished(out)
    ensures world != null ==> world.Asked(w, nc, sc, ni, islandSize, sp, pm, di, id, distinctIslands)
    ensures |failures| <= NUM_TRIES && (world == null ==> |failures| == NUM_TRIES)
    ensures (forall i, j :: 0 <= i < j < |failures| ==> failures[i] != failures[j]) && world !in failures
    ensures forall f :: f in failures ==> f.GaveUp()
    ensures forall f :: f in failures ==> f.Asked(w, nc, sc, ni, islandSize, sp, pm, di, id, distinctIslands)
  {
    assert NUM_TRIES >= 0;
    hide *;
    world, out, failures := null, [], [];
    for attempt := 0 to NUM_TRIES
      invariant |failures| == attempt && world == null
      invariant forall i, j :: 0 <= i < j < attempt ==> failures[i] != failures[j]
      invariant forall f :: f in failures ==> f.GaveUp()
      invariant forall f :: f in failures ==> f.Asked(w, nc, sc, ni, islandSize, sp, pm, di, id, distinctIslands)
    {
      var fl, ok, records := Attempt(w, nc, sc, ni, islandSize, sp, pm, di, id, distinctIslands);
      if ok {
        return fl, records, failures;
      }
      failures := failures + [fl];
    }
  }

  /** One attempt with a new generator. */
  method Attempt(w: World, nc: nat, sc: nat, ni: nat, islandSize: nat, sp: int, pm: int, di: int, id: int,
                 distinctIslands: bool)
    returns (fl: Fairland, ok: bool, out: seq<SectorRecord>)
    requires w.Valid() && nc >= 1 && sc >= 2 && IsMultiple(ni, nc) && islandSize >= 1 && 2 * nc <= w.Size()
    requires 0 <= sp <= 100 && 0 <= pm <= 100 && 0 <= di <= w.wx + w.wy && 0 <= id <= w.wx + w.wy
    ensures fresh(fl) && fl.Asked(w, nc, sc, ni, islandSize, sp, pm, di, id, distinctIslands)
    ensures if ok then fl.Finished(out) else fl.GaveUp()
  {
    fl := new Fairland(w, nc, sc, ni, islandSize, sp, pm, di, id, distinctIslands);
    ok, out := fl.Generate();
  }
}
