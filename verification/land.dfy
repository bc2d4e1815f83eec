/** Landmasses: what growing and shrinking them keeps, where their coasts lie, and how far apart
    exclusive zones hold them. */
module Land {
  import opened Hex
  import opened Grid

  const SEA := -1

  /** Direction bits of a sector that has land on all six sides. */
  const ALL_LAND: set<int> := {1, 2, 3, 4, 5, 6}

  /** Who owns each slot, on which sides each sector has land, and the sectors of each landmass in
      the order in which they were added. */
  datatype Terrain = Terrain(own: seq<int>, adj: seq<set<int>>, sect: seq<seq<Pos>>)

  ghost predicate Shape(w: World, t: Terrain)
    requires w.Valid()
  {
    |t.own| == w.Size() && |t.adj| == w.Size()
  }

  /** Owners and sector lists say the same: the lists are disjoint, without repetition, and
      together they are all the land there is. */
  ghost predicate Listed(w: World, t: Terrain)
    requires w.Valid() && Shape(w, t)
  {
    (forall c, i :: 0 <= c < |t.sect| && 0 <= i < |t.sect[c]| ==>
       OnMap(w, t.sect[c][i]) && IsSect(w, Off(w, t.sect[c][i])) && t.own[Off(w, t.sect[c][i])] == c)
    && (forall c, i, j :: 0 <= c < |t.sect| && 0 <= i < j < |t.sect[c]| ==> t.sect[c][i] != t.sect[c][j])
    && (forall v :: 0 <= v < w.Size() && t.own[v] != SEA ==>
          IsSect(w, v) && 0 <= t.own[v] < |t.sect| && PosOf(w, v) in t.sect[t.own[v]])
  }

  /** Bit d of a sector is set exactly when its neighbour in direction d is land. */
  ghost predicate AdjOk(w: World, t: Terrain)
    requires w.Valid() && Shape(w, t)
  {
    forall v, d :: IsSect(w, v) ==>
      (d in t.adj[v] <==> 1 <= d <= 6 && IsSect(w, Nb(w, v, d)) && t.own[Nb(w, v, d)] != SEA)
  }

  ghost predicate Adjoins(w: World, p: Pos, q: Pos)
    requires w.Valid()
  {
    exists d :: 1 <= d <= 6 && Step(w, p, d) == q
  }

  /** Every sector of a landmass but its first adjoins an earlier one. */
  ghost predicate Connected(w: World, t: Terrain)
    requires w.Valid()
  {
    forall c, i :: 0 <= c < |t.sect| && 0 < i < |t.sect[c]| ==> JoinsEarlier(w, t.sect[c], i)
  }

  ghost predicate JoinsEarlier(w: World, s: seq<Pos>, i: int)
    requires w.Valid() && 0 <= i < |s|
  {
    exists j :: 0 <= j < i && Adjoins(w, s[j], s[i])
  }

  ghost predicate TerrainOk(w: World, t: Terrain)
    requires w.Valid()
  {
    Shape(w, t) && Listed(w, t) && AdjOk(w, t) && Connected(w, t)
  }

  // ---------------------------------------------------------------------------------------------
  // Adding and removing a sector
  // ---------------------------------------------------------------------------------------------

  /** Only the bits that look at o have changed, and they now say `land`. */
  ghost predicate AdjSet(w: World, adj: seq<set<int>>, adj': seq<set<int>>, o: int, land: bool)
    requires w.Valid() && |adj| == |adj'| == w.Size()
  {
    forall v, d :: IsSect(w, v) ==>
      (d in adj'[v] <==> if 1 <= d <= 6 && Nb(w, v, d) == o then land else d in adj[v])
  }

  ghost predicate Added(w: World, t: Terrain, t': Terrain, c: int, p: Pos)
    requires w.Valid() && Shape(w, t) && Shape(w, t') && IsSect(w, Off(w, p)) && 0 <= c < |t.sect|
  {
    t'.own == t.own[Off(w, p) := c]
    && t'.sect == t.sect[c := t.sect[c] + [p]]
    && AdjSet(w, t.adj, t'.adj, Off(w, p), true)
  }

  lemma {:induction false} AdjGrows(w: World, adj: seq<set<int>>, adj': seq<set<int>>, o: int)
    requires w.Valid() && |adj| == |adj'| == w.Size() && AdjSet(w, adj, adj', o, true)
    ensures forall v :: IsSect(w, v) ==> adj[v] <= adj'[v]
  {
    hide OnMap, PosOf, Rows, Nb;
    forall v, d | IsSect(w, v) && d in adj[v]
      ensures d in adj'[v]
    {}
  }

  /** The last sector of landmass c is given back to the sea. */
  ghost predicate Undone(w: World, t: Terrain, t': Terrain, c: int)
    requires w.Valid() && Shape(w, t) && Shape(w, t') && 0 <= c < |t.sect| && |t.sect[c]| > 0
  {
    var n := |t.sect[c]| - 1;
    var o := Off(w, t.sect[c][n]);
    IsSect(w, o)
    && t'.own == t.own[o := SEA]
    && t'.sect == t.sect[c := t.sect[c][..n]]
    && AdjSet(w, t.adj, t'.adj, o, false)
  }

  lemma {:induction false} AddedListed(w: World, t: Terrain, t': Terrain, c: int, p: Pos)
    requires w.Valid() && TerrainOk(w, t) && Shape(w, t') && OnMap(w, p) && IsSect(w, Off(w, p))
    requires 0 <= c < |t.sect| && t.own[Off(w, p)] == SEA && Added(w, t, t', c, p)
    ensures Listed(w, t')
  {
    hide Nb, Wrap, OnMap, Added, AdjOk, Connected, Off, PosOf, Rows;
    OffOfPos(w, p);
    forall c', i | 0 <= c' < |t'.sect| && 0 <= i < |t'.sect[c']|
      ensures OnMap(w, t'.sect[c'][i]) && IsSect(w, Off(w, t'.sect[c'][i])) && 0 <= Off(w, t'.sect[c'][i]) < w.Size()
      ensures t'.own[Off(w, t'.sect[c'][i])] == c'
    {
      AddedListsOne(w, t, t', c, p, c', i);
    }
    forall c', i, j | 0 <= c' < |t'.sect| && 0 <= i < j < |t'.sect[c']|
      ensures t'.sect[c'][i] != t'.sect[c'][j]
    {
      AddedListsApart(w, t, t', c, p, c', i, j);
    }
    forall v | 0 <= v < w.Size() && t'.own[v] != SEA
      ensures IsSect(w, v) && 0 <= t'.own[v] < |t'.sect| && PosOf(w, v) in t'.sect[t'.own[v]]
    {
      AddedKeepsOther(w, t, t', c, p, v);
    }
  }

  lemma {:induction false} AddedListsApart(w: World, t: Terrain, t': Terrain, c: int, p: Pos, c': int, i: int, j: int)
    requires w.Valid() && Shape(w, t) && Listed(w, t) && Shape(w, t') && IsSect(w, Off(w, p))
    requires 0 <= c < |t.sect| && t.own[Off(w, p)] == SEA && Added(w, t, t', c, p)
    requires 0 <= c' < |t'.sect| && 0 <= i < j < |t'.sect[c']|
    ensures t'.sect[c'][i] != t'.sect[c'][j]
  {
    hide Nb, Wrap, OnMap, AdjSet, Off, PosOf, Rows;
    if c' == c && j == |t.sect[c]| {
      assert t.own[Off(w, t.sect[c][i])] == c;
    }
  }

  lemma {:induction false} AddedListsOne(w: World, t: Terrain, t': Terrain, c: int, p: Pos, c': int, i: int)
    requires w.Valid() && Shape(w, t) && Listed(w, t) && Shape(w, t') && OnMap(w, p) && IsSect(w, Off(w, p))
    requires 0 <= c < |t.sect| && t.own[Off(w, p)] == SEA && Added(w, t, t', c, p)
    requires 0 <= c' < |t'.sect| && 0 <= i < |t'.sect[c']|
    ensures OnMap(w, t'.sect[c'][i]) && IsSect(w, Off(w, t'.sect[c'][i]))
    ensures t'.own[Off(w, t'.sect[c'][i])] == c'
  {
    hide Nb, Wrap, OnMap, AdjSet, Off, PosOf, Rows;
    if c' == c && i == |t.sect[c]| {
      assert t'.sect[c'][i] == p;
    } else {
      assert t'.sect[c'][i] == t.sect[c'][i];
    }
  }

  lemma {:induction false} OwnerLists(w: World, t: Terrain, v: int)
    requires w.Valid() && Shape(w, t) && Listed(w, t) && 0 <= v < w.Size() && t.own[v] != SEA
    ensures IsSect(w, v) && 0 <= t.own[v] < |t.sect| && PosOf(w, v) in t.sect[t.own[v]]
  {
    hide OnMap, Off, PosOf, Rows, IsSect;
  }

  lemma {:induction false} StaysListed(lists: seq<seq<Pos>>, c: int, p: Pos, k: int, q: Pos)
    requires 0 <= c < |lists| && 0 <= k < |lists| && q in lists[k]
    ensures q in lists[c := lists[c] + [p]][k]
  {}

  lemma {:induction false} StaysListedBut(lists: seq<seq<Pos>>, c: int, k: int, q: Pos)
    requires 0 <= c < |lists| && |lists[c]| > 0 && 0 <= k < |lists| && q in lists[k]
    requires k == c ==> q != lists[c][|lists[c]| - 1]
    ensures q in lists[c := lists[c][..|lists[c]| - 1]][k]
  {
    var i :| 0 <= i < |lists[k]| && lists[k][i] == q;
    assert lists[c := lists[c][..|lists[c]| - 1]][k][i] == q;
  }

  lemma {:induction false} AddedKeepsOther(w: World, t: Terrain, t': Terrain, c: int, p: Pos, v: int)
    requires w.Valid() && Shape(w, t) && Listed(w, t) && Shape(w, t') && IsSect(w, Off(w, p))
    requires PosOf(w, Off(w, p)) == p
    requires 0 <= c < |t.sect| && Added(w, t, t', c, p)
    requires 0 <= v < w.Size() && t'.own[v] != SEA
    ensures IsSect(w, v) && 0 <= t'.own[v] < |t'.sect| && PosOf(w, v) in t'.sect[t'.own[v]]
  {
    hide Nb, Wrap, OnMap, AdjSet, Off, PosOf, Rows, Listed, IsSect;
    if v == Off(w, p) {
      assert t'.sect[c][|t.sect[c]|] == p;
    } else {
      OwnerLists(w, t, v);
      StaysListed(t.sect, c, p, t.own[v], PosOf(w, v));
    }
  }

  lemma {:induction false} JoinsPrefix(w: World, s: seq<Pos>, s': seq<Pos>, i: int)
    requires w.Valid() && 0 <= i < |s| && i < |s'| && JoinsEarlier(w, s, i)
    requires forall j :: 0 <= j <= i ==> s'[j] == s[j]
    ensures JoinsEarlier(w, s', i)
  {
    hide Adjoins;
    var j :| 0 <= j < i && Adjoins(w, s[j], s[i]);
    assert Adjoins(w, s'[j], s'[i]);
  }

  lemma {:induction false} AddedConnected(w: World, t: Terrain, t': Terrain, c: int, p: Pos)
    requires w.Valid() && Connected(w, t) && 0 <= c < |t.sect| && t'.sect == t.sect[c := t.sect[c] + [p]]
    requires t.sect[c] == [] || exists j :: 0 <= j < |t.sect[c]| && Adjoins(w, t.sect[c][j], p)
    ensures Connected(w, t')
  {
    hide Adjoins;
    forall c', i | 0 <= c' < |t'.sect| && 0 < i < |t'.sect[c']|
      ensures JoinsEarlier(w, t'.sect[c'], i)
    {
      if c' == c && i == |t.sect[c]| {
        var j :| 0 <= j < |t.sect[c]| && Adjoins(w, t.sect[c][j], p);
        assert Adjoins(w, t'.sect[c][j], t'.sect[c][i]);
      } else {
        JoinsPrefix(w, t.sect[c'], t'.sect[c'], i);
      }
    }
  }

  lemma {:induction false} AdjKeeps(w: World, t: Terrain, t': Terrain, o: int, c: int)
    requires w.Valid() && Shape(w, t) && Shape(w, t') && AdjOk(w, t) && IsSect(w, o)
    requires t'.own == t.own[o := c] && AdjSet(w, t.adj, t'.adj, o, c != SEA)
    ensures AdjOk(w, t')
  {
    hide Nb, OnMap, PosOf, Rows;
  }

  /** Adding a sea sector that adjoins the landmass (or starts it) keeps the terrain in order. */
  lemma {:induction false} AddKeeps(w: World, t: Terrain, t': Terrain, c: int, p: Pos)
    requires w.Valid() && TerrainOk(w, t) && Shape(w, t') && OnMap(w, p) && IsSect(w, Off(w, p))
    requires 0 <= c < |t.sect| && t.own[Off(w, p)] == SEA && Added(w, t, t', c, p)
    requires t.sect[c] == [] || exists j :: 0 <= j < |t.sect[c]| && Adjoins(w, t.sect[c][j], p)
    ensures TerrainOk(w, t')
  {
    hide Off, OnMap, PosOf, Rows, Listed, Connected, AdjOk, AdjSet;
    AddedListed(w, t, t', c, p);
    AddedConnected(w, t, t', c, p);
    AdjKeeps(w, t, t', Off(w, p), c);
  }

  /** Giving the last sector of a landmass back to the sea keeps the terrain in order. */
  lemma {:induction false} UndoKeeps(w: World, t: Terrain, t': Terrain, c: int)
    requires w.Valid() && TerrainOk(w, t) && Shape(w, t')
    requires 0 <= c < |t.sect| && |t.sect[c]| > 0 && Undone(w, t, t', c)
    ensures TerrainOk(w, t')
  {
    hide Off, OnMap, PosOf, Rows, Listed, AdjOk, AdjSet, JoinsEarlier;
    UndoneListed(w, t, t', c);
    var o := Off(w, t.sect[c][|t.sect[c]| - 1]);
    AdjKeeps(w, t, t', o, SEA);
    forall c', i | 0 <= c' < |t'.sect| && 0 < i < |t'.sect[c']|
      ensures JoinsEarlier(w, t'.sect[c'], i)
    {
      JoinsPrefix(w, t.sect[c'], t'.sect[c'], i);
    }
  }

  lemma {:induction false} UndoneListed(w: World, t: Terrain, t': Terrain, c: int)
    requires w.Valid() && TerrainOk(w, t) && Shape(w, t')
    requires 0 <= c < |t.sect| && |t.sect[c]| > 0 && Undone(w, t, t', c)
    ensures Listed(w, t')
  {
    hide Nb, Wrap, OnMap, AdjSet, AdjOk, Connected, Off, PosOf, Rows, Undone;
    forall c', i | 0 <= c' < |t'.sect| && 0 <= i < |t'.sect[c']|
      ensures OnMap(w, t'.sect[c'][i]) && IsSect(w, Off(w, t'.sect[c'][i])) && t'.own[Off(w, t'.sect[c'][i])] == c'
    {
      UndoneListsOne(w, t, t', c, c', i);
    }
    forall c', i, j | 0 <= c' < |t'.sect| && 0 <= i < j < |t'.sect[c']|
      ensures t'.sect[c'][i] != t'.sect[c'][j]
    {
      UndoneApart(w, t, t', c, c', i, j);
    }
    forall v | 0 <= v < w.Size() && t'.own[v] != SEA
      ensures IsSect(w, v) && 0 <= t'.own[v] < |t'.sect| && PosOf(w, v) in t'.sect[t'.own[v]]
    {
      UndoneKeepsOther(w, t, t', c, v);
    }
  }

  lemma {:induction false} UndoneApart(w: World, t: Terrain, t': Terrain, c: int, c': int, i: int, j: int)
    requires w.Valid() && Shape(w, t) && Listed(w, t) && Shape(w, t')
    requires 0 <= c < |t.sect| && |t.sect[c]| > 0 && Undone(w, t, t', c)
    requires 0 <= c' < |t'.sect| && 0 <= i < j < |t'.sect[c']|
    ensures t'.sect[c'][i] != t'.sect[c'][j]
  {
    hide Nb, Wrap, OnMap, AdjSet, Off, PosOf, Rows, IsSect;
    assert t'.sect[c'][i] == t.sect[c'][i] && t'.sect[c'][j] == t.sect[c'][j];
  }

  lemma {:induction false} UndoneListsOne(w: World, t: Terrain, t': Terrain, c: int, c': int, i: int)
    requires w.Valid() && Shape(w, t) && Listed(w, t) && Shape(w, t')
    requires 0 <= c < |t.sect| && |t.sect[c]| > 0 && Undone(w, t, t', c)
    requires 0 <= c' < |t'.sect| && 0 <= i < |t'.sect[c']|
    ensures OnMap(w, t'.sect[c'][i]) && IsSect(w, Off(w, t'.sect[c'][i]))
    ensures t'.own[Off(w, t'.sect[c'][i])] == c'
  {
    hide Nb, Wrap, OnMap, AdjSet, Off, PosOf, Rows;
    var p, q := t.sect[c][|t.sect[c]| - 1], t.sect[c'][i];
    assert t'.sect[c'][i] == q && t.own[Off(w, q)] == c';
    if q != p {
      OffDiffer(w, q, p);
    }
  }

  lemma {:induction false} UndoneKeepsOther(w: World, t: Terrain, t': Terrain, c: int, v: int)
    requires w.Valid() && Shape(w, t) && Listed(w, t) && Shape(w, t')
    requires 0 <= c < |t.sect| && |t.sect[c]| > 0 && Undone(w, t, t', c)
    requires 0 <= v < w.Size() && t'.own[v] != SEA
    ensures IsSect(w, v) && 0 <= t'.own[v] < |t'.sect| && PosOf(w, v) in t'.sect[t'.own[v]]
  {
    PosOfOff(w, v);
    hide Nb, Wrap, OnMap, AdjSet, Off, PosOf, Rows, IsSect, Listed;
    assert v != Off(w, t.sect[c][|t.sect[c]| - 1]) && t'.own[v] == t.own[v];
    OwnerLists(w, t, v);
    StaysListedBut(t.sect, c, t.own[v], PosOf(w, v));
  }

  lemma {:induction false} BitIsLand(w: World, t: Terrain, o: int, d: int)
    requires w.Valid() && TerrainOk(w, t) && IsSect(w, o) && 1 <= d <= 6
    ensures IsSect(w, Nb(w, o, d)) && (d in t.adj[o] <==> t.own[Nb(w, o, d)] != SEA)
  {
    NbIsSect(w, o, d);
    hide OnMap, PosOf, Rows, Nb, Listed, Connected;
  }

  lemma {:induction false} BitsAreDirections(w: World, t: Terrain, o: int)
    requires w.Valid() && TerrainOk(w, t) && IsSect(w, o)
    ensures t.adj[o] <= ALL_LAND && |t.adj[o]| <= 6 && (|t.adj[o]| == 6 ==> t.adj[o] == ALL_LAND)
  {
    hide OnMap, PosOf, Rows, Nb, Listed, Connected;
    forall d | d in t.adj[o]
      ensures d in ALL_LAND
    {
      assert 1 <= d <= 6;
    }
    SubsetCard(t.adj[o], ALL_LAND);
  }

  lemma {:induction false} SubsetCard(a: set<int>, b: set<int>)
    requires a <= b
    ensures |a| <= |b| && (|a| == |b| ==> a == b)
  {
    assert b == a + (b - a);
  }

  // ---------------------------------------------------------------------------------------------
  // Coasts
  // ---------------------------------------------------------------------------------------------

  /** v is land with sea on at least one side. */
  ghost predicate Coastal(w: World, own: seq<int>, v: int)
    requires w.Valid() && |own| == w.Size()
  {
    IsSect(w, v) && own[v] != SEA
    && exists d :: 1 <= d <= 6 && IsSect(w, Nb(w, v, d)) && own[Nb(w, v, d)] == SEA
  }

  lemma {:induction false} CoastalIffBits(w: World, t: Terrain, v: int)
    requires w.Valid() && Shape(w, t) && AdjOk(w, t) && IsSect(w, v) && t.own[v] != SEA
    ensures Coastal(w, t.own, v) <==> t.adj[v] != ALL_LAND
  {
    forall d | 1 <= d <= 6
      ensures IsSect(w, Nb(w, v, d))
    {
      NbIsSect(w, v, d);
    }
    hide Nb, OnMap, PosOf, Rows;
    if forall d :: 1 <= d <= 6 ==> d in t.adj[v] {
      assert forall d :: d in t.adj[v] <==> d in ALL_LAND;
    } else {
      var d :| 1 <= d <= 6 && d !in t.adj[v];
    }
  }

  lemma {:induction false} SeaNotCoastal(w: World, own: seq<int>, v: int)
    requires w.Valid() && |own| == w.Size() && IsSect(w, v) && own[v] == SEA
    ensures !Coastal(w, own, v)
  {}

  /** Between a sea sector v and any land u there is a coast at least as near to v as u is. */
  lemma {:induction false} CoastBeforeLand(w: World, own: seq<int>, v: int, u: int) returns (k: int)
    requires w.Valid() && |own| == w.Size() && IsSect(w, v) && IsSect(w, u)
    requires own[v] == SEA && own[u] != SEA
    ensures Coastal(w, own, k) && Dist(w, v, k) <= Dist(w, v, u)
    decreases Dist(w, v, u)
  {
    hide Nb, OnMap, PosOf, Rows, Dist;
    DistFacts(w, v, u);
    var d := Toward(w, v, u);
    var u' := Nb(w, u, d);
    DistFacts(w, v, u');
    if own[u'] == SEA {
      k := u;
    } else {
      k := CoastBeforeLand(w, own, v, u');
    }
  }

  /** From land v, a coast is nearer by one than any sea sector u. */
  lemma {:induction false} CoastBeforeSea(w: World, own: seq<int>, v: int, u: int) returns (k: int)
    requires w.Valid() && |own| == w.Size() && IsSect(w, v) && IsSect(w, u)
    requires own[v] != SEA && own[u] == SEA
    ensures Coastal(w, own, k) && Dist(w, v, k) <= Dist(w, v, u) - 1
    decreases Dist(w, v, u)
  {
    hide Nb, OnMap, PosOf, Rows, Dist;
    DistFacts(w, v, u);
    var d := Toward(w, v, u);
    var u' := Nb(w, u, d);
    NbIsSect(w, u, d);
    DistFacts(w, v, u');
    if own[u'] != SEA {
      k := u';
      assert own[Nb(w, u', DirBack(d))] == SEA;
    } else {
      k := CoastBeforeSea(w, own, v, u');
    }
  }

  // ---------------------------------------------------------------------------------------------
  // Exclusive zones
  // ---------------------------------------------------------------------------------------------

  const FREE := -1
  const CONTESTED := -2

  /** The effect on a slot of lying in the zone of c. */
  function Mark(c: int, was: int): int {
    if was == FREE then c else if was != c then CONTESTED else was
  }

  /** Every sea sector within r of landmass c is closed to all other landmasses. */
  ghost predicate Guarded(w: World, own: seq<int>, zone: seq<int>, c: int, r: int)
    requires w.Valid() && |own| == |zone| == w.Size()
  {
    forall u, v :: IsSect(w, u) && IsSect(w, v) && own[u] == c && own[v] == SEA && Dist(w, u, v) <= r ==>
      zone[v] in {c, CONTESTED}
  }

  /** The zones after c has been marked around o with radius r. */
  ghost predicate Marked(w: World, zone: seq<int>, zone': seq<int>, c: int, o: int, r: int)
    requires w.Valid() && |zone| == |zone'| == w.Size()
  {
    forall v :: IsSect(w, v) ==>
      zone'[v] == if v == o then c else if Dist(w, o, v) <= r then Mark(c, zone[v]) else zone[v]
  }

  /** A sector open to c stays open to c when c's own zone grows. */
  lemma {:induction false} MarkedKeepsOpen(w: World, zone: seq<int>, zone': seq<int>, c: int, o: int, r: int, v: int)
    requires w.Valid() && |zone| == |zone'| == w.Size() && Marked(w, zone, zone', c, o, r)
    requires IsSect(w, v) && zone[v] in {c, FREE}
    ensures zone'[v] in {c, FREE}
  {
    hide OnMap, PosOf, Rows, Dist;
  }

  /** Halfway around the ring of radius r, with the sectors in `met` behind. */
  ghost predicate RingMarked(w: World, zone: seq<int>, zone': seq<int>, c: int, o: int, r: int, met: set<int>)
    requires w.Valid() && |zone| == |zone'| == w.Size()
  {
    (forall v :: v in met ==> IsSect(w, v) && Dist(w, o, v) <= r)
    && forall v :: IsSect(w, v) ==>
         zone'[v] == if v == o then c else if Dist(w, o, v) <= r - 1 || v in met then Mark(c, zone[v]) else zone[v]
  }

  lemma {:induction false} RingMarkOne(w: World, zone: seq<int>, zone': seq<int>, c: int, o: int, r: int,
                                       met: set<int>, v: int)
    requires w.Valid() && |zone| == |zone'| == w.Size() && RingMarked(w, zone, zone', c, o, r, met)
    requires IsSect(w, v) && Dist(w, o, v) <= r && c >= 0
    ensures RingMarked(w, zone, zone'[v := Mark(c, zone'[v])], c, o, r, met + {v})
  {
    hide OnMap, PosOf, Rows, Dist;
  }

  lemma {:induction false} AddGuards(w: World, own: seq<int>, zone: seq<int>, zone': seq<int>, c: int, o: int, r: int,
                                     c': int, r': int)
    requires w.Valid() && |own| == |zone| == |zone'| == w.Size()
    requires IsSect(w, o) && own[o] == SEA && c >= 0 && c' >= 0 && Marked(w, zone, zone', c, o, r)
    requires Guarded(w, own, zone, c', r')
    requires c' == c ==> r' <= r
    ensures Guarded(w, own[o := c], zone', c', r')
  {
    hide OnMap, PosOf, Rows, Dist;
  }

  /** A sector that the zones leave open to c is farther than r from every guarded other landmass. */
  lemma {:induction false} OpenIsApart(w: World, own: seq<int>, zone: seq<int>, c: int, o: int, c': int, r: int, u: int)
    requires w.Valid() && |own| == |zone| == w.Size() && IsSect(w, o) && IsSect(w, u)
    requires own[o] == SEA && c >= 0 && zone[o] in {c, FREE}
    requires Guarded(w, own, zone, c', r) && c' != c && c' >= 0 && own[u] == c'
    ensures Dist(w, u, o) > r
  {
    hide OnMap, PosOf, Rows, Dist;
  }

  /** The zones of radius r around the land sectors `from`, as seen from the sea: a sector is free
      if none of them is within r, it belongs to c if all those within r belong to c, and otherwise
      it is contested. */
  ghost predicate ZonesFrom(w: World, own: seq<int>, zone: seq<int>, from: set<int>, r: int)
    requires w.Valid() && |own| == |zone| == w.Size() && InRange(w, from)
  {
    forall v :: IsSect(w, v) && own[v] == SEA ==> ZoneAt(w, own, zone[v], from, r, v)
  }

  ghost predicate InRange(w: World, from: set<int>)
    requires w.Valid()
  {
    forall u :: u in from ==> IsSect(w, u)
  }

  ghost predicate ZoneAt(w: World, own: seq<int>, z: int, from: set<int>, r: int, v: int)
    requires w.Valid() && |own| == w.Size() && InRange(w, from)
  {
    if z == FREE then
      forall u :: u in from ==> Dist(w, u, v) > r
    else if z == CONTESTED then
      exists u, u' :: u in from && u' in from && own[u] != own[u'] && Dist(w, u, v) <= r && Dist(w, u', v) <= r
    else
      (exists u :: u in from && Dist(w, u, v) <= r)
      && forall u :: u in from && Dist(w, u, v) <= r ==> own[u] == z
  }

  lemma {:induction false} ZonesGrow(w: World, own: seq<int>, zone: seq<int>, zone': seq<int>, from: set<int>, r: int,
                                     o: int)
    requires w.Valid() && |own| == |zone| == |zone'| == w.Size() && InRange(w, from)
    requires ZonesFrom(w, own, zone, from, r) && IsSect(w, o) && own[o] >= 0
    requires forall u :: u in from ==> own[u] >= 0
    requires Marked(w, zone, zone', own[o], o, r)
    ensures InRange(w, from + {o}) && ZonesFrom(w, own, zone', from + {o}, r)
  {
    hide OnMap, PosOf, Rows, Dist, ZoneAt;
    forall v | IsSect(w, v) && own[v] == SEA
      ensures ZoneAt(w, own, zone'[v], from + {o}, r, v)
    {
      assert ZoneAt(w, own, zone[v], from, r, v);
      ZoneAtGrows(w, own, zone[v], from, r, v, o);
    }
  }

  /** A land sector among `from` is within r of one that was marked later, as landmasses are marked in turn. */
  ghost predicate Overlapped(w: World, own: seq<int>, from: set<int>, r: int, v: int)
    requires w.Valid() && |own| == w.Size() && InRange(w, from) && 0 <= v < w.Size()
  {
    exists u :: u in from && own[u] > own[v] && Dist(w, u, v) <= r
  }

  /** The zones as seen from the land: a sector among `from` belongs to its own landmass, unless a later one has
      contested it; other land is as the sea. */
  ghost predicate LandZones(w: World, own: seq<int>, zone: seq<int>, from: set<int>, r: int)
    requires w.Valid() && |own| == |zone| == w.Size() && InRange(w, from)
  {
    forall v :: IsSect(w, v) && own[v] >= 0 ==>
      if v in from then zone[v] == if Overlapped(w, own, from, r, v) then CONTESTED else own[v]
      else ZoneAt(w, own, zone[v], from, r, v)
  }

  lemma {:induction false} LandZonesGrow(w: World, own: seq<int>, zone: seq<int>, zone': seq<int>, from: set<int>,
                                         r: int, o: int)
    requires w.Valid() && |own| == |zone| == |zone'| == w.Size() && InRange(w, from)
    requires LandZones(w, own, zone, from, r) && IsSect(w, o) && own[o] >= 0
    requires forall u :: u in from ==> 0 <= own[u] <= own[o]
    requires Marked(w, zone, zone', own[o], o, r)
    ensures InRange(w, from + {o}) && LandZones(w, own, zone', from + {o}, r)
  {
    hide OnMap, PosOf, Rows, Dist, ZoneAt;
    var from' := from + {o};
    forall v | IsSect(w, v) && own[v] >= 0
      ensures if v in from' then zone'[v] == if Overlapped(w, own, from', r, v) then CONTESTED else own[v]
              else ZoneAt(w, own, zone'[v], from', r, v)
    {
      if v in from' {
        assert o in from' && forall u :: u in from' ==> u in from || u == o;
        if v != o && Overlapped(w, own, from, r, v) {
          var u :| u in from && own[u] > own[v] && Dist(w, u, v) <= r;
          assert u in from';
        }
      } else {
        ZoneAtGrows(w, own, zone[v], from, r, v, o);
      }
    }
  }

  /** The zones of the land in `from`, all of landmasses up to `top`. */
  ghost predicate Zoned(w: World, own: seq<int>, zone: seq<int>, from: set<int>, dist: int, top: int)
    requires w.Valid() && |own| == |zone| == w.Size()
  {
    InRange(w, from) && (forall u :: u in from ==> 0 <= own[u] <= top) && ZonesFrom(w, own, zone, from, dist)
    && LandZones(w, own, zone, from, dist)
  }

  lemma {:induction false} ZonedNext(w: World, own: seq<int>, zone: seq<int>, zone': seq<int>, from: set<int>, r: int,
                                     o: int)
    requires w.Valid() && |own| == |zone| == |zone'| == w.Size() && IsSect(w, o) && own[o] >= 0
    requires Zoned(w, own, zone, from, r, own[o]) && Marked(w, zone, zone', own[o], o, r)
    ensures Zoned(w, own, zone', from + {o}, r, own[o])
  {
    hide OnMap, PosOf, Rows, Dist, ZoneAt, ZonesFrom, LandZones, Marked, InRange;
    ZonesGrow(w, own, zone, zone', from, r, o);
    LandZonesGrow(w, own, zone, zone', from, r, o);
  }

  lemma {:induction false} ZoneAtGrows(w: World, own: seq<int>, z: int, from: set<int>, r: int, v: int, o: int)
    requires w.Valid() && |own| == w.Size() && InRange(w, from) && IsSect(w, o) && own[o] >= 0
    requires ZoneAt(w, own, z, from, r, v)
    requires forall u :: u in from ==> own[u] >= 0
    ensures ZoneAt(w, own, if Dist(w, o, v) <= r then Mark(own[o], z) else z, from + {o}, r, v)
  {
    hide OnMap, PosOf, Rows, Dist;
    var from' := from + {o};
    assert o in from';
    if z == CONTESTED {
      var u, u' :| u in from && u' in from && own[u] != own[u'] && Dist(w, u, v) <= r && Dist(w, u', v) <= r;
      assert u in from' && u' in from';
    } else if z != FREE {
      var u :| u in from && Dist(w, u, v) <= r;
      assert u in from';
    }
  }

  ghost function LandBelow(w: World, own: seq<int>, n: int): (s: set<int>)
    requires w.Valid() && |own| == w.Size()
    ensures InRange(w, s)
  {
    set u | 0 <= u < w.Size() && IsSect(w, u) && 0 <= own[u] < n
  }

  /** Exactly the zones of radius r of all landmasses below n. */
  ghost predicate ZonesExact(w: World, own: seq<int>, zone: seq<int>, n: int, r: int)
    requires w.Valid() && |own| == |zone| == w.Size()
  {
    ZonesFrom(w, own, zone, LandBelow(w, own, n), r)
  }

  lemma {:induction false} ZoneAtOther(w: World, own: seq<int>, own': seq<int>, z: int, from: set<int>, r: int, v: int)
    requires w.Valid() && |own| == |own'| == w.Size() && InRange(w, from)
    requires forall u :: u in from ==> own'[u] == own[u]
    requires ZoneAt(w, own, z, from, r, v)
    ensures ZoneAt(w, own', z, from, r, v)
  {
    hide OnMap, PosOf, Rows, Dist;
  }

  /** Marking the zone of a new sector with radius r keeps the zones exact. */
  lemma {:induction false} AddKeepsExact(w: World, own: seq<int>, zone: seq<int>, zone': seq<int>, n: int, r: int,
                                         c: int, o: int)
    requires w.Valid() && |own| == |zone| == |zone'| == w.Size() && ZonesExact(w, own, zone, n, r) && 0 <= c < n
    requires IsSect(w, o) && own[o] == SEA && Marked(w, zone, zone', c, o, r)
    ensures ZonesExact(w, own[o := c], zone', n, r)
  {
    hide OnMap, PosOf, Rows, Dist, ZoneAt;
    var own' := own[o := c];
    var from := LandBelow(w, own, n);
    assert LandBelow(w, own', n) == from + {o};
    forall v | IsSect(w, v) && own'[v] == SEA
      ensures ZoneAt(w, own', zone'[v], from + {o}, r, v)
    {
      assert ZoneAt(w, own, zone[v], from, r, v);
      ZoneAtOther(w, own, own', zone[v], from, r, v);
      ZoneAtGrows(w, own', zone[v], from, r, v, o);
    }
  }

  /** Without land all zones are free, for any radius. */
  lemma {:induction false} NoLandExact(w: World, own: seq<int>, zone: seq<int>, r: int, n: int, r': int)
    requires w.Valid() && |own| == |zone| == w.Size() && ZonesExact(w, own, zone, 0, r)
    requires forall v :: IsSect(w, v) ==> own[v] == SEA
    ensures ZonesExact(w, own, zone, n, r')
  {
    hide OnMap, PosOf, Rows, Dist;
    assert LandBelow(w, own, 0) == LandBelow(w, own, n) == {};
    forall v | IsSect(w, v)
      ensures ZoneAt(w, own, zone[v], {}, r', v)
    {
      assert ZoneAt(w, own, zone[v], {}, r, v);
    }
  }

  /** Whether the land and the zones leave a sector open to a landmass. */
  ghost predicate OpenTo(own: seq<int>, zone: seq<int>, k: int, v: int)
    requires 0 <= v < |own| && v < |zone|
  {
    own[v] == SEA && zone[v] in {k, FREE}
  }

  /** Landmass c has grown: no land has gone, and what was closed to another landmass still is. */
  ghost predicate Closes(w: World, own: seq<int>, zone: seq<int>, adj: seq<set<int>>, own': seq<int>, zone': seq<int>,
                         adj': seq<set<int>>, c: int)
    requires w.Valid() && |own| == |zone| == |adj| == |own'| == |zone'| == |adj'| == w.Size()
  {
    (forall v :: IsSect(w, v) ==> adj[v] <= adj'[v])
    && forall k, v :: k >= 0 && k != c && IsSect(w, v) && OpenTo(own', zone', k, v) ==> OpenTo(own, zone, k, v)
  }

  lemma {:induction false} AddCloses(w: World, own: seq<int>, zone: seq<int>, adj: seq<set<int>>, zone': seq<int>,
                                     adj': seq<set<int>>, c: int, o: int, r: int)
    requires w.Valid() && |own| == |zone| == |adj| == |zone'| == |adj'| == w.Size() && c >= 0 && IsSect(w, o)
    requires Marked(w, zone, zone', c, o, r) && AdjSet(w, adj, adj', o, true)
    ensures Closes(w, own, zone, adj, own[o := c], zone', adj', c)
  {
    AdjGrows(w, adj, adj', o);
    hide OnMap, PosOf, Rows, Dist, Nb, AdjSet;
  }

  lemma {:induction false} ClosesChain(w: World, a: Terrain, za: seq<int>, b: Terrain, zb: seq<int>, d: Terrain,
                                       zd: seq<int>, c: int)
    requires w.Valid() && Shape(w, a) && Shape(w, b) && Shape(w, d) && |za| == |zb| == |zd| == w.Size()
    requires Closes(w, a.own, za, a.adj, b.own, zb, b.adj, c) && Closes(w, b.own, zb, b.adj, d.own, zd, d.adj, c)
    ensures Closes(w, a.own, za, a.adj, d.own, zd, d.adj, c)
  {
    hide OnMap, PosOf, Rows, OpenTo;
  }

  /** Every sector beside the landmass k of sectors s that is open to it is enclosed by land. */
  ghost predicate Hemmed(w: World, own: seq<int>, zone: seq<int>, adj: seq<set<int>>, s: seq<Pos>, k: int)
    requires w.Valid() && |own| == |zone| == |adj| == w.Size()
  {
    forall p, j :: 0 <= j < |s| && OnMap(w, p) && IsSect(w, Off(w, p)) && OpenTo(own, zone, k, Off(w, p))
      && Adjoins(w, s[j], p)
      ==> adj[Off(w, p)] == ALL_LAND
  }

  /** While another landmass grows, a landmass that is hemmed in stays so. */
  lemma {:induction false} HemmedStays(w: World, t: Terrain, zone: seq<int>, t': Terrain, zone': seq<int>, s: seq<Pos>,
                                       k: int, c: int)
    requires w.Valid() && TerrainOk(w, t') && Shape(w, t') && Shape(w, t) && |zone| == |zone'| == w.Size() && k >= 0
             && k != c
    requires Closes(w, t.own, zone, t.adj, t'.own, zone', t'.adj, c) && Hemmed(w, t.own, zone, t.adj, s, k)
    ensures Hemmed(w, t'.own, zone', t'.adj, s, k)
  {
    hide OnMap, PosOf, Rows, Off, TerrainOk, Adjoins, OpenTo;
    forall p, j | 0 <= j < |s| && OnMap(w, p) && IsSect(w, Off(w, p)) && OpenTo(t'.own, zone', k, Off(w, p))
                  && Adjoins(w, s[j], p)
      ensures t'.adj[Off(w, p)] == ALL_LAND
    {
      assert OpenTo(t.own, zone, k, Off(w, p));
      BitsAreDirections(w, t', Off(w, p));
    }
  }

  ghost function SectSet(w: World, s: seq<Pos>): set<int> {
    set i | 0 <= i < |s| :: Off(w, s[i])
  }

  lemma {:induction false} ListedAt(w: World, t: Terrain, c: int, i: int)
    requires w.Valid() && TerrainOk(w, t) && 0 <= c < |t.sect| && 0 <= i < |t.sect[c]|
    ensures OnMap(w, t.sect[c][i]) && IsSect(w, Off(w, t.sect[c][i])) && t.own[Off(w, t.sect[c][i])] == c
  {
    hide OnMap, PosOf, Rows, Off, AdjOk, Connected;
  }

  lemma {:induction false} ListedApart(w: World, t: Terrain, c: int, i: int, j: int)
    requires w.Valid() && TerrainOk(w, t) && 0 <= c < |t.sect| && 0 <= i < j < |t.sect[c]|
    ensures Off(w, t.sect[c][i]) != Off(w, t.sect[c][j])
  {
    hide OnMap, PosOf, Rows, Off, AdjOk, Connected;
    OffDiffer(w, t.sect[c][i], t.sect[c][j]);
  }

  /** Every sector that c owns is in its list. */
  lemma {:induction false} ListedWhere(w: World, t: Terrain, v: int) returns (i: int)
    requires w.Valid() && TerrainOk(w, t) && 0 <= v < w.Size() && t.own[v] != SEA
    ensures 0 <= t.own[v] < |t.sect| && 0 <= i < |t.sect[t.own[v]]| && Off(w, t.sect[t.own[v]][i]) == v
  {
    PosOfOff(w, v);
    hide OnMap, PosOf, Rows, Off, AdjOk, Connected;
    i :| 0 <= i < |t.sect[t.own[v]]| && t.sect[t.own[v]][i] == PosOf(w, v);
  }

  lemma {:induction false} SectSetNext(w: World, s: seq<Pos>, i: int)
    requires 0 <= i < |s|
    ensures SectSet(w, s[..i + 1]) == SectSet(w, s[..i]) + {Off(w, s[i])}
  {
    hide Off;
    assert s[..i + 1] == s[..i] + [s[i]];
    forall o | o in SectSet(w, s[..i]) + {Off(w, s[i])}
      ensures o in SectSet(w, s[..i + 1])
    {
      if o == Off(w, s[i]) {
        assert o == Off(w, s[..i + 1][i]);
      } else {
        var k :| 0 <= k < i && o == Off(w, s[..i][k]);
        assert o == Off(w, s[..i + 1][k]);
      }
    }
    forall o | o in SectSet(w, s[..i + 1])
      ensures o in SectSet(w, s[..i]) + {Off(w, s[i])}
    {
      var k :| 0 <= k < i + 1 && o == Off(w, s[..i + 1][k]);
      if k < i {
        assert o == Off(w, s[..i][k]);
      }
    }
  }

  lemma {:induction false} SectSetHas(w: World, s: seq<Pos>, i: int)
    requires 0 <= i < |s|
    ensures Off(w, s[i]) in SectSet(w, s)
  {}

  lemma {:induction false} LandBelowNext(w: World, t: Terrain, c: int)
    requires w.Valid() && TerrainOk(w, t) && 0 <= c < |t.sect|
    ensures LandBelow(w, t.own, c + 1) == LandBelow(w, t.own, c) + SectSet(w, t.sect[c])
  {
    hide OnMap, PosOf, Rows, Off, AdjOk, Connected;
    forall u | u in LandBelow(w, t.own, c + 1)
      ensures u in LandBelow(w, t.own, c) + SectSet(w, t.sect[c])
    {
      if t.own[u] == c {
        var i :| 0 <= i < |t.sect[c]| && t.sect[c][i] == PosOf(w, u);
        PosOfOff(w, u);
      }
    }
  }

  lemma {:induction false} ExactGuards(w: World, own: seq<int>, zone: seq<int>, n: int, r: int, c: int)
    requires w.Valid() && |own| == |zone| == w.Size() && ZonesExact(w, own, zone, n, r) && 0 <= c < n
    ensures Guarded(w, own, zone, c, r)
  {
    hide OnMap, PosOf, Rows, Dist;
    forall u, v | IsSect(w, u) && IsSect(w, v) && own[u] == c && own[v] == SEA && Dist(w, u, v) <= r
      ensures zone[v] in {c, CONTESTED}
    {
      assert u in LandBelow(w, own, n);
      assert ZoneAt(w, own, zone[v], LandBelow(w, own, n), r, v);
    }
  }

  // ---------------------------------------------------------------------------------------------
  // How far apart landmasses are
  // ---------------------------------------------------------------------------------------------

  /** The distance that must lie between landmasses a and b: di between continents, id between an
      island and a continent, and id between islands that are to stay distinct. */
  function Gap(nc: int, di: int, id: int, distinct: bool, a: int, b: int): int {
    if a < nc && b < nc then di else if a < nc || b < nc || distinct then id else 0
  }

  ghost predicate Separated(w: World, own: seq<int>, nc: int, di: int, id: int, distinct: bool)
    requires w.Valid() && |own| == w.Size()
  {
    forall u, v :: IsSect(w, u) && IsSect(w, v) && own[u] != SEA && own[v] != SEA && own[u] != own[v] ==>
      Dist(w, u, v) > Gap(nc, di, id, distinct, own[u], own[v])
  }

  lemma {:induction false} AddSeparates(w: World, own: seq<int>, nc: int, di: int, id: int, distinct: bool, c: int,
                                        o: int)
    requires w.Valid() && |own| == w.Size() && IsSect(w, o) && own[o] == SEA
    requires Separated(w, own, nc, di, id, distinct)
    requires forall u :: IsSect(w, u) && own[u] != SEA && own[u] != c ==>
               Dist(w, u, o) > Gap(nc, di, id, distinct, own[u], c)
    ensures Separated(w, own[o := c], nc, di, id, distinct)
  {
    forall u | IsSect(w, u)
      ensures Dist(w, u, o) == Dist(w, o, u)
    {
      DistFacts(w, u, o);
    }
    hide OnMap, PosOf, Rows, Dist;
  }

  lemma {:induction false} RemoveSeparates(w: World, own: seq<int>, nc: int, di: int, id: int, distinct: bool, o: int)
    requires w.Valid() && |own| == w.Size() && IsSect(w, o)
    requires Separated(w, own, nc, di, id, distinct)
    ensures Separated(w, own[o := SEA], nc, di, id, distinct)
  {
    hide OnMap, PosOf, Rows, Dist;
  }

  // ---------------------------------------------------------------------------------------------
  // What adding a sector keeps, put together
  // ---------------------------------------------------------------------------------------------

  /** The zones guard the landmasses that must stay apart from the ones now being grown: while
      continents grow, every continent with radius di; while islands grow, every continent and, if
      islands are to stay distinct, every island with radius id. */
  ghost predicate ZonesGuard(w: World, own: seq<int>, zone: seq<int>, n: int, nc: int, di: int, id: int,
                             distinct: bool, islands: bool)
    requires w.Valid() && |own| == |zone| == w.Size()
  {
    AllGuarded(w, own, zone, if islands && distinct then n else nc, if islands then id else di)
  }

  ghost predicate AllGuarded(w: World, own: seq<int>, zone: seq<int>, n: int, r: int)
    requires w.Valid() && |own| == |zone| == w.Size()
  {
    forall c :: 0 <= c < n ==> Guarded(w, own, zone, c, r)
  }

  /** The radius with which a new sector of landmass c is marked. */
  function ZoneRadius(nc: int, di: int, id: int, distinct: bool, c: int): int {
    if c < nc then di else if distinct then id else 0
  }

  lemma {:induction false} AddKeepsZones(w: World, own: seq<int>, zone: seq<int>, zone': seq<int>, n: int,
                      nc: int, di: int, id: int, distinct: bool, c: int, o: int)
    requires w.Valid() && |own| == |zone| == |zone'| == w.Size() && 0 <= c < n
    requires ZonesGuard(w, own, zone, n, nc, di, id, distinct, c >= nc)
    requires IsSect(w, o) && own[o] == SEA
    requires Marked(w, zone, zone', c, o, ZoneRadius(nc, di, id, distinct, c))
    ensures ZonesGuard(w, own[o := c], zone', n, nc, di, id, distinct, c >= nc)
  {
    hide Marked, Guarded, OnMap, PosOf, Rows;
    var r := if c >= nc then id else di;
    var m := if c >= nc && distinct then n else nc;
    var own' := own[o := c];
    forall c' | 0 <= c' < m
      ensures Guarded(w, own', zone', c', r)
    {
      assert Guarded(w, own, zone, c', r);
      AddGuards(w, own, zone, zone', c, o, ZoneRadius(nc, di, id, distinct, c), c', r);
    }
  }

  ghost predicate OwnersBelow(w: World, own: seq<int>, n: int)
    requires w.Valid() && |own| == w.Size()
  {
    forall v :: IsSect(w, v) ==> SEA <= own[v] < n
  }

  /** A sector that its zone leaves open to c is apart from all other land. */
  lemma {:induction false} AddKeepsSeparated(w: World, own: seq<int>, zone: seq<int>, n: int,
                          nc: int, di: int, id: int, distinct: bool, c: int, o: int)
    requires w.Valid() && |own| == |zone| == w.Size() && 0 <= c < n && OwnersBelow(w, own, n)
    requires c < nc ==> OwnersBelow(w, own, nc)
    requires Separated(w, own, nc, di, id, distinct)
    requires ZonesGuard(w, own, zone, n, nc, di, id, distinct, c >= nc)
    requires IsSect(w, o) && own[o] == SEA && zone[o] in {c, FREE}
    ensures Separated(w, own[o := c], nc, di, id, distinct)
  {
    hide Guarded, OnMap, PosOf, Rows, Dist, Separated;
    forall u | IsSect(w, u) && own[u] != SEA && own[u] != c
      ensures Dist(w, u, o) > Gap(nc, di, id, distinct, own[u], c)
    {
      if own[u] < nc || (c >= nc && distinct) {
        var r := if c >= nc then id else di;
        assert Guarded(w, own, zone, own[u], r);
        OpenIsApart(w, own, zone, c, o, own[u], r, u);
      } else {
        DistFacts(w, u, o);
      }
    }
    AddSeparates(w, own, nc, di, id, distinct, c, o);
  }

  lemma {:induction false} TerrainOwners(w: World, t: Terrain, n: int)
    requires w.Valid() && TerrainOk(w, t) && 0 <= n <= |t.sect|
    requires forall c :: n <= c < |t.sect| ==> t.sect[c] == []
    ensures OwnersBelow(w, t.own, n)
  {
    hide OnMap, PosOf, Rows, Off, AdjOk, Connected;
  }

  lemma {:induction false} LandIsSect(w: World, t: Terrain)
    requires w.Valid() && TerrainOk(w, t)
    ensures forall v :: 0 <= v < w.Size() ==> SEA <= t.own[v] < |t.sect| && (t.own[v] != SEA ==> IsSect(w, v))
  {
    hide OnMap, PosOf, Rows, Off, AdjOk, Connected;
  }

  lemma {:induction false} ExactGuardsAll(w: World, own: seq<int>, zone: seq<int>, n: int, nc: int, di: int, id: int,
                                          distinct: bool, m: int)
    requires w.Valid() && |own| == |zone| == w.Size()
    requires ZonesExact(w, own, zone, n, id) && OwnersBelow(w, own, n)
    ensures ZonesGuard(w, own, zone, m, nc, di, id, distinct, true)
  {
    hide OnMap, PosOf, Rows, Dist, ZonesExact;
    var k := if distinct then m else nc;
    forall c | 0 <= c < k
      ensures Guarded(w, own, zone, c, id)
    {
      if c < n {
        ExactGuards(w, own, zone, n, id, c);
      }
    }
  }

  lemma {:induction false} NoLandNoZones(w: World, own: seq<int>, zone: seq<int>, n: int, nc: int, di: int, id: int,
                                         distinct: bool)
    requires w.Valid() && |own| == |zone| == w.Size()
    requires forall v :: IsSect(w, v) ==> own[v] == SEA
    ensures ZonesGuard(w, own, zone, n, nc, di, id, distinct, false) && Separated(w, own, nc, di, id, distinct)
  {
    hide OnMap, PosOf, Rows, Dist;
  }

  // ---------------------------------------------------------------------------------------------
  // Updating the direction bits around a sector, one direction at a time
  // ---------------------------------------------------------------------------------------------

  ghost predicate AdjSetBelow(w: World, adj: seq<set<int>>, adj': seq<set<int>>, o: int, land: bool, dir: int)
    requires w.Valid() && |adj| == |adj'| == w.Size()
  {
    forall v, d :: IsSect(w, v) ==> BitSet(w, adj[v], adj'[v], o, land, dir, v, d)
  }

  ghost predicate BitSet(w: World, bits: set<int>, bits': set<int>, o: int, land: bool, dir: int, v: int, d: int)
    requires w.Valid()
  {
    d in bits' <==> if 1 <= d <= 6 && Nb(w, v, d) == o && DirBack(d) < dir then land else d in bits
  }

  lemma {:induction false} AdjSetOne(w: World, adj: seq<set<int>>, adj': seq<set<int>>, o: int, land: bool, dir: int)
    requires w.Valid() && |adj| == |adj'| == w.Size() && IsSect(w, o) && 1 <= dir <= 6
    requires AdjSetBelow(w, adj, adj', o, land, dir) && IsSect(w, Nb(w, o, dir))
    ensures var no := Nb(w, o, dir);
            var bits := if land then adj'[no] + {DirBack(dir)} else adj'[no] - {DirBack(dir)};
            AdjSetBelow(w, adj, adj'[no := bits], o, land, dir + 1)
  {
    var no := Nb(w, o, dir);
    var bits := if land then adj'[no] + {DirBack(dir)} else adj'[no] - {DirBack(dir)};
    hide OnMap, PosOf, Rows, Nb;
    var adj'' := adj'[no := bits];
    var next := dir + 1;
    forall v, d | IsSect(w, v)
      ensures BitSet(w, adj[v], adj''[v], o, land, next, v, d)
    {
      assert BitSet(w, adj[v], adj'[v], o, land, dir, v, d);
      SameEdge(w, o, dir, v, d);
    }
  }

  /** The edge from v in direction d is the edge from o in direction dir, taken backwards, exactly
      if v is o's neighbour there and d points back. */
  lemma {:induction false} SameEdge(w: World, o: int, dir: int, v: int, d: int)
    requires w.Valid() && IsSect(w, o) && 1 <= dir <= 6 && IsSect(w, v)
    ensures v == Nb(w, o, dir) && d == DirBack(dir) <==> 1 <= d <= 6 && Nb(w, v, d) == o && DirBack(d) == dir
  {
    hide OnMap, PosOf, Rows, Nb;
    NbIsSect(w, o, dir);
    if 1 <= d <= 6 {
      NbIsSect(w, v, d);
    }
  }

  lemma {:induction false} AdjSetAll(w: World, adj: seq<set<int>>, adj': seq<set<int>>, o: int, land: bool)
    requires w.Valid() && |adj| == |adj'| == w.Size() && AdjSetBelow(w, adj, adj', o, land, 7)
    ensures AdjSet(w, adj, adj', o, land)
  {
    hide OnMap, PosOf, Rows, Nb;
    forall v, d | IsSect(w, v)
      ensures d in adj'[v] <==> if 1 <= d <= 6 && Nb(w, v, d) == o then land else d in adj[v]
    {
      assert BitSet(w, adj[v], adj'[v], o, land, 7, v, d);
    }
  }

  lemma {:induction false} AdjSetNone(w: World, adj: seq<set<int>>, o: int, land: bool)
    requires w.Valid() && |adj| == w.Size()
    ensures AdjSetBelow(w, adj, adj, o, land, 1)
  {
    hide OnMap, PosOf, Rows, Nb;
  }

  lemma {:induction false} EmptyTerrain(w: World, t: Terrain)
    requires w.Valid() && Shape(w, t)
    requires forall v :: 0 <= v < w.Size() ==> t.own[v] == SEA && t.adj[v] == {}
    requires forall c :: 0 <= c < |t.sect| ==> t.sect[c] == []
    ensures TerrainOk(w, t)
  {
    hide OnMap, PosOf, Rows, Nb, Off;
  }

  /** The right-hand neighbour of p is a sector of its own that adjoins p. */
  lemma {:induction false} CapitalPair(w: World, p: Pos)
    requires w.Valid() && OnMap(w, p)
    ensures var q := Pos(Wrap(p.x + 2, w.wx), p.y);
            q == Step(w, p, 2) && OnMap(w, q) && Adjoins(w, p, q)
            && IsSect(w, Off(w, p)) && IsSect(w, Off(w, q)) && Off(w, p) != Off(w, q)
  {
    assert Wrap(p.x + 2, w.wx) == if p.x + 2 < w.wx then p.x + 2 else p.x + 2 - w.wx;
    assert Step(w, p, 2) == Pos(Wrap(p.x + 2, w.wx), p.y);
    hide Step, OnMap, Off, PosOf;
    StepIsNb(w, p, 2);
    OffDiffer(w, p, Step(w, p, 2));
  }

  // ---------------------------------------------------------------------------------------------
  // Counting sectors
  // ---------------------------------------------------------------------------------------------

  function SectorCount(s: seq<seq<Pos>>): nat {
    if s == [] then 0 else SectorCount(s[..|s| - 1]) + |s[|s| - 1]|
  }

  lemma {:induction false} SectorCountConcat(a: seq<seq<Pos>>, b: seq<seq<Pos>>)
    ensures SectorCount(a + b) == SectorCount(a) + SectorCount(b)
  {
    if b == [] {
      assert a + b == a;
    } else {
      var b' := b[..|b| - 1];
      assert (a + b)[..|a + b| - 1] == a + b';
      SectorCountConcat(a, b');
    }
  }

  lemma {:induction false} SectorCountUniform(s: seq<seq<Pos>>, size: nat)
    requires forall k :: 0 <= k < |s| ==> |s[k]| == size
    ensures SectorCount(s) == Rows(size, |s|)
  {
    if s != [] {
      SectorCountUniform(s[..|s| - 1], size);
    }
  }
}
