/** Where capitals are placed and how far apart they stay while they drift. */
module Capitals {
  import opened Hex
  import opened Grid

  const I32_MAX := 0x7FFF_FFFF

  /** Any two capitals are at least m apart. */
  ghost predicate Spread(w: World, cap: seq<Pos>, m: int)
    requires w.Valid()
  {
    forall i, j :: 0 <= i < |cap| && 0 <= j < |cap| && i != j ==> MapDist(w, cap[i], cap[j]) >= m
  }

  ghost predicate AllOnMap(w: World, cap: seq<Pos>) {
    forall i :: 0 <= i < |cap| ==> OnMap(w, cap[i])
  }

  /** d is the distance from p to the nearest capital other than j, or the largest 32-bit integer if
      there is no other. */
  ghost predicate IsIso(w: World, cap: seq<Pos>, j: int, p: Pos, d: int)
    requires w.Valid()
  {
    d <= I32_MAX
    && (forall i :: 0 <= i < |cap| && i != j ==> d <= MapDist(w, cap[i], p))
    && (d == I32_MAX || exists i :: 0 <= i < |cap| && i != j && d == MapDist(w, cap[i], p))
  }

  /** Moving a capital to where it is at least as isolated brings no two capitals closer than the
      closest ones were. */
  lemma {:induction false} MoveKeepsSpread(w: World, cap: seq<Pos>, j: int, p: Pos, before: int, after: int, m: int)
    requires w.Valid() && AllOnMap(w, cap) && 0 <= j < |cap| && OnMap(w, p)
    requires IsIso(w, cap, j, cap[j], before) && IsIso(w, cap, j, p, after) && after >= before
    requires Spread(w, cap, m) && m <= I32_MAX
    ensures Spread(w, cap[j := p], m) && AllOnMap(w, cap[j := p])
  {
    hide MapDist, OnMap;
    forall i | 0 <= i < |cap| && i != j
      ensures MapDist(w, cap[i], p) >= m && MapDist(w, p, cap[i]) >= m
    {
      DistBasics(w, cap[i], p);
      assert MapDist(w, cap[i], cap[j]) >= m;
    }
  }

  /** p is a worse place for capital j than q: nearer to the nearest other capital. */
  ghost predicate Worse(w: World, cap: seq<Pos>, j: int, p: Pos, q: Pos)
    requires w.Valid()
  {
    exists d, e :: IsIso(w, cap, j, p, d) && IsIso(w, cap, j, q, e) && d < e
  }

  /** p is no worse a place for capital j than q. */
  ghost predicate NoWorse(w: World, cap: seq<Pos>, j: int, p: Pos, q: Pos)
    requires w.Valid()
  {
    exists d, e :: IsIso(w, cap, j, p, d) && IsIso(w, cap, j, q, e) && d >= e
  }

  /** Capital j drifts: it moves by one step to a place no worse, or stays because all six are worse. */
  ghost predicate Drifted(w: World, cap: seq<Pos>, cap': seq<Pos>, j: int)
    requires w.Valid() && 0 <= j < |cap|
  {
    (cap' == cap && forall d :: 1 <= d <= 6 ==> Worse(w, cap, j, Step(w, cap[j], d), cap[j]))
    || exists d :: 1 <= d <= 6 && NoWorse(w, cap, j, Step(w, cap[j], d), cap[j]) && cap' == cap[j := Step(w, cap[j], d)]
  }

  /** Where all capitals are before, between and after their moves in one turn. */
  ghost predicate DriftTurn(w: World, steps: seq<seq<Pos>>, n: nat)
    requires w.Valid()
  {
    |steps| == n + 1 && (forall i :: 0 <= i <= n ==> |steps[i]| == n)
    && forall i :: 0 <= i < n ==> Drifted(w, steps[i], steps[i + 1], i)
  }

  /** A number of turns, each going on from where the one before ended. */
  ghost predicate DriftRun(w: World, start: seq<Pos>, turns: seq<seq<seq<Pos>>>, end: seq<Pos>)
    requires w.Valid()
  {
    (forall t :: 0 <= t < |turns| ==> DriftTurn(w, turns[t], |start|))
    && (forall t :: 0 <= t < |turns| ==> turns[t][0] == if t == 0 then start else turns[t - 1][|start|])
    && end == if turns == [] then start else turns[|turns| - 1][|start|]
  }

  /** From turn b + 1 on, the largest isolation is read before each turn. */
  ghost predicate AreReadings(w: World, turns: seq<seq<seq<Pos>>>, end: seq<Pos>, ds: seq<int>, b: nat)
    requires w.Valid()
  {
    (forall k :: 0 <= k < |turns| ==> turns[k] != []) && |ds| <= |turns| + 1
    && forall t :: b < t < |ds| ==> IsLargestIso(w, Before(turns, end, t), ds[t])
  }

  lemma {:induction false} ReadingsNext(w: World, turns: seq<seq<seq<Pos>>>, end: seq<Pos>, ds: seq<int>, b: nat,
                                        d: int)
    requires w.Valid() && AreReadings(w, turns, end, ds, b) && |ds| == |turns|
    requires |ds| > b ==> IsLargestIso(w, end, d)
    ensures AreReadings(w, turns, end, ds + [d], b)
  {
    hide IsLargestIso;
  }

  lemma {:induction false} ReadingsTurn(w: World, turns: seq<seq<seq<Pos>>>, end: seq<Pos>, ds: seq<int>, b: nat,
                                        turn: seq<seq<Pos>>, end': seq<Pos>)
    requires w.Valid() && AreReadings(w, turns, end, ds, b) && |ds| == |turns| + 1 && turn != [] && turn[0] == end
    ensures AreReadings(w, turns + [turn], end', ds, b)
  {
    hide IsLargestIso;
    forall t | b < t < |ds|
      ensures IsLargestIso(w, Before(turns + [turn], end', t), ds[t])
    {
      assert Before(turns + [turn], end', t) == Before(turns, end, t);
    }
  }

  lemma {:induction false} DriftRunNext(w: World, start: seq<Pos>, turns: seq<seq<seq<Pos>>>, end: seq<Pos>,
                                        turn: seq<seq<Pos>>)
    requires w.Valid() && DriftRun(w, start, turns, end) && DriftTurn(w, turn, |start|) && turn[0] == end
    ensures DriftRun(w, start, turns + [turn], turn[|start|])
  {
    hide Drifted;
  }

  /** d is the isolation of the most isolated capital. */
  ghost predicate IsLargestIso(w: World, cap: seq<Pos>, d: int)
    requires w.Valid()
  {
    (d == 0 || exists i :: 0 <= i < |cap| && IsIso(w, cap, i, cap[i], d))
    && forall i :: 0 <= i < |cap| ==> IsoAtMost(w, cap, i, d)
  }

  // ---------------------------------------------------------------------------------------------
  // When the drift is stable
  // ---------------------------------------------------------------------------------------------

  /** Half the world's circumference, in turns: before that, the drift is never stable. */
  function HalfRound(w: World): (b: nat)
    requires w.Valid()
  {
    (w.wx + w.wy) / 2
  }

  /** What is remembered of turn u: its reading, or where none was taken yet, up to turn b, the number of its
      place in the memory. */
  ghost function Reading(ds: seq<int>, u: int, b: nat): int
    requires u < |ds|
  {
    if u > b then ds[u] else u % 4
  }

  /** The reading of turn t is that of each of the four turns before. */
  ghost predicate Steady(ds: seq<int>, t: nat, b: nat)
    requires t < |ds|
  {
    t > b && Reading(ds, t - 1, b) == Reading(ds, t - 2, b) == Reading(ds, t - 3, b) == Reading(ds, t - 4, b) == ds[t]
  }

  /** The memory before turn t, of which the readings before are known. */
  ghost predicate Remembers(mem: seq<int>, ds: seq<int>, b: nat) {
    var t := |ds|;
    |mem| == 4 && mem[(t - 1) % 4] == Reading(ds, t - 1, b) && mem[(t - 2) % 4] == Reading(ds, t - 2, b)
    && mem[(t - 3) % 4] == Reading(ds, t - 3, b) && mem[(t - 4) % 4] == Reading(ds, t - 4, b)
  }

  lemma {:induction false} RemembersNothing(b: nat)
    ensures Remembers([0, 1, 2, 3], [], b)
  {}

  lemma {:induction false} ReadingStays(ds: seq<int>, d: int, u: int, b: nat)
    requires u < |ds|
    ensures Reading(ds + [d], u, b) == Reading(ds, u, b)
  {}

  /** The four turns before another have the four places in the memory. */
  lemma {:induction false} FourPlaces(t: nat)
    ensures (t + 1 - 1) % 4 == (t - 4) % 4 == t % 4
    ensures var r := t % 4;
            (t - 1) % 4 == (if r >= 1 then r - 1 else 3) && (t - 2) % 4 == (if r >= 2 then r - 2 else r + 2)
            && (t - 3) % 4 == (if r >= 3 then r - 3 else r + 1)
  {
    var q, r := t / 4, t % 4;
    RestIs(q - 1, r);
    RestIs(if r >= 1 then q else q - 1, if r >= 1 then r - 1 else 3);
    RestIs(if r >= 2 then q else q - 1, if r >= 2 then r - 2 else r + 2);
    RestIs(if r >= 3 then q else q - 1, if r >= 3 then r - 3 else r + 1);
  }

  lemma {:induction false} RestIs(q: int, r: int)
    requires 0 <= r < 4
    ensures (4 * q + r) % 4 == r
  {}

  /** A turn without a reading leaves the memory alone; a reading replaces the oldest. */
  lemma {:induction false} RemembersNext(mem: seq<int>, ds: seq<int>, b: nat, d: int)
    requires Remembers(mem, ds, b)
    ensures |ds| <= b ==> Remembers(mem, ds + [d], b)
    ensures |ds| > b ==> Remembers(mem[|ds| % 4 := d], ds + [d], b)
  {
    var t := |ds|;
    FourPlaces(t);
    ReadingStays(ds, d, t - 1, b);
    ReadingStays(ds, d, t - 2, b);
    ReadingStays(ds, d, t - 3, b);
    if t <= b {
      assert Reading(ds + [d], t, b) == t % 4 && Reading(ds, t - 4, b) == (t - 4) % 4;
    } else {
      assert Reading(ds + [d], t, b) == d;
    }
    hide Reading;
    assert (t + 1 - 2) == t - 1 && (t + 1 - 3) == t - 2 && (t + 1 - 4) == t - 3;
  }

  /** All that is remembered is the new reading exactly if the four readings before were. */
  lemma {:induction false} SteadyIff(mem: seq<int>, ds: seq<int>, b: nat, d: int)
    requires Remembers(mem, ds, b) && |ds| > b
    ensures mem == [d, d, d, d] <==> Steady(ds + [d], |ds|, b)
  {
    var t := |ds|;
    FourPlaces(t);
    ReadingStays(ds, d, t - 1, b);
    ReadingStays(ds, d, t - 2, b);
    ReadingStays(ds, d, t - 3, b);
    ReadingStays(ds, d, t - 4, b);
    hide Reading;
    assert mem == [mem[0], mem[1], mem[2], mem[3]];
  }

  /** A new reading does not change whether an earlier turn was steady. */
  lemma {:induction false} SteadyStays(ds: seq<int>, d: int, t: nat, b: nat)
    requires t < |ds|
    ensures Steady(ds + [d], t, b) <==> Steady(ds, t, b)
  {
  }

  /** Where the capitals are before turn t of a run. */
  ghost function Before(turns: seq<seq<seq<Pos>>>, end: seq<Pos>, t: nat): seq<Pos>
    requires t <= |turns| && forall k :: 0 <= k < |turns| ==> turns[k] != []
  {
    if t < |turns| then turns[t][0] else end
  }

  ghost predicate IsoAtMost(w: World, cap: seq<Pos>, i: int, d: int)
    requires w.Valid() && 0 <= i < |cap|
  {
    exists e :: IsIso(w, cap, i, cap[i], e) && e <= d
  }

  lemma {:induction false} EvenOffset(w: World, o: int)
    requires w.Valid() && o % 2 == 0
    ensures PosOf(w, o).x % 2 == 0
    decreases o
  {
    if o >= w.wx {
      SumParity(o - w.wx, w.wx, o - w.wx, 0);
      EvenOffset(w, o - w.wx);
    }
  }

  /** The i-th of the evenly spread starting positions. */
  function StartPos(w: World, i: nat): Pos
    requires w.Valid()
  {
    var p := PosOf(w, 2 * i);
    Pos(p.x + p.y % 2, p.y)
  }

  lemma {:induction false} StartPosOnMap(w: World, i: nat)
    requires w.Valid() && 2 * i < w.Size()
    ensures OnMap(w, StartPos(w, i))
  {
    hide PosOf, Rows;
    PosOfOff(w, 2 * i);
    EvenOffset(w, 2 * i);
    var p := PosOf(w, 2 * i);
    EvenPlusParity(p.x, p.y, w.wx);
  }

  lemma {:induction false} EvenPlusParity(x: int, y: int, n: int)
    requires x % 2 == 0 && n % 2 == 0 && x < n
    ensures x + y % 2 < n && (x + y % 2 + y) % 2 == 0
  {}

  lemma {:induction false} StartPosDistinct(w: World, i: nat, j: nat)
    requires w.Valid() && 2 * i < w.Size() && 2 * j < w.Size() && i != j
    ensures StartPos(w, i) != StartPos(w, j)
  {
    hide PosOf, Rows;
    PosOfOff(w, 2 * i);
    PosOfOff(w, 2 * j);
  }

  lemma {:induction false} DistinctIsSpread(w: World, cap: seq<Pos>)
    requires w.Valid() && AllOnMap(w, cap)
    ensures Spread(w, cap, 1) <==> forall i, j :: 0 <= i < j < |cap| ==> cap[i] != cap[j]
  {
    forall i, j | 0 <= i < |cap| && 0 <= j < |cap| && i != j
      ensures MapDist(w, cap[i], cap[j]) >= 1 <==> cap[i] != cap[j]
    {
      DistBasics(w, cap[i], cap[j]);
    }
    hide MapDist, OnMap;
    if Spread(w, cap, 1) {
      forall i, j | 0 <= i < j < |cap|
        ensures cap[i] != cap[j]
      {
        assert MapDist(w, cap[i], cap[j]) >= 1;
      }
    }
  }
}
