/** The walk around a hexagonal ring, and what the rings of radius 1 to r cover. */
module Rings {
  import opened Hex
  import opened Grid

  /** Plane offset, from the centre, of the point `step` steps into side `dir` of the ring of
      radius n. Side 7 stands for the end of the walk. */
  function RingAt(n: int, dir: int, step: int): (int, int) {
    match dir
    case 1 => (-2 * n + step, -step)
    case 2 => (-n + 2 * step, -n)
    case 3 => (n + step, -n + step)
    case 4 => (2 * n - step, step)
    case 5 => (n - 2 * step, n)
    case 6 => (-n - step, n - step)
    case _ => (-2 * n, 0)
  }

  /** The (side, step) pair that follows in a walk around the ring of radius n. */
  function NextSide(n: int, dir: int, step: int): (int, int) {
    if step + 1 == n then (dir + 1, 0) else (dir, step + 1)
  }

  class HexagonIter {
    var dir: int
    var step: int
    const n: int

    ghost predicate Valid()
      reads this
    {
      n >= 1 && 1 <= dir <= 7 && 0 <= step < n && (dir == 7 ==> step == 0)
    }

    constructor (n: int)
      requires n >= 1
      ensures Valid() && this.n == n && dir == DIR_FIRST && step == 0
    {
      this.n := n;
      dir, step := DIR_FIRST, 0;
    }

    /** Moves one step around the ring; `more` is false when the ring is complete. A walk that is
        at its ring point with respect to some centre stays there. */
    method Advance(w: World, x: int, y: int, ghost c: Pos) returns (more: bool, x': int, y': int)
      requires w.Valid() && Valid() && dir <= DIR_LAST
      requires Pos(x, y) == Shift(w, c, RingAt(n, dir, step).0, RingAt(n, dir, step).1)
      modifies this
      ensures Valid() && (dir, step) == NextSide(n, old(dir), old(step))
      ensures Pos(x', y') == Shift(w, c, RingAt(n, dir, step).0, RingAt(n, dir, step).1)
      ensures more <==> dir <= DIR_LAST
    {
      var (dx, dy) := DirOff(dir);
      ShiftShift(w, c, RingAt(n, dir, step).0, RingAt(n, dir, step).1, dx, dy);
      x' := Wrap(x + dx, w.wx);
      y' := Wrap(y + dy, w.wy);
      step := step + 1;
      if step == n {
        step := 0;
        dir := dir + 1;
      }
      more := dir <= DIR_LAST;
    }
  }

  lemma {:induction false} RingAtLength(n: int, dir: int, step: int)
    requires n >= 1 && 1 <= dir <= 7 && 0 <= step < n
    ensures HexLen(Abs(RingAt(n, dir, step).0), Abs(RingAt(n, dir, step).1)) == n
    ensures (RingAt(n, dir, step).0 + RingAt(n, dir, step).1) % 2 == 0
  {}

  lemma {:induction false} RingCovers(n: int, a: int, b: int) returns (dir: int, step: int)
    requires n >= 1 && (a + b) % 2 == 0 && HexLen(Abs(a), Abs(b)) == n
    ensures 1 <= dir <= 6 && 0 <= step < n && RingAt(n, dir, step) == (a, b)
  {
    if b == -n && a < n {
      dir, step := 2, (a + n) / 2;
    } else if b == n && a > -n {
      dir, step := 5, (n - a) / 2;
    } else if a > 0 {
      if b < 0 { dir, step := 3, a - n; } else { dir, step := 4, b; }
    } else {
      if b > 0 { dir, step := 6, n - b; } else { dir, step := 1, -b; }
    }
  }

  /** (dir, step) after k advances from the start of a ring of radius n. */
  function SideAfter(n: int, k: nat): (int, int) {
    if k == 0 then (DIR_FIRST, 0) else NextSide(n, SideAfter(n, k - 1).0, SideAfter(n, k - 1).1)
  }

  lemma {:induction false} SideAfterIndex(n: int, k: nat)
    requires n >= 1 && k <= 6 * n
    ensures var (dir, step) := SideAfter(n, k);
            1 <= dir <= 7 && 0 <= step < n && n * (dir - 1) + step == k && (dir == 7 ==> step == 0)
  {
    if k > 0 {
      SideAfterIndex(n, k - 1);
      var (dir, step) := SideAfter(n, k - 1);
      assert n * dir == n * (dir - 1) + n;
    } else {
      assert n * 0 == 0;
    }
  }

  /** A ring of radius n takes exactly 6n steps and closes on the point it started from. */
  lemma {:induction false} RingClosesAfter6n(w: World, c: Pos, n: int)
    requires w.Valid() && n >= 1
    ensures forall k :: 0 <= k < 6 * n ==> SideAfter(n, k).0 <= DIR_LAST
    ensures SideAfter(n, 6 * n).0 == DIR_LAST + 1
    ensures var (d0, s0) := SideAfter(n, 0); var (d1, s1) := SideAfter(n, 6 * n);
            Shift(w, c, RingAt(n, d1, s1).0, RingAt(n, d1, s1).1)
            == Shift(w, c, RingAt(n, d0, s0).0, RingAt(n, d0, s0).1)
  {
    forall k | 0 <= k <= 6 * n
      ensures SideAfter(n, k).0 <= DIR_LAST <==> k < 6 * n
    {
      SideAfterIndex(n, k);
      var (dir, step) := SideAfter(n, k);
      if dir <= 6 {
        MulBigger(n, 6 - dir + 1);
        MulDistributes(n, 6, dir - 1);
      }
    }
    SideAfterIndex(n, 6 * n);
  }

  /** The point at (dir, step) of the ring of radius n around c. */
  function RingPos(w: World, c: Pos, n: int, dir: int, step: int): Pos
    requires w.Valid()
  {
    Shift(w, c, RingAt(n, dir, step).0, RingAt(n, dir, step).1)
  }

  /** Where a walk around a ring starts: 2n columns to the left. */
  lemma {:induction false} RingStart(w: World, c: Pos, n: int)
    requires w.Valid() && OnMap(w, c) && n >= 1
    ensures RingPos(w, c, n, 1, 0) == Pos(Wrap(c.x - 2 * n, w.wx), c.y)
  {
    ShiftZero(w, c);
  }

  lemma {:induction false} RingPosNear(w: World, c: Pos, n: int, dir: int, step: int)
    requires w.Valid() && OnMap(w, c) && n >= 1 && 1 <= dir <= 7 && 0 <= step < n
    ensures OnMap(w, RingPos(w, c, n, dir, step))
    ensures MapDist(w, c, RingPos(w, c, n, dir, step)) <= n
  {
    RingAtLength(n, dir, step);
    hide RingAt, MapDist, Shift, OnMap;
    ShiftOnMap(w, c, RingAt(n, dir, step).0, RingAt(n, dir, step).1);
    DistOfShift(w, c, RingAt(n, dir, step).0, RingAt(n, dir, step).1);
    assert RingPos(w, c, n, dir, step) == Shift(w, c, RingAt(n, dir, step).0, RingAt(n, dir, step).1);
  }

  lemma {:induction false} RingPosReaches(w: World, c: Pos, q: Pos) returns (dir: int, step: int)
    requires w.Valid() && OnMap(w, c) && OnMap(w, q) && c != q
    ensures MapDist(w, c, q) >= 1 && 1 <= dir <= 6 && 0 <= step < MapDist(w, c, q)
    ensures RingPos(w, c, MapDist(w, c, q), dir, step) == q
  {
    DistBasics(w, c, q);
    var a, b := OffsetOf(w, c, q);
    dir, step := RingCovers(MapDist(w, c, q), a, b);
  }

  /** q lies on one of the rings of radius 1 to r around c. */
  ghost predicate OnSomeRing(w: World, c: Pos, r: int, q: Pos)
    requires w.Valid()
  {
    exists n, dir, step :: 1 <= n <= r && 1 <= dir <= 6 && 0 <= step < n && RingPos(w, c, n, dir, step) == q
  }

  /** The rings of radius 1 to r together with the centre are exactly the sectors within distance
      r, however the rings wrap around the torus and overlap. */
  lemma {:induction false} RingsAreTheBall(w: World, c: Pos, r: int, q: Pos)
    requires w.Valid() && OnMap(w, c) && OnMap(w, q) && r >= 0
    ensures MapDist(w, c, q) <= r <==> q == c || OnSomeRing(w, c, r, q)
  {
    DistBasics(w, c, q);
    if MapDist(w, c, q) <= r && q != c {
      var dir, step := RingPosReaches(w, c, q);
    }
    if OnSomeRing(w, c, r, q) {
      var n, dir, step :| 1 <= n <= r && 1 <= dir <= 6 && 0 <= step < n && RingPos(w, c, n, dir, step) == q;
      RingPosNear(w, c, n, dir, step);
    }
  }

  // ---------------------------------------------------------------------------------------------
  // The sectors met on a walk around a ring, by offset
  // ---------------------------------------------------------------------------------------------

  function RingSect(w: World, c: Pos, n: int, dir: int, step: int): int
    requires w.Valid()
  {
    Off(w, RingPos(w, c, n, dir, step))
  }

  lemma {:induction false} RingSectNear(w: World, c: Pos, n: int, dir: int, step: int)
    requires w.Valid() && OnMap(w, c) && n >= 1 && 1 <= dir <= 7 && 0 <= step < n
    ensures IsSect(w, RingSect(w, c, n, dir, step)) && IsSect(w, Off(w, c))
    ensures Dist(w, Off(w, c), RingSect(w, c, n, dir, step)) <= n
  {
    hide RingPos, MapDist, OnMap, Off;
    RingPosNear(w, c, n, dir, step);
    OffOfPos(w, c);
    OffOfPos(w, RingPos(w, c, n, dir, step));
  }

  /** All points of the walk before (dir, step) are in `met`. */
  ghost predicate Walked(w: World, c: Pos, n: int, dir: int, step: int, met: set<int>)
    requires w.Valid()
  {
    forall k, s :: 1 <= k <= 6 && 0 <= s < n && (k < dir || (k == dir && s < step)) ==>
      RingSect(w, c, n, k, s) in met
  }

  lemma {:induction false} WalkedNext(w: World, c: Pos, n: int, dir: int, step: int, met: set<int>)
    requires w.Valid() && n >= 1 && 1 <= dir <= 6 && 0 <= step < n && Walked(w, c, n, dir, step, met)
    ensures Walked(w, c, n, NextSide(n, dir, step).0, NextSide(n, dir, step).1, met + {RingSect(w, c, n, dir, step)})
  {
    hide RingSect;
  }

  lemma {:induction false} WalkedAll(w: World, c: Pos, n: int, met: set<int>, v: int)
    requires w.Valid() && OnMap(w, c) && n >= 1 && Walked(w, c, n, 7, 0, met)
    requires IsSect(w, v) && Dist(w, Off(w, c), v) == n
    ensures v in met
  {
    hide RingPos, OnMap, Off, MapDist, PosOf;
    PosOfOff(w, v);
    OffOfPos(w, c);
    DistFacts(w, Off(w, c), v);
    assert Dist(w, Off(w, c), v) == MapDist(w, c, PosOf(w, v));
    var k, s := RingPosReaches(w, c, PosOf(w, v));
    assert RingSect(w, c, n, k, s) in met;
  }

  /** How often the walk before (dir, step) meets each sector. */
  ghost function RingTimes(w: World, c: Pos, n: int, dir: int, step: int): multiset<int>
    requires w.Valid() && n >= 1 && 1 <= dir <= 7 && 0 <= step < n
    decreases dir, step
  {
    if step > 0 then RingTimes(w, c, n, dir, step - 1) + multiset{RingSect(w, c, n, dir, step - 1)}
    else if dir > 1 then RingTimes(w, c, n, dir - 1, n - 1) + multiset{RingSect(w, c, n, dir - 1, n - 1)}
    else multiset{}
  }

  lemma {:induction false} RingTimesNext(w: World, c: Pos, n: int, dir: int, step: int)
    requires w.Valid() && n >= 1 && 1 <= dir <= 6 && 0 <= step < n
    ensures var (dir', step') := NextSide(n, dir, step);
            1 <= dir' <= 7 && 0 <= step' < n
            && RingTimes(w, c, n, dir', step') == RingTimes(w, c, n, dir, step) + multiset{RingSect(w, c, n, dir, step)}
  {
    hide RingSect;
  }
}
