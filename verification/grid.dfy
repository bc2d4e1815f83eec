/** Sectors named by their offset into the flat per-sector arrays. */
module Grid {
  import opened Hex

  /** The offset of a position: its column plus one full row for each row above it. */
  function Off(w: World, p: Pos): int
    decreases p.y
  {
    if p.y <= 0 then p.x else Off(w, Pos(p.x, p.y - 1)) + w.wx
  }

  /** The position at an offset. */
  function PosOf(w: World, o: int): Pos
    requires w.Valid()
    decreases o
  {
    if o < w.wx then Pos(o, 0) else var p := PosOf(w, o - w.wx); Pos(p.x, p.y + 1)
  }

  /** o is the offset of a sector that exists (its coordinates have an even sum). */
  predicate IsSect(w: World, o: int)
    requires w.Valid()
  {
    0 <= o < w.Size() && OnMap(w, PosOf(w, o))
  }

  function Nb(w: World, o: int, d: int): int
    requires w.Valid()
  {
    Off(w, Step(w, PosOf(w, o), d))
  }

  function Dist(w: World, a: int, b: int): int
    requires w.Valid()
  {
    MapDist(w, PosOf(w, a), PosOf(w, b))
  }

  /** Offsets are row-major: y * wx + x, and back again by division and remainder. */
  lemma {:induction false} OffIsRowMajor(w: World, x: int, y: nat)
    requires w.Valid() && 0 <= x < w.wx
    ensures Off(w, Pos(x, y)) == y * w.wx + x
    ensures Off(w, Pos(x, y)) / w.wx == y && Off(w, Pos(x, y)) % w.wx == x
    ensures w.Size() == w.wx * w.wy
  {
    RowsIsProduct(w.wx, w.wy);
    OffIsSum(w, x, y);
    DivModUnique(y * w.wx + x, w.wx, y, x);
  }

  lemma {:induction false} OffIsSum(w: World, x: int, y: nat)
    ensures Off(w, Pos(x, y)) == y * w.wx + x
    decreases y
  {
    if y > 0 {
      OffIsSum(w, x, y - 1);
      MulDistributes(w.wx, y, 1);
    }
  }

  lemma {:induction false} RowsIsProduct(width: nat, n: nat)
    ensures Rows(width, n) == width * n
  {
    if n > 0 {
      RowsIsProduct(width, n - 1);
      MulDistributes(width, n, 1);
    }
  }

  lemma {:induction false} DivModUnique(a: int, n: int, q: int, r: int)
    requires n > 0 && 0 <= r < n && a == q * n + r
    ensures a % n == r && a / n == q
  {
    DivModDef(a, n);
    MulDistributes(n, q, a / n);
    MulBigger(n, q - a / n);
    MulBigger(n, a / n - q);
    MulDistributes(n, a / n, q);
  }

  lemma {:induction false} OffBound(w: World, x: int, y: int)
    requires w.Valid() && 0 <= x < w.wx && 0 <= y < w.wy
    ensures 0 <= Off(w, Pos(x, y)) < w.Size()
    ensures PosOf(w, Off(w, Pos(x, y))) == Pos(x, y)
    decreases y
  {
    OffInRows(w, x, y, w.wy);
    hide Rows;
    if y > 0 {
      OffBound(w, x, y - 1);
    }
  }

  lemma {:induction false} OffInRows(w: World, x: int, y: int, n: nat)
    requires 0 <= x < w.wx && 0 <= y < n
    ensures 0 <= Off(w, Pos(x, y)) < Rows(w.wx, n)
    decreases n
  {
    if y > 0 {
      OffInRows(w, x, y - 1, n - 1);
    }
  }

  lemma {:induction false} PosInRows(w: World, o: int, n: nat)
    requires w.Valid() && 0 <= o < Rows(w.wx, n)
    ensures 0 <= PosOf(w, o).x < w.wx && 0 <= PosOf(w, o).y < n
    ensures Off(w, PosOf(w, o)) == o
    decreases n
  {
    if o >= w.wx {
      PosInRows(w, o - w.wx, n - 1);
    }
  }

  lemma {:induction false} OffOfPos(w: World, p: Pos)
    requires w.Valid() && OnMap(w, p)
    ensures IsSect(w, Off(w, p)) && PosOf(w, Off(w, p)) == p
  {
    OffBound(w, p.x, p.y);
  }

  lemma {:induction false} PosOfOff(w: World, o: int)
    requires w.Valid() && 0 <= o < w.Size()
    ensures 0 <= PosOf(w, o).x < w.wx && 0 <= PosOf(w, o).y < w.wy
    ensures Off(w, PosOf(w, o)) == o
  {
    PosInRows(w, o, w.wy);
  }

  lemma {:induction false} NbIsSect(w: World, o: int, d: int)
    requires w.Valid() && IsSect(w, o) && 1 <= d <= 6
    ensures IsSect(w, Nb(w, o, d)) && PosOf(w, Nb(w, o, d)) == Step(w, PosOf(w, o), d)
    ensures 1 <= DirBack(d) <= 6 && DirBack(DirBack(d)) == d && Nb(w, Nb(w, o, d), DirBack(d)) == o
  {
    StepBack(w, PosOf(w, o), d);
    OffOfPos(w, Step(w, PosOf(w, o), d));
    PosOfOff(w, o);
  }

  lemma {:induction false} OffDiffer(w: World, p: Pos, q: Pos)
    requires w.Valid() && OnMap(w, p) && OnMap(w, q) && p != q
    ensures Off(w, p) != Off(w, q)
  {
    OffOfPos(w, p);
    OffOfPos(w, q);
  }

  lemma {:induction false} StepIsNb(w: World, p: Pos, d: int)
    requires w.Valid() && OnMap(w, p) && 1 <= d <= 6
    ensures IsSect(w, Off(w, p)) && OnMap(w, Step(w, p, d)) && IsSect(w, Off(w, Step(w, p, d)))
    ensures Off(w, Step(w, p, d)) == Nb(w, Off(w, p), d)
  {
    hide Step;
    OffOfPos(w, p);
    NbIsSect(w, Off(w, p), d);
    StepBack(w, p, d);
    OffOfPos(w, Step(w, p, d));
  }

  /** A neighbour's offset, by wrapping the coordinates. */
  lemma {:induction false} NbByWrap(w: World, p: Pos, d: int)
    requires w.Valid() && OnMap(w, p) && 1 <= d <= 6
    ensures Off(w, Pos(Wrap(p.x + DirOff(d).0, w.wx), Wrap(p.y + DirOff(d).1, w.wy))) == Nb(w, Off(w, p), d)
    ensures IsSect(w, Nb(w, Off(w, p), d))
  {
    hide OnMap, PosOf, Rows, Off, Wrap, DirOff;
    OffOfPos(w, p);
    NbIsSect(w, Off(w, p), d);
  }

  lemma {:induction false} DistFacts(w: World, a: int, b: int)
    requires w.Valid() && IsSect(w, a) && IsSect(w, b)
    ensures 0 <= Dist(w, a, b) <= w.wx + w.wy
    ensures Dist(w, a, b) == Dist(w, b, a)
    ensures Dist(w, a, b) == 0 <==> a == b
  {
    DistBasics(w, PosOf(w, a), PosOf(w, b));
    PosOfOff(w, a);
    PosOfOff(w, b);
  }

  lemma {:induction false} DistNb(w: World, a: int, b: int, d: int)
    requires w.Valid() && IsSect(w, a) && IsSect(w, b) && 1 <= d <= 6
    ensures IsSect(w, Nb(w, b, d)) && Dist(w, a, Nb(w, b, d)) <= Dist(w, a, b) + 1
  {
    NbIsSect(w, b, d);
    DistStep(w, PosOf(w, a), PosOf(w, b), d);
  }

  lemma {:induction false} Toward(w: World, a: int, b: int) returns (d: int)
    requires w.Valid() && IsSect(w, a) && IsSect(w, b) && a != b
    ensures 1 <= d <= 6 && IsSect(w, Nb(w, b, d))
    ensures Dist(w, a, Nb(w, b, d)) == Dist(w, a, b) - 1
  {
    PosOfOff(w, a);
    PosOfOff(w, b);
    d := DistToward(w, PosOf(w, a), PosOf(w, b));
    NbIsSect(w, b, d);
  }

  ghost function AllSlots(n: nat): (s: set<int>)
    ensures forall o :: o in s <==> 0 <= o < n
  {
    if n == 0 then {} else AllSlots(n - 1) + {n - 1}
  }

  lemma {:induction false} SetShrinks(all: set<int>, done: set<int>, o: int)
    requires o in all && o !in done
    ensures |all - (done + {o})| < |all - done|
  {
    assert all - done == (all - (done + {o})) + {o};
  }

  // ---------------------------------------------------------------------------------------------
  // Scanning the map row by row, two columns at a time
  // ---------------------------------------------------------------------------------------------

  /** The sectors met before a scan comes to column x of row y. */
  ghost function Scanned(w: World, y: int, x: int): set<int>
    requires w.Valid()
  {
    set v | 0 <= v < w.Size() && IsSect(w, v) && (PosOf(w, v).y < y || (PosOf(w, v).y == y && PosOf(w, v).x < x))
  }

  lemma {:induction false} ScanStarts(w: World)
    requires w.Valid()
    ensures Scanned(w, 0, 0) == {}
  {}

  lemma {:induction false} ScanStep(w: World, y: int, x: int)
    requires w.Valid() && 0 <= y < w.wy && 0 <= x < w.wx && (x + y) % 2 == 0
    ensures OnMap(w, Pos(x, y)) && IsSect(w, Off(w, Pos(x, y)))
    ensures Off(w, Pos(x, y)) !in Scanned(w, y, x)
    ensures Scanned(w, y, x + 2) == Scanned(w, y, x) + {Off(w, Pos(x, y))}
  {
    var o := Off(w, Pos(x, y));
    OffOfPos(w, Pos(x, y));
    forall v | v in Scanned(w, y, x + 2) && v !in Scanned(w, y, x)
      ensures v == o
    {
      PosOfOff(w, v);
      assert PosOf(w, v) == Pos(x, y);
    }
  }

  /** A row ends; the next one starts in its first or second column, whichever has a sector. */
  lemma {:induction false} ScanRow(w: World, y: int, x: int)
    requires w.Valid() && 0 <= y < w.wy && x >= w.wx
    ensures Scanned(w, y, x) == Scanned(w, y + 1, (y + 1) % 2)
  {
    hide Rows;
    forall v | IsSect(w, v)
      ensures v in Scanned(w, y, x) <==> v in Scanned(w, y + 1, (y + 1) % 2)
    {
    }
  }

  lemma {:induction false} ScanEnds(w: World, x: int)
    requires w.Valid()
    ensures forall v :: IsSect(w, v) ==> v in Scanned(w, w.wy, x)
  {}
}
