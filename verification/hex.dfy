/** Geometry of the hexagonal torus on which the world generator works.

    A world is `wx` by `wy`, both even; a sector exists at (x, y) exactly when x + y is even.
    Sectors are also named by their offset y * wx + x, the index of the flat per-sector arrays.
 */
module Hex {

  const DIR_FIRST := 1
  const DIR_LAST := 6
  const DIR_DR := 3

  datatype World = World(wx: nat, wy: nat) {
    predicate Valid() {
      4 <= wx <= 0x7FFF && 2 <= wy <= 0x7FFF && wx % 2 == 0 && wy % 2 == 0
    }

    /** The number of slots of a per-sector array, wx * wy, summed row by row. */
    function Size(): nat {
      Rows(wx, wy)
    }
  }

  function Rows(width: nat, n: nat): nat {
    if n == 0 then 0 else width + Rows(width, n - 1)
  }

  datatype Pos = Pos(x: int, y: int)

  function Abs(a: int): nat {
    if a < 0 then -a else a
  }

  function DirOff(d: int): (int, int) {
    match d
    case 1 => (1, -1)
    case 2 => (2, 0)
    case 3 => (1, 1)
    case 4 => (-1, 1)
    case 5 => (-2, 0)
    case 6 => (-1, -1)
    case _ => (0, 0)
  }

  function DirBack(d: int): int {
    if d <= DIR_DR then d + 3 else d - 3
  }

  // ---------------------------------------------------------------------------------------------
  // Wrapping coordinates
  // ---------------------------------------------------------------------------------------------

  /** The coordinate v brought into 0..n-1 by whole turns around the torus. */
  function Wrap(v: int, n: int): (r: int)
    requires n > 0
    ensures 0 <= r < n
    decreases v < 0, Abs(v)
  {
    if v < 0 then Wrap(v + n, n) else if v >= n then Wrap(v - n, n) else v
  }

  /** The remainder of a division that truncates toward zero. */
  function TruncRem(a: int, n: int): int
    requires n > 0
  {
    if a >= 0 then a % n else -((-a) % n)
  }

  lemma {:induction false} ModUnique(a: int, n: int, q: int, r: int)
    requires n > 0 && 0 <= r < n && a == n * q + r
    ensures a % n == r
  {
    var q' := a / n;
    DivModDef(a, n);
    MulDistributes(n, q, q');
    MulBigger(n, q - q');
    MulBigger(n, q' - q);
    MulDistributes(n, q', q);
  }

  lemma {:induction false} MulDistributes(n: int, a: int, b: int)
    ensures n * (a - b) == n * a - n * b
  {}

  lemma {:induction false} MulBigger(n: int, k: int)
    requires n > 0
    ensures k >= 1 ==> n * k >= n
  {}

  lemma {:induction false} MulMono(n: nat, a: int, b: int)
    requires a <= b
    ensures n * a <= n * b
  {
    MulDistributes(n, b, a);
    if n > 0 {
      MulBigger(n, b - a);
    }
  }

  lemma {:induction false} DivModDef(a: int, n: int)
    requires n > 0
    ensures a == n * (a / n) + a % n && 0 <= a % n < n
  {}

  lemma {:induction false} DivAtMost(x: int, m: int, q: int)
    requires m > 0 && 0 <= x <= q * m
    ensures 0 <= x / m <= q && (x == q * m ==> x / m == q)
  {
    DivModDef(x, m);
    MulBigger(m, x / m - q);
    MulBigger(m, -(x / m));
    MulDistributes(m, x / m, q);
    MulDistributes(m, q, x / m);
    MulBigger(m, q - x / m);
  }

  lemma {:induction false} WrapIsModulo(v: int, n: int)
    requires n > 0
    ensures Wrap(v, n) == v % n
    decreases v < 0, Abs(v)
  {
    if v < 0 || v >= n {
      var u := if v < 0 then v + n else v - n;
      WrapIsModulo(u, n);
      DivModDef(u, n);
      var q := u / n;
      MulDistributes(n, q, 1);
      MulDistributes(n, q, -1);
      ModUnique(v, n, if v < 0 then q - 1 else q + 1, u % n);
    } else {
      ModUnique(v, n, 0, v);
    }
  }

  /** Two truncating remainders, as the code takes them, make this wrap-around. */
  lemma {:induction false} WrapIsTwoRemainders(v: int, n: int)
    requires n > 0
    ensures TruncRem(TruncRem(v, n) + n, n) == Wrap(v, n)
  {
    WrapIsModulo(v, n);
    var t := TruncRem(v, n);
    WrapIsModulo(t + n, n);
    if v >= 0 {
      WrapIsModulo(t, n);
    } else {
      DivModDef(-v, n);
      var q, r := (-v) / n, (-v) % n;
      assert v == n * (-q) - r;
      if r == 0 {
        ModUnique(v, n, -q, 0);
      } else {
        MulDistributes(n, -q, 1);
        ModUnique(v, n, -q - 1, n - r);
      }
    }
  }

  lemma {:induction false} WrapShift(a: int, b: int, n: int)
    requires n > 0
    ensures Wrap(Wrap(a, n) + b, n) == Wrap(a + b, n)
    decreases a < 0, Abs(a)
  {
    if a < 0 {
      WrapShift(a + n, b, n);
      WrapTurn(a + b, n);
    } else if a >= n {
      WrapShift(a - n, b, n);
      WrapTurn(a + b - n, n);
    }
  }

  lemma {:induction false} WrapTurn(a: int, n: int)
    requires n > 0
    ensures Wrap(a + n, n) == Wrap(a, n)
  {
    if a >= 0 {
      assert Wrap(a + n, n) == Wrap(a + n - n, n);
    }
  }

  lemma {:induction false} WrapParity(a: int, n: int)
    requires n > 0 && n % 2 == 0
    ensures Wrap(a, n) % 2 == a % 2
    decreases a < 0, Abs(a)
  {
    if a < 0 {
      WrapParity(a + n, n);
      SumParity(a, n, a, 0);
    } else if a >= n {
      WrapParity(a - n, n);
      SumParity(a - n, n, a - n, 0);
    }
  }

  // ---------------------------------------------------------------------------------------------
  // Sectors, neighbours, distance
  // ---------------------------------------------------------------------------------------------

  predicate OnMap(w: World, p: Pos) {
    0 <= p.x < w.wx && 0 <= p.y < w.wy && (p.x + p.y) % 2 == 0
  }

  /** The position reached from `p` by the plane offset (a, b). */
  function Shift(w: World, p: Pos, a: int, b: int): Pos
    requires w.Valid()
  {
    Pos(Wrap(p.x + a, w.wx), Wrap(p.y + b, w.wy))
  }

  function Step(w: World, p: Pos, d: int): Pos
    requires w.Valid()
  {
    Shift(w, p, DirOff(d).0, DirOff(d).1)
  }

  /** Distance between two coordinates on a circle of n points. */
  function Cyc(a: int, b: int, n: int): (r: int)
    requires n > 0
    ensures 0 <= r <= n
  {
    var d := Wrap(Abs(a - b), n);
    if d > n / 2 then n - d else d
  }

  function HexLen(dx: int, dy: int): int {
    if dx > dy then (dx - dy) / 2 + dy else dy
  }

  function MapDist(w: World, p: Pos, q: Pos): int
    requires w.Valid()
  {
    HexLen(Cyc(p.x, q.x, w.wx), Cyc(p.y, q.y, w.wy))
  }

  /** The shortest signed move on the circle from a to b. */
  function Signed(a: int, b: int, n: int): int {
    var d := b - a;
    if d > n / 2 then d - n else if d < -(n / 2) then d + n else d
  }

  lemma {:induction false} CycOfShift(a: int, s: int, n: int)
    requires n > 0 && 0 <= a < n
    ensures Cyc(a, Wrap(a + s, n), n) <= Abs(s)
    ensures Abs(s) <= n / 2 ==> Cyc(a, Wrap(a + s, n), n) == Abs(s)
  {
    if Abs(s) <= n / 2 {
      assert Wrap(a + s, n) == if a + s < 0 then a + s + n else if a + s >= n then a + s - n else a + s;
    }
  }

  lemma {:induction false} SignedReaches(a: int, b: int, n: int)
    requires n > 0 && 0 <= a < n && 0 <= b < n
    ensures Wrap(a + Signed(a, b, n), n) == b
    ensures Abs(Signed(a, b, n)) == Cyc(a, b, n) <= n / 2
    ensures n % 2 == 0 ==> Signed(a, b, n) % 2 == (a + b) % 2
  {
    CycOfShift(a, Signed(a, b, n), n);
  }

  lemma {:induction false} ShiftShift(w: World, p: Pos, a: int, b: int, c: int, d: int)
    requires w.Valid()
    ensures Shift(w, Shift(w, p, a, b), c, d) == Shift(w, p, a + c, b + d)
  {
    WrapShift(p.x + a, c, w.wx);
    WrapShift(p.y + b, d, w.wy);
  }

  lemma {:induction false} ShiftZero(w: World, p: Pos)
    requires w.Valid() && OnMap(w, p)
    ensures Shift(w, p, 0, 0) == p
  {}

  lemma {:induction false} SumParity(u: int, v: int, u': int, v': int)
    requires u % 2 == u' % 2 && v % 2 == v' % 2
    ensures (u + v) % 2 == (u' + v') % 2
  {}

  lemma {:induction false} ShiftOnMap(w: World, p: Pos, a: int, b: int)
    requires w.Valid() && OnMap(w, p) && (a + b) % 2 == 0
    ensures OnMap(w, Shift(w, p, a, b))
  {
    WrapParity(p.x + a, w.wx);
    WrapParity(p.y + b, w.wy);
    var q := Shift(w, p, a, b);
    SumParity(q.x, q.y, p.x + a, p.y + b);
    SumParity(p.x + p.y, a + b, 0, 0);
    assert p.x + a + (p.y + b) == p.x + p.y + (a + b);
  }

  /** Stepping in a direction and then in the opposite one leads back. */
  lemma {:induction false} StepBack(w: World, p: Pos, d: int)
    requires w.Valid() && OnMap(w, p) && 1 <= d <= 6
    ensures 1 <= DirBack(d) <= 6 && DirBack(DirBack(d)) == d
    ensures OnMap(w, Step(w, p, d))
    ensures Step(w, Step(w, p, d), DirBack(d)) == p
  {
    ShiftOnMap(w, p, DirOff(d).0, DirOff(d).1);
    ShiftShift(w, p, DirOff(d).0, DirOff(d).1, DirOff(DirBack(d)).0, DirOff(DirBack(d)).1);
    ShiftZero(w, p);
  }

  lemma {:induction false} HexLenMono(a: int, b: int, c: int, d: int)
    requires a <= c && b <= d
    ensures HexLen(a, b) <= HexLen(c, d)
  {}

  /** A plane offset of hexagonal length k never leads farther than k. */
  lemma {:induction false} DistOfShift(w: World, p: Pos, a: int, b: int)
    requires w.Valid() && OnMap(w, p)
    ensures MapDist(w, p, Shift(w, p, a, b)) <= HexLen(Abs(a), Abs(b))
  {
    hide Wrap, Cyc, HexLen, Abs;
    CycOfShift(p.x, a, w.wx);
    CycOfShift(p.y, b, w.wy);
    HexLenMono(Cyc(p.x, Wrap(p.x + a, w.wx), w.wx), Cyc(p.y, Wrap(p.y + b, w.wy), w.wy), Abs(a), Abs(b));
  }

  lemma {:induction false} DistOfShortShift(w: World, p: Pos, a: int, b: int)
    requires w.Valid() && OnMap(w, p) && Abs(a) <= w.wx / 2 && Abs(b) <= w.wy / 2
    ensures MapDist(w, p, Shift(w, p, a, b)) == HexLen(Abs(a), Abs(b))
  {
    CycOfShift(p.x, a, w.wx);
    CycOfShift(p.y, b, w.wy);
  }

  /** Every sector is at some plane offset whose hexagonal length is the distance. */
  lemma {:induction false} OffsetOf(w: World, p: Pos, q: Pos) returns (a: int, b: int)
    requires w.Valid() && OnMap(w, p) && OnMap(w, q)
    ensures Shift(w, p, a, b) == q && (a + b) % 2 == 0
    ensures HexLen(Abs(a), Abs(b)) == MapDist(w, p, q)
    ensures Abs(a) <= w.wx / 2 && Abs(b) <= w.wy / 2
  {
    a, b := Signed(p.x, q.x, w.wx), Signed(p.y, q.y, w.wy);
    SignedReaches(p.x, q.x, w.wx);
    SignedReaches(p.y, q.y, w.wy);
    SumParity(a, b, p.x + q.x, p.y + q.y);
    SumParity(p.x + p.y, q.x + q.y, 0, 0);
    assert p.x + q.x + (p.y + q.y) == p.x + p.y + (q.x + q.y);
  }

  lemma {:induction false} CycSymmetric(a: int, b: int, n: int)
    requires n > 0
    ensures Cyc(a, b, n) == Cyc(b, a, n)
  {
    hide Wrap;
  }

  lemma {:induction false} DistToSelf(w: World, p: Pos)
    requires w.Valid() && OnMap(w, p)
    ensures MapDist(w, p, p) == 0
  {
    assert Cyc(p.x, p.x, w.wx) == 0 && Cyc(p.y, p.y, w.wy) == 0;
  }

  lemma {:induction false} DistSymmetric(w: World, p: Pos, q: Pos)
    requires w.Valid()
    ensures MapDist(w, p, q) == MapDist(w, q, p)
  {
    hide Cyc;
    CycSymmetric(p.x, q.x, w.wx);
    CycSymmetric(p.y, q.y, w.wy);
  }

  lemma {:induction false} DistBasics(w: World, p: Pos, q: Pos)
    requires w.Valid() && OnMap(w, p) && OnMap(w, q)
    ensures 0 <= MapDist(w, p, q) <= w.wx + w.wy
    ensures MapDist(w, p, q) == MapDist(w, q, p)
    ensures MapDist(w, p, q) == 0 <==> p == q
  {
    hide Wrap, Cyc, Shift, OnMap, MapDist;
    DistToSelf(w, p);
    DistSymmetric(w, p, q);
    ShiftZero(w, p);
    var a, b := OffsetOf(w, p, q);
  }

  /** One step changes the distance to any sector by at most one. */
  lemma {:induction false} DistStep(w: World, p: Pos, q: Pos, d: int)
    requires w.Valid() && OnMap(w, p) && OnMap(w, q) && 1 <= d <= 6
    ensures OnMap(w, Step(w, q, d))
    ensures MapDist(w, p, Step(w, q, d)) <= MapDist(w, p, q) + 1
  {
    hide Wrap, Cyc, MapDist, OnMap, HexLen;
    var a, b := OffsetOf(w, p, q);
    StepBack(w, q, d);
    ShiftShift(w, p, a, b, DirOff(d).0, DirOff(d).1);
    DistOfShift(w, p, a + DirOff(d).0, b + DirOff(d).1);
    HexLenGrow(a, b, d);
  }

  lemma {:induction false} HexLenGrow(a: int, b: int, d: int)
    requires 1 <= d <= 6
    ensures HexLen(Abs(a + DirOff(d).0), Abs(b + DirOff(d).1)) <= HexLen(Abs(a), Abs(b)) + 1
  {}

  /** From any sector other than p, one of the six steps leads nearer to p. */
  lemma {:induction false} DistToward(w: World, p: Pos, q: Pos) returns (d: int)
    requires w.Valid() && OnMap(w, p) && OnMap(w, q) && p != q
    ensures 1 <= d <= 6 && OnMap(w, Step(w, q, d))
    ensures MapDist(w, p, Step(w, q, d)) == MapDist(w, p, q) - 1
  {
    hide Wrap, Cyc, MapDist, OnMap, HexLen;
    var a, b := OffsetOf(w, q, p);
    ShiftZero(w, q);
    d := if b == 0 then (if a > 0 then 2 else 5)
         else if b < 0 then (if a >= 0 then 1 else 6)
         else if a >= 0 then 3 else 4;
    var q' := Step(w, q, d);
    var a', b' := a - DirOff(d).0, b - DirOff(d).1;
    StepBack(w, q, d);
    ShiftShift(w, q, DirOff(d).0, DirOff(d).1, a', b');
    DistOfShortShift(w, q', a', b');
    DistBasics(w, p, q);
    DistBasics(w, p, q');
    HexLenStep(a, b, d);
  }

  lemma {:induction false} HexLenStep(a: int, b: int, d: int)
    requires (a, b) != (0, 0) && (a + b) % 2 == 0
    requires d == if b == 0 then (if a > 0 then 2 else 5)
                  else if b < 0 then (if a >= 0 then 1 else 6)
                  else if a >= 0 then 3 else 4
    ensures HexLen(Abs(a - DirOff(d).0), Abs(b - DirOff(d).1)) == HexLen(Abs(a), Abs(b)) - 1
  {}

  // ---------------------------------------------------------------------------------------------
  // The distance is the length of the shortest walk
  // ---------------------------------------------------------------------------------------------

  predicate IsWalk(dirs: seq<int>) {
    forall i :: 0 <= i < |dirs| ==> 1 <= dirs[i] <= 6
  }

  /** Where the walk that starts at p and takes the steps `dirs` ends. */
  function WalkEnd(w: World, p: Pos, dirs: seq<int>): Pos
    requires w.Valid()
  {
    if dirs == [] then p else Step(w, WalkEnd(w, p, dirs[..|dirs| - 1]), dirs[|dirs| - 1])
  }

  lemma {:induction false} WalkAtLeastDist(w: World, p: Pos, dirs: seq<int>)
    requires w.Valid() && OnMap(w, p) && IsWalk(dirs)
    ensures OnMap(w, WalkEnd(w, p, dirs))
    ensures MapDist(w, p, WalkEnd(w, p, dirs)) <= |dirs|
  {
    if dirs == [] {
      DistBasics(w, p, p);
    } else {
      var pre := dirs[..|dirs| - 1];
      WalkAtLeastDist(w, p, pre);
      DistStep(w, p, WalkEnd(w, p, pre), dirs[|dirs| - 1]);
    }
  }

  lemma {:induction false} WalkBack(w: World, p: Pos, q: Pos, d: int, pre: seq<int>)
    requires w.Valid() && OnMap(w, p) && OnMap(w, q) && 1 <= d <= 6
    requires IsWalk(pre) && WalkEnd(w, p, pre) == Step(w, q, d)
    ensures IsWalk(pre + [DirBack(d)]) && WalkEnd(w, p, pre + [DirBack(d)]) == q
  {
    StepBack(w, q, d);
    hide OnMap, Step;
    var dirs := pre + [DirBack(d)];
    assert dirs[..|dirs| - 1] == pre;
  }

  lemma {:induction false} WalkOfDist(w: World, p: Pos, q: Pos) returns (dirs: seq<int>)
    requires w.Valid() && OnMap(w, p) && OnMap(w, q)
    ensures IsWalk(dirs) && WalkEnd(w, p, dirs) == q && |dirs| == MapDist(w, p, q)
    decreases MapDist(w, p, q)
  {
    DistBasics(w, p, q);
    if p == q {
      dirs := [];
    } else {
      hide IsWalk, WalkEnd, OnMap, MapDist, Step;
      var d := DistToward(w, p, q);
      StepBack(w, q, d);
      DistBasics(w, p, Step(w, q, d));
      var pre := WalkOfDist(w, p, Step(w, q, d));
      WalkBack(w, p, q, d, pre);
      dirs := pre + [DirBack(d)];
    }
  }

  /** `MapDist` is the least number of hexagon steps that lead from p to q on the torus. */
  lemma {:induction false} MapDistIsShortestWalk(w: World, p: Pos, q: Pos)
    requires w.Valid() && OnMap(w, p) && OnMap(w, q)
    ensures exists dirs :: IsWalk(dirs) && WalkEnd(w, p, dirs) == q && |dirs| == MapDist(w, p, q)
    ensures forall dirs :: IsWalk(dirs) && WalkEnd(w, p, dirs) == q ==> MapDist(w, p, q) <= |dirs|
  {
    var best := WalkOfDist(w, p, q);
    forall dirs | IsWalk(dirs) && WalkEnd(w, p, dirs) == q
      ensures MapDist(w, p, q) <= |dirs|
    {
      WalkAtLeastDist(w, p, dirs);
    }
  }

  lemma {:induction false} DistTriangle(w: World, p: Pos, q: Pos, r: Pos)
    requires w.Valid() && OnMap(w, p) && OnMap(w, q) && OnMap(w, r)
    ensures MapDist(w, p, r) <= MapDist(w, p, q) + MapDist(w, q, r)
    decreases MapDist(w, q, r)
  {
    DistBasics(w, q, r);
    if q != r {
      var d := DistToward(w, q, r);
      var r' := Step(w, r, d);
      DistBasics(w, q, r');
      DistTriangle(w, p, q, r');
      StepBack(w, r, d);
      DistStep(w, p, r', DirBack(d));
    }
  }
}
