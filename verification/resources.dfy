/** Resources of a sector as a function of its height. */
module Resources {
  import opened Hex

  datatype Pt = Pt(elev: int, res: int)

  const IRON_CONF := [Pt(-127, 0), Pt(21, 0), Pt(85, 100), Pt(97, 100), Pt(98, 0), Pt(127, 0)]
  const GOLD_CONF := [Pt(-127, 0), Pt(35, 0), Pt(97, 80), Pt(98, 80), Pt(127, 85)]
  const FERT_CONF := [Pt(-127, 100), Pt(-59, 100), Pt(0, 41), Pt(1, 100), Pt(10, 100), Pt(56, 0), Pt(127, 0)]
  const OIL_CONF := [Pt(-127, 100), Pt(-49, 100), Pt(0, 2), Pt(1, 100), Pt(6, 100), Pt(34, 0), Pt(127, 0)]
  const URAN_CONF := [Pt(-127, 0), Pt(55, 0), Pt(90, 100), Pt(97, 100), Pt(98, 0), Pt(127, 0)]

  /** Break-points in ascending order, from -127 to 127, with resources from 0 to 100. */
  ghost predicate IsConf(conf: seq<Pt>) {
    |conf| >= 2 && conf[0].elev == -127 && conf[|conf| - 1].elev == 127
    && (forall i, j :: 0 <= i < j < |conf| ==> conf[i].elev < conf[j].elev)
    && forall i :: 0 <= i < |conf| ==> 0 <= conf[i].res <= 100
  }

  /** How many break-points lie below e. */
  function Below(conf: seq<Pt>, e: int): (k: nat)
    ensures k <= |conf| && (k > 0 ==> conf[k - 1].elev < e)
  {
    if conf == [] then 0
    else if conf[|conf| - 1].elev < e then |conf|
    else Below(conf[..|conf| - 1], e)
  }

  function Clamp(v: int, lo: int, hi: int): int {
    if v < lo then lo else if v > hi then hi else v
  }

  /** A quotient cut off toward zero, for a positive divisor. */
  function TruncDiv(a: int, n: int): int
    requires n > 0
  {
    if a >= 0 then a / n else -((-a) / n)
  }

  /** The segment of the table that holds e. */
  function Segment(conf: seq<Pt>, e: int): (i: nat)
    requires |conf| >= 2
    ensures i + 1 < |conf|
  {
    var k := Below(conf, e);
    var i := if k == 0 then 0 else k - 1;
    if i < |conf| - 2 then i else |conf| - 2
  }

  /** The resource at height e, by linear interpolation between break-points. */
  function ElevToResource(e: int, conf: seq<Pt>): int
    requires IsConf(conf)
  {
    var i := Segment(conf, e);
    var (e1, e2, r1, r2) := (conf[i].elev, conf[i + 1].elev, conf[i].res, conf[i + 1].res);
    assert conf[i].elev < conf[i + 1].elev;
    Clamp(r1 + TruncDiv((e - e1) * (r2 - r1), e2 - e1), 0, 100)
  }

  lemma {:induction false} BelowIsSplit(conf: seq<Pt>, e: int)
    requires forall i, j :: 0 <= i < j < |conf| ==> conf[i].elev < conf[j].elev
    ensures forall i :: 0 <= i < |conf| ==> (conf[i].elev < e <==> i < Below(conf, e))
  {
    if conf != [] && conf[|conf| - 1].elev >= e {
      BelowIsSplit(conf[..|conf| - 1], e);
    }
  }

  lemma {:induction false} SegmentHolds(conf: seq<Pt>, e: int)
    requires IsConf(conf) && -127 <= e <= 127
    ensures conf[Segment(conf, e)].elev <= e <= conf[Segment(conf, e) + 1].elev
  {
    BelowIsSplit(conf, e);
  }

  lemma {:induction false} ShareBounds(x: int, n: int, d: int)
    requires 0 <= x <= n && n > 0 && d >= 0
    ensures 0 <= (x * d) / n <= d
    ensures x == n ==> (x * d) / n == d
  {
    MulMono(d, x, n);
    MulMono(d, 0, x);
    DivAtMost(x * d, n, d);
  }

  lemma {:induction false} MulNegates(x: int, d: int)
    ensures x * (-d) == -(x * d)
  {}

  /** The point a share x / n of the way from r1 to r2. */
  lemma {:induction false} Between(x: int, n: int, r1: int, r2: int)
    requires 0 <= x <= n && n > 0
    ensures var v := r1 + TruncDiv(x * (r2 - r1), n);
            (if r1 <= r2 then r1 <= v <= r2 else r2 <= v <= r1) && (x == 0 ==> v == r1) && (x == n ==> v == r2)
  {
    if r1 <= r2 {
      ShareBounds(x, n, r2 - r1);
    } else {
      ShareBounds(x, n, r1 - r2);
      MulNegates(x, r1 - r2);
      assert r2 - r1 == -(r1 - r2);
    }
    if x == 0 {
      DivAtMost(0, n, 0);
    }
  }

  /** Within the table's range the resource lies between those of the two break-points around the
      height, meets them at the break-points, and never has to be clamped. */
  lemma {:induction false} Interpolates(e: int, conf: seq<Pt>)
    requires IsConf(conf) && -127 <= e <= 127
    ensures var i := Segment(conf, e);
            var (r, r1, r2) := (ElevToResource(e, conf), conf[i].res, conf[i + 1].res);
            0 <= r <= 100 && (if r1 <= r2 then r1 <= r <= r2 else r2 <= r <= r1)
            && (e == conf[i].elev ==> r == r1) && (e == conf[i + 1].elev ==> r == r2)
  {
    SegmentHolds(conf, e);
    var i := Segment(conf, e);
    assert conf[i].elev < conf[i + 1].elev && 0 <= conf[i].res <= 100 && 0 <= conf[i + 1].res <= 100;
    Between(e - conf[i].elev, conf[i + 1].elev - conf[i].elev, conf[i].res, conf[i + 1].res);
    hide TruncDiv, IsConf, Segment;
  }

  /** At every break-point the table's own value comes out. */
  lemma {:induction false} MeetsBreakPoints(conf: seq<Pt>, k: nat)
    requires IsConf(conf) && k < |conf|
    ensures ElevToResource(conf[k].elev, conf) == conf[k].res
  {
    assert k > 0 ==> conf[0].elev < conf[k].elev;
    assert k < |conf| - 1 ==> conf[k].elev < conf[|conf| - 1].elev;
    var e := conf[k].elev;
    BelowIsSplit(conf, e);
    assert conf[k].elev == e && (k > 0 ==> conf[k - 1].elev < e);
    Interpolates(e, conf);
  }

  lemma {:induction false} OresAreOk()
    ensures IsConf(IRON_CONF) && IsConf(GOLD_CONF) && IsConf(URAN_CONF)
  {}

  lemma {:induction false} FertAndOilAreOk()
    ensures IsConf(FERT_CONF) && IsConf(OIL_CONF)
  {}

  lemma {:induction false} ConfsAreOk()
    ensures IsConf(IRON_CONF) && IsConf(GOLD_CONF) && IsConf(URAN_CONF) && IsConf(FERT_CONF) && IsConf(OIL_CONF)
  {
    OresAreOk();
    FertAndOilAreOk();
  }

  datatype Yield = Yield(iron: int, gold: int, fertil: int, oil: int, uran: int) {
    predicate InRange() {
      0 <= iron <= 100 && 0 <= gold <= 100 && 0 <= fertil <= 100 && 0 <= oil <= 100 && 0 <= uran <= 100
    }
  }

  /** The resources of a sector at height e. */
  function YieldAt(e: int): (y: Yield)
    ensures -127 <= e <= 127 ==> y.InRange()
  {
    ConfsAreOk();
    var y := Yield(ElevToResource(e, IRON_CONF), ElevToResource(e, GOLD_CONF), ElevToResource(e, FERT_CONF),
                   ElevToResource(e, OIL_CONF), ElevToResource(e, URAN_CONF));
    assert -127 <= e <= 127 ==> y.InRange() by {
      if -127 <= e <= 127 {
        hide IsConf, ElevToResource, Segment;
        Interpolates(e, IRON_CONF);
        Interpolates(e, GOLD_CONF);
        Interpolates(e, FERT_CONF);
        Interpolates(e, OIL_CONF);
        Interpolates(e, URAN_CONF);
      }
    }
    y
  }
}
