/** What an update tick works on: sectors and their stocks, and the tables that describe sector types
    and commodities. */
module Game {
  import opened Basics
  import opened Hex

  const I16_MAX := 32767
  const I16_MIN := -32768
  const ITEM_MAX := 9999

  // ---------------------------------------------------------------------------------------------
  // Commodities
  // ---------------------------------------------------------------------------------------------

  const ITEMS := 14
  const CIVIL := 0
  const MILIT := 1
  const BAR := 7
  const FOOD := 8
  const LCM := 10
  const HCM := 11
  const UW := 12

  /** Weight of one unit of a commodity. */
  function Weight(item: int): (n: int)
    ensures 1 <= n <= 50
  {
    match item
    case 3 => 10
    case 6 => 5
    case 7 => 50
    case 11 => 2
    case 12 => 2
    case 13 => 8
    case _ => 1
  }

  datatype Packing = Norm | Ware | Bank

  /** How many units of a commodity pack as one in a sector with the given packing. */
  function Pack(item: int, pkg: Packing): (n: int)
    ensures n >= 1
  {
    match pkg
    case Norm => if item == 0 then 10 else 1
    case Ware => if item == 1 then 1 else if item == 7 then 5 else if item == 12 then 2 else 10
    case Bank => if item == 0 then 10 else if item == 7 then 4 else 1
  }

  // ---------------------------------------------------------------------------------------------
  // Sector types
  // ---------------------------------------------------------------------------------------------

  const SECTOR_TYPES := 34
  const SEA := 0
  const MOUNTAIN := 1
  const SANCTUARY := 2
  const WASTELAND := 3
  const WILDERNESS := 4
  const CAPITAL := 5
  const HARBOR := 12
  const WAREHOUSE := 13
  const AIRFIELD := 14
  const FORTRESS := 19
  const HIGHWAY := 24
  const HEADQUARTERS := 26
  const BANK := 29
  const ENLIST := 31
  const PLAINS := 32

  predicate IsWater(t: int) {
    t == SEA
  }

  predicate IsSanct(t: int) {
    t == SANCTUARY
  }

  function PackingOf(t: int): Packing {
    if t == HARBOR || t == WAREHOUSE then Ware else if t == BANK then Bank else Norm
  }

  /** Movement cost at no efficiency, in thousandths; negative where nothing can move. */
  function Mob0(t: int): int {
    if t == SEA || t == SANCTUARY || t == WASTELAND then -1000 else if t == MOUNTAIN then 2400 else 400
  }

  /** How much cheaper movement gets for each percent of efficiency, in thousandths. */
  function MobSlope(t: int): int {
    if t == MOUNTAIN then 12
    else if t == HIGHWAY then 4
    else if t == SEA || t == SANCTUARY || t == WASTELAND || t == WILDERNESS || t == PLAINS then 0
    else 2
  }

  /** The cost of entering a sector, in thousandths of a mobility unit: at least one, or negative if
      the type is impassable. */
  function MCost(t: int, effic: int): (c: int)
    ensures c >= 1 <==> Mob0(t) >= 0
    ensures c < 0 <==> Mob0(t) < 0
  {
    if Mob0(t) < 0 then -1000
    else
      var eff := if effic > 0 then effic else 0;
      var cost := Mob0(t) - MobSlope(t) * eff;
      if cost < 1 then 1 else cost
  }

  /** Movement cost at full efficiency, in thousandths. */
  function Mob1(t: int): int {
    if t == MOUNTAIN then 1200 else if t == HIGHWAY then 0 else if t == WILDERNESS || t == PLAINS then 400 else 200
  }

  /** The cost goes in a straight line from that of an unbuilt sector to that of a full one; a negative
      efficiency counts as none, and only a full highway needs the lower bound. */
  lemma {:induction false} MCostInterpolates(t: int, effic: int)
    requires Mob0(t) >= 0 && effic <= 100
    ensures effic < 0 ==> MCost(t, effic) == Mob0(t)
    ensures effic >= 0 && !(t == HIGHWAY && effic == 100) ==>
              100 * MCost(t, effic) == (100 - effic) * Mob0(t) + effic * Mob1(t)
    ensures t == HIGHWAY && effic == 100 ==> MCost(t, effic) == 1
    ensures Mob0(t) >= MCost(t, effic) >= Mob1(t)
  {}

  /** Below 60% efficiency nothing packs better than one by one. */
  function PackMult(t: int, item: int, effic: int): (n: int)
    ensures n >= 1
  {
    if effic < 60 then 1 else Pack(item, PackingOf(t))
  }

  function MaxPop(t: int): int {
    if t == SEA || t == WASTELAND then 0 else if t == MOUNTAIN then 100 else 1000
  }

  function BuildCost(t: int): int {
    if t == SEA || t == SANCTUARY || t == WASTELAND then 0 else if t == FORTRESS then 500 else 100
  }

  function Maint(t: int): int {
    if t == CAPITAL then 1 else 0
  }

  const BUILD_WORK := 100

  // ---------------------------------------------------------------------------------------------
  // Sectors
  // ---------------------------------------------------------------------------------------------

  datatype Sector = Sector(
    x: int, y: int, own: int, oldOwn: int, sectorType: int, newType: int,
    effic: int, mobil: int, off: bool, loyal: int, avail: int, work: int,
    min: int, gmin: int, fertil: int, oil: int, uran: int,
    distX: int, distY: int, items: seq<int>, path: seq<int>, threshold: seq<int>)

  /** Stocks are not negative and fit their 16 bits, with one slot for each commodity. */
  ghost predicate Stocked(s: Sector) {
    |s.items| == ITEMS && forall k :: 0 <= k < ITEMS ==> 0 <= s.items[k] <= I16_MAX
  }

  /** Thresholds are not negative; the commands accept any 16-bit number. */
  ghost predicate Ordered(s: Sector) {
    |s.path| == ITEMS && |s.threshold| == ITEMS
    && forall k :: 0 <= k < ITEMS ==> 0 <= s.threshold[k] <= I16_MAX
  }

  /** What every phase of an update keeps of a sector. */
  ghost predicate WellFormed(s: Sector) {
    Stocked(s) && Ordered(s)
    && 0 <= s.effic <= 100 && -128 <= s.mobil <= 127 && 0 <= s.avail <= AVAIL_MAX && 0 <= s.work <= 100
    && 0 <= s.sectorType < SECTOR_TYPES && 0 <= s.newType < SECTOR_TYPES
    && s.min >= 0 && s.gmin >= 0 && s.fertil >= 0 && s.oil >= 0 && s.uran >= 0
    && 0 <= s.own <= MAX_NATIONS
  }

  const AVAIL_MAX := 10000
  const MAX_NATIONS := 99

  /** A 16-bit addition that stays within bounds. */
  function SatAdd(a: int, d: int): int {
    if a + d > I16_MAX then I16_MAX else if a + d < I16_MIN then I16_MIN else a + d
  }

  function AddItem(s: Sector, item: int, d: int): Sector
    requires 0 <= item < |s.items|
  {
    s.(items := s.items[item := SatAdd(s.items[item], d)])
  }

  // ---------------------------------------------------------------------------------------------
  // Totals
  // ---------------------------------------------------------------------------------------------

  /** The stock of a commodity held by nation who, or by the whole world when who is None. */
  ghost function Held(s: seq<Sector>, who: Option<int>, item: int): int {
    if s == [] then 0 else Held(s[..|s| - 1], who, item) + HeldIn(s[|s| - 1], who, item)
  }

  ghost function HeldIn(s: Sector, who: Option<int>, item: int): int {
    if 0 <= item < |s.items| && (who == None || who == Some(s.own)) then s.items[item] else 0
  }

  lemma {:induction false} HeldUpdate(s: seq<Sector>, i: int, t: Sector, who: Option<int>, item: int)
    requires 0 <= i < |s|
    ensures Held(s[i := t], who, item) == Held(s, who, item) - HeldIn(s[i], who, item) + HeldIn(t, who, item)
  {
    hide HeldIn;
    var rest := s[..|s| - 1];
    if i == |s| - 1 {
      assert s[i := t][..|s| - 1] == rest;
    } else {
      assert s[i := t][..|s| - 1] == rest[i := t];
      HeldUpdate(rest, i, t, who, item);
    }
  }

  // ---------------------------------------------------------------------------------------------
  // The map from coordinates to sectors
  // ---------------------------------------------------------------------------------------------

  function PosOfSector(s: Sector): Pos {
    Pos(s.x, s.y)
  }

  /** cmap finds every sector by its coordinates; no two sectors share theirs. */
  ghost predicate Indexed(sectors: seq<Sector>, cmap: map<Pos, int>) {
    (forall p :: p in cmap ==> 0 <= cmap[p] < |sectors| && PosOfSector(sectors[cmap[p]]) == p)
    && forall i :: 0 <= i < |sectors| ==> PosOfSector(sectors[i]) in cmap && cmap[PosOfSector(sectors[i])] == i
  }

  ghost predicate DistinctPlaces(sectors: seq<Sector>) {
    forall i, j :: 0 <= i < j < |sectors| ==> PosOfSector(sectors[i]) != PosOfSector(sectors[j])
  }

  method BuildCoordMap(sectors: seq<Sector>) returns (cmap: map<Pos, int>)
    requires DistinctPlaces(sectors)
    ensures Indexed(sectors, cmap)
  {
    cmap := map[];
    for i := 0 to |sectors|
      invariant forall p :: p in cmap ==> 0 <= cmap[p] < i && PosOfSector(sectors[cmap[p]]) == p
      invariant forall k :: 0 <= k < i ==> PosOfSector(sectors[k]) in cmap && cmap[PosOfSector(sectors[k])] == k
    {
      cmap := cmap[PosOfSector(sectors[i]) := i];
    }
  }
}
