/** Commodities moving from one sector to another. */
module Shipments {
  import opened Basics
  import opened Hex
  import opened Game
  import opened Haulage
  import Rounding

  /** amount units of item leave one sector for another; payer gives up mobility. */
  datatype Shipment = Shipment(src: int, dst: int, payer: int, item: int, amount: int, used: int)

  function Laden(s: Sector, item: int, d: int, used: int): Sector
    requires 0 <= item < |s.items|
  {
    AddItem(s, item, d).(mobil := s.mobil - used)
  }

  /** A shipment that leaves the source with what it must keep and overfills nobody. */
  ghost predicate Fits(s: seq<Sector>, h: Shipment) {
    0 <= h.src < |s| && 0 <= h.dst < |s| && h.src != h.dst && 0 <= h.item < ITEMS
    && Stocked(s[h.src]) && Stocked(s[h.dst]) && s[h.src].own == s[h.dst].own
    && 0 < h.amount <= s[h.src].items[h.item] && s[h.dst].items[h.item] + h.amount <= ITEM_MAX
    && (h.payer == h.src || h.payer == h.dst)
    && 0 <= h.used && (h.used > 0 ==> h.used <= s[h.payer].mobil)
  }

  function Shipped(s: seq<Sector>, h: Shipment): (r: seq<Sector>)
    requires 0 <= h.src < |s| && 0 <= h.dst < |s| && h.src != h.dst
    requires 0 <= h.item < |s[h.src].items| && h.item < |s[h.dst].items|
    ensures |r| == |s|
  {
    s[h.src := Laden(s[h.src], h.item, -h.amount, if h.payer == h.src then h.used else 0)]
     [h.dst := Laden(s[h.dst], h.item, h.amount, if h.payer == h.dst then h.used else 0)]
  }

  /** Only stocks and mobility changed; no stock is negative or newly above the limit, and mobility is
      only spent while there is some. */
  ghost predicate Kept(a: Sector, b: Sector) {
    b == a.(items := b.items, mobil := b.mobil)
    && Stocked(a) && Stocked(b)
    && (forall k :: 0 <= k < ITEMS ==> b.items[k] <= a.items[k] || b.items[k] <= ITEM_MAX)
    && (a.mobil >= 0 ==> 0 <= b.mobil <= a.mobil) && (a.mobil < 0 ==> b.mobil == a.mobil)
  }

  ghost predicate AllKept(a: seq<Sector>, b: seq<Sector>) {
    |a| == |b| && forall i :: 0 <= i < |a| ==> Kept(a[i], b[i])
  }

  lemma {:induction false} KeptChain(a: Sector, b: Sector, c: Sector)
    requires Kept(a, b) && Kept(b, c)
    ensures Kept(a, c)
  {}

  lemma {:induction false} ThresholdKept(a: Sector, b: Sector)
    requires Kept(a, b)
    ensures b.threshold == a.threshold
  {}

  lemma {:induction false} AllKeptChain(a: seq<Sector>, b: seq<Sector>, c: seq<Sector>)
    requires AllKept(a, b) && AllKept(b, c)
    ensures AllKept(a, c)
  {
    hide Kept;
    forall i | 0 <= i < |a|
      ensures Kept(a[i], c[i])
    {
      KeptChain(a[i], b[i], c[i]);
    }
  }

  ghost predicate AllStocked(s: seq<Sector>) {
    forall i :: 0 <= i < |s| ==> Stocked(s[i])
  }

  /** No addition saturates: what leaves one sector arrives in the other. */
  lemma {:induction false} ShipmentKeeps(s: seq<Sector>, h: Shipment)
    requires AllStocked(s) && Fits(s, h)
    ensures AllKept(s, Shipped(s, h)) && AllStocked(Shipped(s, h))
    ensures Shipped(s, h)[h.src].items == s[h.src].items[h.item := s[h.src].items[h.item] - h.amount]
    ensures Shipped(s, h)[h.dst].items == s[h.dst].items[h.item := s[h.dst].items[h.item] + h.amount]
  {}

  /** A shipment changes no nation's total, and no total of the world. */
  lemma {:induction false} ShipmentConserves(s: seq<Sector>, h: Shipment, who: Option<int>, item: int)
    requires AllStocked(s) && Fits(s, h)
    ensures Held(Shipped(s, h), who, item) == Held(s, who, item)
  {
    var a := Laden(s[h.src], h.item, -h.amount, if h.payer == h.src then h.used else 0);
    var b := Laden(s[h.dst], h.item, h.amount, if h.payer == h.dst then h.used else 0);
    HeldUpdate(s, h.src, a, who, item);
    HeldUpdate(s[h.src := a], h.dst, b, who, item);
  }

  /** Nothing any nation, or the world, holds has changed. */
  ghost predicate SameHeld(a: seq<Sector>, b: seq<Sector>) {
    forall who, item :: Held(a, who, item) == Held(b, who, item)
  }

  lemma {:induction false} SameHeldAfter(s: seq<Sector>, h: Shipment)
    requires AllStocked(s) && Fits(s, h)
    ensures SameHeld(s, Shipped(s, h))
  {
    hide Held, Shipped;
    forall who, item
      ensures Held(s, who, item) == Held(Shipped(s, h), who, item)
    {
      ShipmentConserves(s, h, who, item);
    }
  }

  lemma {:induction false} SameHeldChain(a: seq<Sector>, b: seq<Sector>, c: seq<Sector>)
    requires SameHeld(a, b) && SameHeld(b, c)
    ensures SameHeld(a, c)
  {
    hide Held;
    forall who, item
      ensures Held(a, who, item) == Held(c, who, item)
    {
      assert Held(a, who, item) == Held(b, who, item);
    }
  }

  // ---------------------------------------------------------------------------------------------
  // Which shipment
  // ---------------------------------------------------------------------------------------------

  /** Sectors found by their coordinates, with stocks and thresholds as they should be. */
  ghost predicate Ready(s: seq<Sector>, cmap: map<Pos, int>) {
    Indexed(s, cmap) && AllStocked(s) && forall i :: 0 <= i < |s| ==> Ordered(s[i])
  }

  lemma {:induction false} ReadyKept(a: seq<Sector>, b: seq<Sector>, cmap: map<Pos, int>)
    requires Ready(a, cmap) && AllKept(a, b)
    ensures Ready(b, cmap)
  {
    forall i | 0 <= i < |b|
      ensures PosOfSector(b[i]) == PosOfSector(a[i]) && Ordered(b[i])
    {
      assert Kept(a[i], b[i]) && Ordered(a[i]);
    }
  }

  function Idle(s: Sector): bool {
    s.own == 0 || IsWater(s.sectorType) || IsSanct(s.sectorType)
  }

  function MobOf(s: Sector): nat {
    if s.mobil > 0 then s.mobil else 0
  }

  function RoomAt(s: Sector, item: int): nat
    requires 0 <= item < |s.items|
  {
    if s.items[item] < ITEM_MAX then ITEM_MAX - s.items[item] else 0
  }

  function HaulBy(s: Sector, want: nat, item: int, cost: real, bonus: real): (int, int)
    requires cost > 0.0 && bonus > 0.0
  {
    Haul(want, MobOf(s), Weight(item), cost, PackMult(s.sectorType, item, s.effic), bonus)
  }

  /** What is held above the threshold, as a 16-bit difference: above 32767 it wraps around to less than
      nothing. */
  function Surplus(have: int, threshold: int): int {
    Rounding.AsI16(have - threshold)
  }

  lemma {:induction false} SurplusIs(have: int, threshold: int)
    requires 0 <= have <= I16_MAX && I16_MIN <= threshold < have
    ensures Surplus(have, threshold) == if have - threshold <= I16_MAX then have - threshold
              else have - threshold - 65536
    ensures Surplus(have, threshold) > 0 <==> have - threshold <= I16_MAX
  {
    if have - threshold <= I16_MAX {
      Rounding.FitsI16(have - threshold);
    }
  }

  /** What src sends to dst of what it holds above its threshold. */
  function Outgoing(s: seq<Sector>, src: int, dst: int, item: int, cost: real, bonus: real): Option<Shipment>
    requires 0 <= src < |s| && 0 <= dst < |s| && 0 <= item < ITEMS && cost > 0.0 && bonus > 0.0
    requires |s[src].items| == |s[dst].items| == ITEMS && |s[src].threshold| == ITEMS
  {
    var have, threshold := s[src].items[item], s[src].threshold[item];
    if have <= threshold || Surplus(have, threshold) <= 0 then None
    else
      var (amount, used) := HaulBy(s[src], Surplus(have, threshold), item, cost, bonus);
      var room := RoomAt(s[dst], item);
      var actual := if amount < room then amount else room;
      if actual <= 0 then None else Some(Shipment(src, dst, src, item, actual, used))
  }

  /** What dst, which pays, fetches from src to get up to its threshold. */
  function Incoming(s: seq<Sector>, src: int, dst: int, item: int, cost: real, bonus: real): Option<Shipment>
    requires 0 <= src < |s| && 0 <= dst < |s| && 0 <= item < ITEMS && cost > 0.0 && bonus > 0.0
    requires |s[src].items| == |s[dst].items| == ITEMS && |s[dst].threshold| == ITEMS
  {
    var have, threshold, available := s[dst].items[item], s[dst].threshold[item], s[src].items[item];
    if have >= threshold || available <= 0 then None
    else
      var want := if threshold - have < available then threshold - have else available;
      var (amount, used) := HaulBy(s[dst], want, item, cost, bonus);
      var room := RoomAt(s[dst], item);
      var actual := if amount < room then amount else room;
      if actual <= 0 then None else Some(Shipment(src, dst, dst, item, actual, used))
  }

  /** One more unit would cost more mobility than the sector has. */
  ghost predicate OutOfReach(s: Sector, more: int, item: int, cost: real, bonus: real)
    requires cost > 0.0 && bonus > 0.0
  {
    more as real * UnitCost(Weight(item), cost, PackMult(s.sectorType, item, s.effic), bonus) > MobOf(s) as real
  }

  /** An outgoing shipment keeps the threshold at its source, and stops only there, at a full
      destination, or for want of mobility. */
  lemma {:induction false} OutgoingFits(s: seq<Sector>, src: int, dst: int, item: int, cost: real, bonus: real)
    requires AllStocked(s) && 0 <= src < |s| && 0 <= dst < |s| && src != dst && s[src].own == s[dst].own
    requires 0 <= item < ITEMS && cost > 0.0 && bonus > 0.0 && Ordered(s[src])
    ensures var r := Outgoing(s, src, dst, item, cost, bonus);
            var sent := if r.Some? then r.value.amount else 0;
            (r.Some? ==> Fits(s, r.value) && s[src].items[item] - sent >= s[src].threshold[item])
            && (s[src].items[item] - sent <= s[src].threshold[item] || s[dst].items[item] + sent >= ITEM_MAX
                || OutOfReach(s[src], sent + 1, item, cost, bonus))
  {
    hide UnitCost, PackMult, Weight, Haul, Surplus;
    if s[src].items[item] > s[src].threshold[item] {
      SurplusIs(s[src].items[item], s[src].threshold[item]);
      var want := s[src].items[item] - s[src].threshold[item];
      var pack := PackMult(s[src].sectorType, item, s[src].effic);
      var (amount, used) := HaulBy(s[src], want, item, cost, bonus);
      HaulIsGreatest(want, MobOf(s[src]), Weight(item), cost, pack, bonus, amount + 1);
    }
  }

  /** An incoming shipment never passes the threshold, and stops only there, at an empty source, a full
      destination, or for want of mobility. */
  lemma {:induction false} IncomingFits(s: seq<Sector>, src: int, dst: int, item: int, cost: real, bonus: real)
    requires AllStocked(s) && 0 <= src < |s| && 0 <= dst < |s| && src != dst && s[src].own == s[dst].own
    requires 0 <= item < ITEMS && cost > 0.0 && bonus > 0.0 && Ordered(s[dst])
    ensures var r := Incoming(s, src, dst, item, cost, bonus);
            var got := if r.Some? then r.value.amount else 0;
            (r.Some? ==> Fits(s, r.value) && s[dst].items[item] + got <= s[dst].threshold[item])
            && (s[dst].items[item] + got >= s[dst].threshold[item] || s[dst].items[item] + got >= ITEM_MAX
                || s[src].items[item] - got <= 0 || OutOfReach(s[dst], got + 1, item, cost, bonus))
  {
    hide UnitCost, PackMult, Weight, Haul;
    if s[dst].items[item] < s[dst].threshold[item] && s[src].items[item] > 0 {
      var deficit, available := s[dst].threshold[item] - s[dst].items[item], s[src].items[item];
      var want := if deficit < available then deficit else available;
      var pack := PackMult(s[dst].sectorType, item, s[dst].effic);
      var (amount, used) := HaulBy(s[dst], want, item, cost, bonus);
      HaulIsGreatest(want, MobOf(s[dst]), Weight(item), cost, pack, bonus, amount + 1);
    }
  }

  /** A shipment carries at least d units exactly when the surplus is that much and fits 16 bits, and both the
      room at the destination and the mobility allow d units. */
  lemma {:induction false} SendsAtLeastIff(s: seq<Sector>, src: int, dst: int, item: int, cost: real, bonus: real,
                                           d: int)
    requires AllStocked(s) && 0 <= src < |s| && 0 <= dst < |s| && src != dst && d >= 1
    requires 0 <= item < ITEMS && cost > 0.0 && bonus > 0.0
    requires |s[src].threshold| == ITEMS && I16_MIN <= s[src].threshold[item] <= I16_MAX
    ensures var r := Outgoing(s, src, dst, item, cost, bonus);
            r.Some? && r.value.amount >= d
            <==> d <= s[src].items[item] - s[src].threshold[item] <= I16_MAX && RoomAt(s[dst], item) >= d
                 && !OutOfReach(s[src], d, item, cost, bonus)
  {
    hide UnitCost, PackMult, Weight, Haul, Surplus;
    var have, threshold := s[src].items[item], s[src].threshold[item];
    if have > threshold {
      SurplusIs(have, threshold);
      if have - threshold <= I16_MAX {
        var pack := PackMult(s[src].sectorType, item, s[src].effic);
        var (amount, used) := HaulBy(s[src], have - threshold, item, cost, bonus);
        HaulIsGreatest(have - threshold, MobOf(s[src]), Weight(item), cost, pack, bonus, d);
        MulOrder(d as real, amount as real, UnitCost(Weight(item), cost, pack, bonus));
        assert OutOfReach(s[src], d, item, cost, bonus)
               <==> d as real * UnitCost(Weight(item), cost, pack, bonus) > MobOf(s[src]) as real;
        if d <= have - threshold {
          assert amount >= d <==> !OutOfReach(s[src], d, item, cost, bonus);
        }
      }
    }
  }

  /** A shipment takes more from its source than is there exactly when the threshold is negative, the
      difference to it still fits 16 bits, and both the room at the destination and the mobility allow one
      unit more than there is. */
  lemma {:induction false} OverdrawnIff(s: seq<Sector>, src: int, dst: int, item: int, cost: real, bonus: real)
    requires AllStocked(s) && 0 <= src < |s| && 0 <= dst < |s| && src != dst
    requires 0 <= item < ITEMS && cost > 0.0 && bonus > 0.0
    requires |s[src].threshold| == ITEMS && I16_MIN <= s[src].threshold[item] <= I16_MAX
    ensures var have, threshold := s[src].items[item], s[src].threshold[item];
            var r := Outgoing(s, src, dst, item, cost, bonus);
            r.Some? && r.value.amount > have
            <==> threshold < 0 && have - threshold <= I16_MAX && RoomAt(s[dst], item) > have
                 && !OutOfReach(s[src], have + 1, item, cost, bonus)
  {
    SendsAtLeastIff(s, src, dst, item, cost, bonus, s[src].items[item] + 1);
    hide Outgoing, OutOfReach;
  }

  /** Such a shipment leaves the source with less than nothing, by just what it was overdrawn. */
  lemma {:induction false} OverdrawnIsNegative(s: seq<Sector>, src: int, dst: int, item: int, cost: real, bonus: real)
    requires AllStocked(s) && 0 <= src < |s| && 0 <= dst < |s| && src != dst
    requires 0 <= item < ITEMS && cost > 0.0 && bonus > 0.0
    requires |s[src].threshold| == ITEMS && I16_MIN <= s[src].threshold[item] <= I16_MAX
    requires var r := Outgoing(s, src, dst, item, cost, bonus); r.Some? && r.value.amount > s[src].items[item]
    ensures var h := Outgoing(s, src, dst, item, cost, bonus).value;
            Shipped(s, h)[src].items[item] == s[src].items[item] - h.amount < 0
            && Shipped(s, h)[dst].items[item] == s[dst].items[item] + h.amount
  {
    hide HaulBy, Surplus;
  }

  /** No sector sends more than it has unless its threshold is negative; an empty sector with all its
      mobility does for every negative threshold but the least. */
  lemma {:induction false} EmptySectorOverdraws(s: seq<Sector>, src: int, dst: int, item: int)
    requires AllStocked(s) && 0 <= src < |s| && 0 <= dst < |s| && src != dst && 0 <= item < ITEMS
    requires |s[src].threshold| == ITEMS && -I16_MAX <= s[src].threshold[item] < 0
    requires s[src].items[item] == 0 && s[src].mobil == 127 && s[dst].items[item] < ITEM_MAX
    ensures var r := Outgoing(s, src, dst, item, 1.0, DELIVER_BONUS);
            r.Some? && Shipped(s, r.value)[src].items[item] < 0
  {
    hide UnitCost, PackMult, Weight, Outgoing, Shipped;
    OverdrawnIff(s, src, dst, item, 1.0, DELIVER_BONUS);
    OneUnitIsCheap(Weight(item), PackMult(s[src].sectorType, item, s[src].effic), DELIVER_BONUS);
    OverdrawnIsNegative(s, src, dst, item, 1.0, DELIVER_BONUS);
  }

  /** What an outgoing shipment is charged: the whole part of what its whole surplus would cost, or all
      the mobility; the room at the destination, which may cut it short, makes no difference. It is carried
      for nothing exactly when the surplus would cost less than one point. */
  lemma {:induction false} OutgoingCharge(s: seq<Sector>, src: int, dst: int, item: int, cost: real, bonus: real)
    requires AllStocked(s) && 0 <= src < |s| && 0 <= dst < |s| && src != dst
    requires 0 <= item < ITEMS && cost > 0.0 && bonus > 0.0 && Ordered(s[src])
    requires Outgoing(s, src, dst, item, cost, bonus).Some?
    ensures var h := Outgoing(s, src, dst, item, cost, bonus).value;
            IsCharge(s[src], s[src].items[item] - s[src].threshold[item], item, cost, bonus, h.used)
            && h.amount == Smaller(HaulBy(s[src], s[src].items[item] - s[src].threshold[item], item, cost, bonus).0,
                                 RoomAt(s[dst], item))
  {
    hide UnitCost, PackMult, Weight, Haul, Surplus;
    SurplusIs(s[src].items[item], s[src].threshold[item]);
    var want := s[src].items[item] - s[src].threshold[item];
    ChargeIs(want, MobOf(s[src]), Weight(item), cost, PackMult(s[src].sectorType, item, s[src].effic), bonus);
  }

  /** The same of an incoming shipment, and of what the destination wants and the source has. */
  lemma {:induction false} IncomingCharge(s: seq<Sector>, src: int, dst: int, item: int, cost: real, bonus: real)
    requires AllStocked(s) && 0 <= src < |s| && 0 <= dst < |s| && src != dst
    requires 0 <= item < ITEMS && cost > 0.0 && bonus > 0.0 && Ordered(s[dst])
    requires Incoming(s, src, dst, item, cost, bonus).Some?
    ensures var h := Incoming(s, src, dst, item, cost, bonus).value;
            var want := Smaller(s[dst].threshold[item] - s[dst].items[item], s[src].items[item]);
            want > 0 && IsCharge(s[dst], want, item, cost, bonus, h.used)
            && h.amount == Smaller(HaulBy(s[dst], want, item, cost, bonus).0, RoomAt(s[dst], item))
  {
    hide UnitCost, PackMult, Weight, Haul;
    var want := Smaller(s[dst].threshold[item] - s[dst].items[item], s[src].items[item]);
    ChargeIs(want, MobOf(s[dst]), Weight(item), cost, PackMult(s[dst].sectorType, item, s[dst].effic), bonus);
  }

  /** The charge for what a sector wants to move, however much of it moves. */
  ghost predicate IsCharge(s: Sector, want: int, item: int, cost: real, bonus: real, used: int)
    requires cost > 0.0 && bonus > 0.0
  {
    var full := want as real * UnitCost(Weight(item), cost, PackMult(s.sectorType, item, s.effic), bonus);
    used == (if full <= MobOf(s) as real then full.Floor else MobOf(s)) && (used == 0 <==> full < 1.0)
  }

  lemma {:induction false} OneUnitIsCheap(weight: int, pack: int, bonus: real)
    requires 1 <= weight <= 50 && pack >= 1 && bonus >= DELIVER_BONUS
    ensures UnitCost(weight, 1.0, pack, bonus) <= 127.0
  {
    var m := pack as real * bonus;
    assert m >= bonus;
    var u := UnitCost(weight, 1.0, pack, bonus);
    assert u * m == weight as real;
    MulOrder(u, 127.0, m);
  }

  /** The sectors after a shipment, if there is one. */
  function After(s: seq<Sector>, h: Option<Shipment>): (r: seq<Sector>)
    requires AllStocked(s) && (h.Some? ==> Fits(s, h.value))
    ensures |r| == |s| && AllKept(s, r)
  {
    if h == None then s
    else
      ShipmentKeeps(s, h.value);
      Shipped(s, h.value)
  }

  lemma {:induction false} AfterKeeps(s: seq<Sector>, h: Option<Shipment>)
    requires AllStocked(s) && (h.Some? ==> Fits(s, h.value))
    ensures SameHeld(s, After(s, h))
  {
    hide Held;
    if h.Some? {
      SameHeldAfter(s, h.value);
    }
  }

  lemma {:induction false} ReadyIsStocked(s: seq<Sector>, cmap: map<Pos, int>)
    requires Ready(s, cmap)
    ensures AllStocked(s)
  {}

  /** Carries out a shipment. */
  method Ship(sectors: array<Sector>, h: Shipment)
    requires AllStocked(sectors[..]) && Fits(sectors[..], h)
    modifies sectors
    ensures sectors[..] == Shipped(old(sectors[..]), h)
  {
    sectors[h.src] := AddItem(sectors[h.src], h.item, -h.amount);
    sectors[h.payer] := sectors[h.payer].(mobil := sectors[h.payer].mobil - h.used);
    sectors[h.dst] := AddItem(sectors[h.dst], h.item, h.amount);
  }
}
