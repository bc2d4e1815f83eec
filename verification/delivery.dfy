/** Delivery: sectors send what they hold above their thresholds to a neighbour. */
module Delivery {
  import opened Basics
  import opened Hex
  import opened Game
  import opened Haulage
  import opened Shipments

  lemma {:induction false} StepMoves(w: World, p: Pos, d: int)
    requires w.Valid() && 1 <= d <= 6
    ensures Step(w, p, d) != p
  {
    var a := DirOff(d).0;
    assert a != 0 && -2 <= a <= 2;
    if 0 <= p.x < w.wx {
      var v := p.x + a;
      assert Wrap(v, w.wx) == if v < 0 then v + w.wx else if v >= w.wx then v - w.wx else v;
    }
  }

  /** The sector that sector i delivers an item to, if it has a neighbour of the same owner there. */
  function DeliverTo(w: World, s: seq<Sector>, cmap: map<Pos, int>, i: int, item: int): (r: Option<int>)
    requires w.Valid() && Ready(s, cmap) && 0 <= i < |s| && 0 <= item < ITEMS
    ensures r.Some? ==> 0 <= r.value < |s| && r.value != i && s[r.value].own == s[i].own
  {
    var dir := s[i].path[item] % 8;
    if dir == 0 || dir == 7 then None
    else
      var q := Step(w, PosOfSector(s[i]), dir);
      StepMoves(w, PosOfSector(s[i]), dir);
      if q !in cmap || s[cmap[q]].own != s[i].own then None else Some(cmap[q])
  }

  /** What sector i delivers of an item. */
  function DeliveryOf(w: World, s: seq<Sector>, cmap: map<Pos, int>, i: int, item: int): (r: Option<Shipment>)
    requires w.Valid() && Ready(s, cmap) && 0 <= i < |s| && 0 <= item < ITEMS
    ensures r.Some? ==> Fits(s, r.value)
  {
    var to := DeliverTo(w, s, cmap, i, item);
    if to == None then None
    else
      OutgoingFits(s, i, to.value, item, 1.0, DELIVER_BONUS);
      Outgoing(s, i, to.value, item, 1.0, DELIVER_BONUS)
  }

  /** Sector i has delivered its first n items. */
  function ItemsDelivered(w: World, s: seq<Sector>, cmap: map<Pos, int>, i: int, n: nat): (r: seq<Sector>)
    requires w.Valid() && Ready(s, cmap) && 0 <= i < |s| && n <= ITEMS
    ensures AllKept(s, r) && Ready(r, cmap)
    decreases n
  {
    if n == 0 then s
    else
      var prev := ItemsDelivered(w, s, cmap, i, n - 1);
      var next := After(prev, DeliveryOf(w, prev, cmap, i, n - 1));
      AllKeptChain(s, prev, next);
      ReadyKept(s, next, cmap);
      next
  }

  /** The first n sectors have delivered; those that are unowned, at sea or sanctuaries do not. */
  function Delivered(w: World, s: seq<Sector>, cmap: map<Pos, int>, n: nat): (r: seq<Sector>)
    requires w.Valid() && Ready(s, cmap) && n <= |s|
    ensures AllKept(s, r) && Ready(r, cmap)
    decreases n
  {
    if n == 0 then s
    else
      var prev := Delivered(w, s, cmap, n - 1);
      if Idle(prev[n - 1]) then prev
      else
        var next := ItemsDelivered(w, prev, cmap, n - 1, ITEMS);
        AllKeptChain(s, prev, next);
        next
  }

  /** Nobody's stock dropped below the lesser of what it was and its threshold. */
  ghost predicate Spares(a: seq<Sector>, b: seq<Sector>) {
    |a| == |b| && forall i :: 0 <= i < |a| ==> Spared(a[i], b[i])
  }

  ghost predicate Spared(a: Sector, b: Sector) {
    |a.items| == |b.items| == |a.threshold| == ITEMS && b.threshold == a.threshold
    && forall k :: 0 <= k < ITEMS ==> b.items[k] >= a.items[k] || b.items[k] >= a.threshold[k]
  }

  /** A shipment that leaves the threshold at its source. */
  lemma {:induction false} ShipmentSpares(s: seq<Sector>, h: Shipment)
    requires AllStocked(s) && Fits(s, h) && Ordered(s[h.src]) && (forall i :: 0 <= i < |s| ==> Ordered(s[i]))
    requires s[h.src].items[h.item] - h.amount >= s[h.src].threshold[h.item]
    ensures Spares(s, Shipped(s, h))
  {
    ShipmentKeeps(s, h);
    hide Kept, SatAdd;
    var t := Shipped(s, h);
    forall i | 0 <= i < |s|
      ensures Spared(s[i], t[i])
    {
      assert Stocked(s[i]) && Ordered(s[i]) && Kept(s[i], t[i]);
      ThresholdKept(s[i], t[i]);
    }
  }

  lemma {:induction false} DeliverySpares(w: World, s: seq<Sector>, cmap: map<Pos, int>, i: int, item: int)
    requires w.Valid() && Ready(s, cmap) && 0 <= i < |s| && 0 <= item < ITEMS
    ensures Spares(s, After(s, DeliveryOf(w, s, cmap, i, item)))
  {
    var to := DeliverTo(w, s, cmap, i, item);
    hide Spares, DeliverTo, HaulBy, Indexed, Shipped, Fits;
    var h := DeliveryOf(w, s, cmap, i, item);
    if h.Some? {
      OutgoingFits(s, i, to.value, item, 1.0, DELIVER_BONUS);
      ShipmentSpares(s, h.value);
    } else {
      NothingChanged(s, cmap);
    }
  }

  lemma {:induction false} SparesChain(a: seq<Sector>, b: seq<Sector>, c: seq<Sector>)
    requires Spares(a, b) && Spares(b, c)
    ensures Spares(a, c)
  {
    forall i | 0 <= i < |a|
      ensures Spared(a[i], c[i])
    {
      assert Spared(a[i], b[i]) && Spared(b[i], c[i]);
    }
  }

  lemma {:induction false} ItemsDeliveredKeep(w: World, s: seq<Sector>, cmap: map<Pos, int>, i: int, n: nat)
    requires w.Valid() && Ready(s, cmap) && 0 <= i < |s| && n <= ITEMS
    ensures SameHeld(s, ItemsDelivered(w, s, cmap, i, n)) && Spares(s, ItemsDelivered(w, s, cmap, i, n))
  {
    hide SameHeld, Spares, After, DeliveryOf, Kept, Indexed, AllStocked, Ordered;
    if n == 0 {
      NothingChanged(s, cmap);
    } else {
      var prev := ItemsDelivered(w, s, cmap, i, n - 1);
      ItemsDeliveredKeep(w, s, cmap, i, n - 1);
      DeliverySpares(w, prev, cmap, i, n - 1);
      AfterKeeps(prev, DeliveryOf(w, prev, cmap, i, n - 1));
      SparesChain(s, prev, ItemsDelivered(w, s, cmap, i, n));
      SameHeldChain(s, prev, ItemsDelivered(w, s, cmap, i, n));
    }
  }

  lemma {:induction false} NothingChanged(s: seq<Sector>, cmap: map<Pos, int>)
    requires Ready(s, cmap)
    ensures SameHeld(s, s) && Spares(s, s) && AllKept(s, s)
  {
    hide Held, Indexed;
    forall i | 0 <= i < |s|
      ensures Spared(s[i], s[i])
    {
      assert Stocked(s[i]) && Ordered(s[i]);
    }
  }

  /** Delivery changes no total, overfills and empties nobody, spends only mobility there is, and leaves
      every sector its threshold or what it had. */
  lemma {:induction false} DeliveryKeeps(w: World, s: seq<Sector>, cmap: map<Pos, int>, n: nat)
    requires w.Valid() && Ready(s, cmap) && n <= |s|
    ensures SameHeld(s, Delivered(w, s, cmap, n)) && Spares(s, Delivered(w, s, cmap, n))
    ensures AllKept(s, Delivered(w, s, cmap, n))
  {
    hide SameHeld, Spares, ItemsDelivered, Kept, Indexed, AllStocked, Ordered;
    if n == 0 {
      NothingChanged(s, cmap);
    } else {
      var prev := Delivered(w, s, cmap, n - 1);
      DeliveryKeeps(w, s, cmap, n - 1);
      if !Idle(prev[n - 1]) {
        ItemsDeliveredKeep(w, prev, cmap, n - 1, ITEMS);
        SparesChain(s, prev, Delivered(w, s, cmap, n));
        SameHeldChain(s, prev, Delivered(w, s, cmap, n));
      }
    }
  }

  method DeliverItems(w: World, sectors: array<Sector>, cmap: map<Pos, int>, i: int)
    requires w.Valid() && Ready(sectors[..], cmap) && 0 <= i < sectors.Length
    modifies sectors
    ensures sectors[..] == ItemsDelivered(w, old(sectors[..]), cmap, i, ITEMS)
  {
    hide Ready, DeliveryOf, Fits, AllKept;
    ghost var s := sectors[..];
    for item := 0 to ITEMS
      invariant sectors[..] == ItemsDelivered(w, s, cmap, i, item)
    {
      var h := DeliveryOf(w, sectors[..], cmap, i, item);
      if h.Some? {
        ReadyIsStocked(sectors[..], cmap);
        Ship(sectors, h.value);
      }
    }
  }

  /** Every sector in turn delivers to its neighbours. */
  method DoDeliver(w: World, sectors: array<Sector>, cmap: map<Pos, int>)
    requires w.Valid() && Ready(sectors[..], cmap)
    modifies sectors
    ensures sectors[..] == Delivered(w, old(sectors[..]), cmap, sectors.Length)
  {
    hide Ready, ItemsDelivered, AllKept;
    ghost var s := sectors[..];
    for i := 0 to sectors.Length
      invariant sectors[..] == Delivered(w, s, cmap, i)
    {
      if !Idle(sectors[i]) {
        DeliverItems(w, sectors, cmap, i);
      }
    }
  }
}
