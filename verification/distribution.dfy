/** Distribution: sectors export to and import from the distribution centre they are assigned to. */
module Distribution {
  import opened Basics
  import opened Hex
  import opened Game
  import opened Dijkstra
  import opened Haulage
  import opened Shipments

  datatype Group = Group(own: int, centre: Pos)

  datatype Way = Export | Import

  /** The sector has a threshold to distribute by. */
  predicate TakesPart(s: Sector)
    requires |s.threshold| == ITEMS
  {
    !Idle(s) && exists k :: 0 <= k < ITEMS && s.threshold[k] != 0
  }

  function GroupOf(s: Sector): Group {
    Group(s.own, Pos(s.distX, s.distY))
  }

  // ---------------------------------------------------------------------------------------------
  // Between stock and threshold
  // ---------------------------------------------------------------------------------------------

  /** b lies between a and the threshold; without a threshold nothing moves. */
  ghost predicate Between(a: int, b: int, threshold: int) {
    if threshold == 0 then b == a else a <= b <= threshold || threshold <= b <= a
  }

  ghost predicate Approaches(a: Sector, b: Sector) {
    |a.items| == |b.items| == |a.threshold| == ITEMS && b.threshold == a.threshold
    && forall k :: 0 <= k < ITEMS ==> Between(a.items[k], b.items[k], a.threshold[k])
  }

  /** Only sectors of the set `only` and the centre ci change, and the former approach their thresholds. */
  ghost predicate Traded(a: seq<Sector>, b: seq<Sector>, ci: int, only: set<int>) {
    AllKept(a, b) && SameHeld(a, b)
    && forall i :: 0 <= i < |a| && i != ci ==> if i in only then Approaches(a[i], b[i]) else b[i] == a[i]
  }

  lemma {:induction false} TradedChain(a: seq<Sector>, b: seq<Sector>, c: seq<Sector>, ci: int, some: set<int>,
                                       all: set<int>)
    requires Traded(a, b, ci, some) && Traded(b, c, ci, all) && some <= all
    requires forall i :: 0 <= i < |a| ==> Stocked(a[i]) && Ordered(a[i])
    ensures Traded(a, c, ci, all)
  {
    hide Kept, SameHeld;
    AllKeptChain(a, b, c);
    SameHeldChain(a, b, c);
    forall i | 0 <= i < |a| && i != ci
      ensures if i in all then Approaches(a[i], c[i]) else c[i] == a[i]
    {
      assert if i in some then Approaches(a[i], b[i]) else b[i] == a[i];
      assert if i in all then Approaches(b[i], c[i]) else c[i] == b[i];
    }
  }

  lemma {:induction false} NoTrade(a: seq<Sector>, ci: int, all: set<int>)
    requires forall i :: 0 <= i < |a| ==> Stocked(a[i]) && Ordered(a[i])
    ensures Traded(a, a, ci, all)
  {
    hide Held;
  }

  // ---------------------------------------------------------------------------------------------
  // One group
  // ---------------------------------------------------------------------------------------------

  /** What moves between member si and centre ci, at a cost per unit of distance in thousandths. */
  function TradeOf(s: seq<Sector>, cmap: map<Pos, int>, si: int, ci: int, item: int, cost: int,
                   way: Way): (r: Option<Shipment>)
    requires Ready(s, cmap) && 0 <= si < |s| && 0 <= ci < |s| && si != ci && s[si].own == s[ci].own
    requires 0 <= item < ITEMS && cost > 0
    ensures r.Some? ==> Fits(s, r.value)
  {
    var price := cost as real / 1000.0;
    if s[si].threshold[item] == 0 then None
    else if way == Export then
      OutgoingFits(s, si, ci, item, price, DIST_BONUS);
      Outgoing(s, si, ci, item, price, DIST_BONUS)
    else
      IncomingFits(s, ci, si, item, price, DIST_BONUS);
      Incoming(s, ci, si, item, price, DIST_BONUS)
  }

  /** A shipment between si and ci that takes si toward its threshold. */
  lemma {:induction false} ShipmentApproaches(s: seq<Sector>, h: Shipment, si: int, ci: int)
    requires AllStocked(s) && Fits(s, h) && 0 <= si < |s| && Ordered(s[si])
    requires (h.src == si && h.dst == ci) || (h.src == ci && h.dst == si)
    requires var had := s[si].items[h.item];
             Between(had, if h.src == si then had - h.amount else had + h.amount, s[si].threshold[h.item])
    ensures Traded(s, Shipped(s, h), ci, {si})
  {
    hide SameHeld, Kept, SatAdd;
    SameHeldAfter(s, h);
    ShipmentKeeps(s, h);
    assert Stocked(s[si]);
    assert Kept(s[si], Shipped(s, h)[si]);
    ThresholdKept(s[si], Shipped(s, h)[si]);
  }

  lemma {:induction false} TradeKeeps(s: seq<Sector>, cmap: map<Pos, int>, si: int, ci: int, item: int, cost: int,
                                      way: Way)
    requires Ready(s, cmap) && 0 <= si < |s| && 0 <= ci < |s| && si != ci && s[si].own == s[ci].own
    requires 0 <= item < ITEMS && cost > 0
    ensures Traded(s, After(s, TradeOf(s, cmap, si, ci, item, cost, way)), ci, {si})
  {
    hide Traded, Indexed, HaulBy;
    var h := TradeOf(s, cmap, si, ci, item, cost, way);
    if h.Some? {
      var price := cost as real / 1000.0;
      OutgoingFits(s, si, ci, item, price, DIST_BONUS);
      IncomingFits(s, ci, si, item, price, DIST_BONUS);
      ShipmentApproaches(s, h.value, si, ci);
    } else {
      NoTrade(s, ci, {si});
    }
  }

  /** How many more units take a centre past its own threshold. */
  function ToPass(s: Sector, item: int): (d: int)
    requires |s.items| == |s.threshold| == ITEMS && 0 <= item < ITEMS
    ensures d >= 1 && (s.items[item] >= s.threshold[item] ==> d == 1)
  {
    if s.items[item] >= s.threshold[item] then 1 else s.threshold[item] - s.items[item] + 1
  }

  /** The centre's own threshold does not hold an export back: one takes the centre past it exactly when the member
      has that much to spare, and the centre's room and the member's mobility allow that much. */
  lemma {:induction false} CentrePassesIff(s: seq<Sector>, cmap: map<Pos, int>, si: int, ci: int, item: int, cost: int)
    requires Ready(s, cmap) && 0 <= si < |s| && 0 <= ci < |s| && si != ci && s[si].own == s[ci].own
    requires 0 <= item < ITEMS && cost > 0
    ensures var h, d := TradeOf(s, cmap, si, ci, item, cost, Export), ToPass(s[ci], item);
            h.Some? && s[ci].items[item] + h.value.amount > s[ci].threshold[item]
            <==> s[si].threshold[item] != 0 && s[si].items[item] - s[si].threshold[item] >= d
                 && RoomAt(s[ci], item) >= d && !OutOfReach(s[si], d, item, cost as real / 1000.0, DIST_BONUS)
  {
    SendsAtLeastIff(s, si, ci, item, cost as real / 1000.0, DIST_BONUS, ToPass(s[ci], item));
    hide Outgoing, OutOfReach, RoomAt, Indexed;
    assert Stocked(s[si]) && Ordered(s[si]) && Stocked(s[ci]) && Ordered(s[ci]);
  }

  /** A centre that holds just its threshold is carried past it, away from it, by whatever a member next to it with
      all its mobility has to spare. */
  lemma {:induction false} FullCentrePasses(s: seq<Sector>, cmap: map<Pos, int>, si: int, ci: int, item: int)
    requires Ready(s, cmap) && 0 <= si < |s| && 0 <= ci < |s| && si != ci && s[si].own == s[ci].own
    requires 0 <= item < ITEMS && s[si].mobil == 127 && s[si].items[item] > s[si].threshold[item] > 0
    requires 0 < s[ci].items[item] == s[ci].threshold[item] < ITEM_MAX
    ensures var h := TradeOf(s, cmap, si, ci, item, 1000, Export);
            h.Some? && After(s, h)[ci].items[item] > s[ci].threshold[item] && !Approaches(s[ci], After(s, h)[ci])
  {
    CentrePassesIff(s, cmap, si, ci, item, 1000);
    OneUnitIsCheap(Weight(item), PackMult(s[si].sectorType, item, s[si].effic), DIST_BONUS);
    hide HaulBy, Surplus, Kept, PackMult, Weight, UnitCost;
    var h := TradeOf(s, cmap, si, ci, item, 1000, Export);
    ShipmentKeeps(s, h.value);
    assert Kept(s[ci], Shipped(s, h.value)[ci]);
    ThresholdKept(s[ci], Shipped(s, h.value)[ci]);
  }

  /** Member si has traded its first n items. */
  function ItemsTraded(s: seq<Sector>, cmap: map<Pos, int>, si: int, ci: int, cost: int, way: Way,
                       n: nat): (r: seq<Sector>)
    requires Ready(s, cmap) && 0 <= si < |s| && 0 <= ci < |s| && si != ci && s[si].own == s[ci].own
    requires n <= ITEMS && cost > 0
    ensures AllKept(s, r) && Ready(r, cmap)
    decreases n
  {
    if n == 0 then s
    else
      var prev := ItemsTraded(s, cmap, si, ci, cost, way, n - 1);
      OwnersKept(s, prev, si, ci);
      var next := After(prev, TradeOf(prev, cmap, si, ci, n - 1, cost, way));
      AllKeptChain(s, prev, next);
      ReadyKept(s, next, cmap);
      next
  }

  lemma {:induction false} OwnersKept(a: seq<Sector>, b: seq<Sector>, i: int, j: int)
    requires AllKept(a, b) && 0 <= i < |a| && 0 <= j < |a|
    ensures b[i].own == a[i].own && b[j].own == a[j].own
    ensures PosOfSector(b[i]) == PosOfSector(a[i]) && GroupOf(b[i]) == GroupOf(a[i])
  {
    assert Kept(a[i], b[i]) && Kept(a[j], b[j]);
  }

  lemma {:induction false} ItemsTradedKeep(s: seq<Sector>, cmap: map<Pos, int>, si: int, ci: int, cost: int, way: Way,
                                           n: nat)
    requires Ready(s, cmap) && 0 <= si < |s| && 0 <= ci < |s| && si != ci && s[si].own == s[ci].own
    requires n <= ITEMS && cost > 0
    ensures Traded(s, ItemsTraded(s, cmap, si, ci, cost, way, n), ci, {si})
  {
    hide Traded, After, TradeOf, Kept, Indexed;
    if n == 0 {
      NoTrade(s, ci, {si});
    } else {
      var prev := ItemsTraded(s, cmap, si, ci, cost, way, n - 1);
      ItemsTradedKeep(s, cmap, si, ci, cost, way, n - 1);
      OwnersKept(s, prev, si, ci);
      TradeKeeps(prev, cmap, si, ci, n - 1, cost, way);
      TradedChain(s, prev, ItemsTraded(s, cmap, si, ci, cost, way, n), ci, {si}, {si});
    }
  }

  /** All members are sectors of the centre's owner. */
  ghost predicate Members(s: seq<Sector>, ci: int, members: seq<int>) {
    0 <= ci < |s| && forall k :: 0 <= k < |members| ==> 0 <= members[k] < |s| && s[members[k]].own == s[ci].own
  }

  lemma {:induction false} MembersKept(a: seq<Sector>, b: seq<Sector>, ci: int, members: seq<int>)
    requires Members(a, ci, members) && AllKept(a, b)
    ensures Members(b, ci, members)
  {
    forall k | 0 <= k < |members|
      ensures b[members[k]].own == b[ci].own
    {
      OwnersKept(a, b, members[k], ci);
    }
  }

  /** The first n members have traded; the centre, and members it cannot reach, do not. */
  function Passed(s: seq<Sector>, cmap: map<Pos, int>, dist: map<Pos, int>, ci: int, members: seq<int>, n: nat,
                  way: Way): (r: seq<Sector>)
    requires Ready(s, cmap) && Members(s, ci, members) && n <= |members|
    ensures AllKept(s, r) && Ready(r, cmap)
    decreases n
  {
    if n == 0 then s
    else
      var prev := Passed(s, cmap, dist, ci, members, n - 1, way);
      MembersKept(s, prev, ci, members);
      var next := MemberTraded(prev, cmap, dist, ci, members[n - 1], way);
      AllKeptChain(s, prev, next);
      next
  }

  function MemberTraded(s: seq<Sector>, cmap: map<Pos, int>, dist: map<Pos, int>, ci: int, si: int,
                        way: Way): (r: seq<Sector>)
    requires Ready(s, cmap) && 0 <= si < |s| && 0 <= ci < |s| && s[si].own == s[ci].own
    ensures AllKept(s, r) && Ready(r, cmap)
  {
    var p := PosOfSector(s[si]);
    if si != ci && p in dist && dist[p] > 0 then ItemsTraded(s, cmap, si, ci, dist[p], way, ITEMS) else s
  }

  ghost function Firsts<T>(all: seq<T>, n: nat): set<T>
    requires n <= |all|
  {
    set k | 0 <= k < n :: all[k]
  }

  lemma {:induction false} PassKeeps(s: seq<Sector>, cmap: map<Pos, int>, dist: map<Pos, int>, ci: int,
                                     members: seq<int>, n: nat, way: Way)
    requires Ready(s, cmap) && Members(s, ci, members) && n <= |members|
    ensures Traded(s, Passed(s, cmap, dist, ci, members, n, way), ci, Firsts(members, n))
  {
    hide Traded, ItemsTraded, AllKept, Indexed;
    if n == 0 {
      NoTrade(s, ci, {});
      assert Firsts(members, 0) == {};
    } else {
      var prev := Passed(s, cmap, dist, ci, members, n - 1, way);
      PassKeeps(s, cmap, dist, ci, members, n - 1, way);
      MembersKept(s, prev, ci, members);
      MemberKeeps(prev, cmap, dist, ci, members[n - 1], way, Firsts(members, n));
      TradedChain(s, prev, Passed(s, cmap, dist, ci, members, n, way), ci, Firsts(members, n - 1), Firsts(members, n));
    }
  }

  lemma {:induction false} MemberKeeps(s: seq<Sector>, cmap: map<Pos, int>, dist: map<Pos, int>, ci: int, si: int,
                                       way: Way, all: set<int>)
    requires Ready(s, cmap) && 0 <= si < |s| && 0 <= ci < |s| && s[si].own == s[ci].own && si in all
    ensures Traded(s, MemberTraded(s, cmap, dist, ci, si, way), ci, all)
  {
    hide Traded, ItemsTraded, Kept, Indexed;
    NoTrade(s, ci, all);
    NoTrade(s, ci, {si});
    var p := PosOfSector(s[si]);
    if si != ci && p in dist && dist[p] > 0 {
      ItemsTradedKeep(s, cmap, si, ci, dist[p], way, ITEMS);
      var r := ItemsTraded(s, cmap, si, ci, dist[p], way, ITEMS);
      NoTrade(r, ci, all);
      TradedChain(s, r, r, ci, {si}, all);
    }
  }

  /** Export first, then import. */
  function GroupTraded(s: seq<Sector>, cmap: map<Pos, int>, dist: map<Pos, int>, ci: int,
                       members: seq<int>): (r: seq<Sector>)
    requires Ready(s, cmap) && Members(s, ci, members)
    ensures AllKept(s, r) && Ready(r, cmap)
  {
    var mid := Passed(s, cmap, dist, ci, members, |members|, Export);
    MembersKept(s, mid, ci, members);
    var end := Passed(mid, cmap, dist, ci, members, |members|, Import);
    AllKeptChain(s, mid, end);
    end
  }

  /** A group's members, other than its centre, end between what they had and their thresholds. */
  lemma {:induction false} GroupKeeps(s: seq<Sector>, cmap: map<Pos, int>, dist: map<Pos, int>, ci: int,
                                      members: seq<int>)
    requires Ready(s, cmap) && Members(s, ci, members)
    ensures Traded(s, GroupTraded(s, cmap, dist, ci, members), ci, Firsts(members, |members|))
  {
    hide Traded, Passed, Kept, Indexed;
    var n, all := |members|, Firsts(members, |members|);
    var mid := Passed(s, cmap, dist, ci, members, n, Export);
    PassKeeps(s, cmap, dist, ci, members, n, Export);
    MembersKept(s, mid, ci, members);
    PassKeeps(mid, cmap, dist, ci, members, n, Import);
    TradedChain(s, mid, GroupTraded(s, cmap, dist, ci, members), ci, all, all);
  }

  // ---------------------------------------------------------------------------------------------
  // All groups
  // ---------------------------------------------------------------------------------------------

  /** A list of rising numbers below n, so each is there once. */
  ghost predicate Rising(list: seq<int>, n: int) {
    (forall j, k :: 0 <= j < k < |list| ==> list[j] < list[k]) && forall k :: 0 <= k < |list| ==> list[k] < n
  }

  ghost predicate RisingLists(groups: map<Group, seq<int>>, n: int) {
    forall g :: g in groups ==> |groups[g]| > 0 && Rising(groups[g], n)
  }

  /** groups lists the sectors that take part by owner and centre, each once. */
  ghost predicate GroupsAre(s: seq<Sector>, groups: map<Group, seq<int>>) {
    (forall i :: 0 <= i < |s| ==> Ordered(s[i]))
    && (forall g, k :: g in groups && 0 <= k < |groups[g]| ==> Belongs(s, groups[g][k], g))
    && RisingLists(groups, |s|)
    && (forall i :: 0 <= i < |s| && TakesPart(s[i]) ==> GroupOf(s[i]) in groups && i in groups[GroupOf(s[i])])
  }

  ghost predicate Belongs(s: seq<Sector>, i: int, g: Group) {
    0 <= i < |s| && |s[i].threshold| == ITEMS && TakesPart(s[i]) && GroupOf(s[i]) == g
  }

  /** The group's centre exists and belongs to the group's owner. */
  predicate HasCentre(s: seq<Sector>, cmap: map<Pos, int>, g: Group)
    requires Indexed(s, cmap)
  {
    g.centre in cmap && s[cmap[g.centre]].own == g.own
  }

  /** b is what the group makes of a, going by the least costs of reaching its members. */
  ghost predicate GroupDone(w: World, a: seq<Sector>, b: seq<Sector>, cmap: map<Pos, int>, g: Group, members: seq<int>)
    requires w.Valid() && Ready(a, cmap)
  {
    if HasCentre(a, cmap, g) then
      Members(a, cmap[g.centre], members)
      && exists dist :: LeastCosts(w, a, cmap, g.own, g.centre, dist)
                        && b == GroupTraded(a, cmap, dist, cmap[g.centre], members)
    else b == a
  }

  /** trace holds the sectors before, between and after the groups, taken in the given order. */
  ghost predicate IsRun(w: World, cmap: map<Pos, int>, groups: map<Group, seq<int>>, order: seq<Group>,
                        trace: seq<seq<Sector>>)
    requires w.Valid()
  {
    |trace| == |order| + 1
    && (forall i, j :: 0 <= i < j < |order| ==> order[i] != order[j])
    && forall k :: 0 <= k < |order| ==>
         order[k] in groups && Ready(trace[k], cmap)
         && GroupDone(w, trace[k], trace[k + 1], cmap, order[k], groups[order[k]])
  }

  /** Somebody distributes through sector i. */
  ghost predicate IsHub(s: seq<Sector>, i: int)
    requires 0 <= i < |s|
  {
    exists k :: Belongs(s, k, Group(s[i].own, PosOfSector(s[i])))
  }

  /** What the groups in done have made of sector i of s. */
  ghost predicate DoneSoFar(s: seq<Sector>, t: seq<Sector>, i: int, done: set<Group>)
    requires 0 <= i < |s| == |t| && |s[i].threshold| == ITEMS
  {
    if TakesPart(s[i]) && GroupOf(s[i]) in done then Approaches(s[i], t[i]) else t[i] == s[i]
  }

  /** One group of a run. */
  lemma {:induction false} OneGroupKeeps(w: World, s: seq<Sector>, a: seq<Sector>, b: seq<Sector>, cmap: map<Pos, int>,
                      groups: map<Group, seq<int>>, g: Group, done: set<Group>)
    requires w.Valid() && Ready(s, cmap) && Ready(a, cmap) && GroupsAre(s, groups) && g in groups && g !in done
    requires AllKept(s, a) && SameHeld(s, a)
    requires forall i :: 0 <= i < |s| && !IsHub(s, i) ==> DoneSoFar(s, a, i, done)
    requires GroupDone(w, a, b, cmap, g, groups[g])
    ensures AllKept(s, b) && SameHeld(s, b)
    ensures forall i :: 0 <= i < |s| && !IsHub(s, i) ==> DoneSoFar(s, b, i, done + {g})
  {
    hide SameHeld, Kept, GroupTraded, Approaches, LeastCosts, TakesPart;
    if HasCentre(a, cmap, g) {
      var ci, members := cmap[g.centre], groups[g];
      var dist :| LeastCosts(w, a, cmap, g.own, g.centre, dist) && b == GroupTraded(a, cmap, dist, ci, members);
      GroupKeeps(a, cmap, dist, ci, members);
      AllKeptChain(s, a, b);
      SameHeldChain(s, a, b);
      OwnersKept(s, a, ci, ci);
      assert Belongs(s, members[0], g);
      assert IsHub(s, ci);
      forall i | 0 <= i < |s| && !IsHub(s, i)
        ensures DoneSoFar(s, b, i, done + {g})
      {
        assert i != ci && DoneSoFar(s, a, i, done);
        MembershipIs(s, groups, g, i);
      }
    } else {
      forall i | 0 <= i < |s| && !IsHub(s, i)
        ensures DoneSoFar(s, b, i, done + {g})
      {
        assert DoneSoFar(s, a, i, done);
        assert Ordered(s[i]) && Stocked(s[i]);
        StaysPut(s[i]);
      }
    }
  }

  lemma {:induction false} StaysPut(s: Sector)
    requires Stocked(s) && Ordered(s)
    ensures Approaches(s, s)
  {}

  lemma {:induction false} MembershipIs(s: seq<Sector>, groups: map<Group, seq<int>>, g: Group, i: int)
    requires GroupsAre(s, groups) && g in groups && 0 <= i < |s|
    ensures i in Firsts(groups[g], |groups[g]|) <==> TakesPart(s[i]) && GroupOf(s[i]) == g
  {
    hide TakesPart;
    if i in groups[g] {
      var k :| 0 <= k < |groups[g]| && groups[g][k] == i;
      assert Belongs(s, groups[g][k], g);
    }
  }

  /** Distribution in any order of the groups: no total changes, no stock is overdrawn or overfilled, only
      mobility there is gets spent, and a sector that is nobody's centre ends between the stocks it had
      and its thresholds; one that takes no part keeps everything. */
  lemma {:induction false} DistributionKeeps(w: World, cmap: map<Pos, int>, groups: map<Group, seq<int>>,
                                             order: seq<Group>, trace: seq<seq<Sector>>, n: nat)
    requires w.Valid() && IsRun(w, cmap, groups, order, trace) && n <= |order|
    requires Ready(trace[0], cmap) && GroupsAre(trace[0], groups)
    ensures AllKept(trace[0], trace[n]) && SameHeld(trace[0], trace[n])
    ensures var s := trace[0];
            forall i :: 0 <= i < |s| && !IsHub(s, i) ==> DoneSoFar(s, trace[n], i, Firsts(order, n))
  {
    hide SameHeld, Kept, Approaches, TakesPart, GroupDone, Indexed, AllStocked, Ordered, IsHub;
    var s := trace[0];
    if n == 0 {
      Untouched(s, cmap);
      assert Firsts(order, 0) == {};
    } else {
      DistributionKeeps(w, cmap, groups, order, trace, n - 1);
      var done := Firsts(order, n - 1);
      assert Firsts(order, n) == done + {order[n - 1]};
      OneGroupKeeps(w, s, trace[n - 1], trace[n], cmap, groups, order[n - 1], done);
    }
  }

  lemma {:induction false} Untouched(s: seq<Sector>, cmap: map<Pos, int>)
    requires Ready(s, cmap)
    ensures AllKept(s, s) && SameHeld(s, s)
    ensures forall i, done :: 0 <= i < |s| && Ordered(s[i]) ==> DoneSoFar(s, s, i, done)
  {
    hide Held;
  }

  // ---------------------------------------------------------------------------------------------
  // Methods
  // ---------------------------------------------------------------------------------------------

  /** Sorts the sectors that take part into groups. */
  method CollectGroups(s: seq<Sector>) returns (groups: map<Group, seq<int>>)
    requires forall i :: 0 <= i < |s| ==> Ordered(s[i])
    ensures GroupsAre(s, groups)
  {
    hide TakesPart, Rising;
    groups := map[];
    for i := 0 to |s|
      invariant GroupsUpTo(s, groups, i)
    {
      assert Ordered(s[i]);
      if TakesPart(s[i]) {
        Enlisted(s, groups, i);
        var g := GroupOf(s[i]);
        groups := groups[g := (if g in groups then groups[g] else []) + [i]];
      } else {
        StillGrouped(s, groups, i);
      }
    }
  }

  ghost predicate GroupsUpTo(s: seq<Sector>, groups: map<Group, seq<int>>, n: nat) {
    n <= |s| && (forall i :: 0 <= i < |s| ==> Ordered(s[i]))
    && (forall g, k :: g in groups && 0 <= k < |groups[g]| ==> Belongs(s, groups[g][k], g))
    && RisingLists(groups, n)
    && (forall i :: 0 <= i < n && TakesPart(s[i]) ==> GroupOf(s[i]) in groups && i in groups[GroupOf(s[i])])
  }

  lemma {:induction false} StillGrouped(s: seq<Sector>, groups: map<Group, seq<int>>, i: nat)
    requires GroupsUpTo(s, groups, i) && i < |s| && !TakesPart(s[i])
    ensures GroupsUpTo(s, groups, i + 1)
  {
    assert RisingLists(groups, i + 1);
    hide TakesPart, RisingLists;
  }

  lemma {:induction false} RisingListsNext(groups: map<Group, seq<int>>, g: Group, i: int)
    requires RisingLists(groups, i)
    ensures RisingLists(groups[g := (if g in groups then groups[g] else []) + [i]], i + 1)
  {}

  lemma {:induction false} Enlisted(s: seq<Sector>, groups: map<Group, seq<int>>, i: nat)
    requires GroupsUpTo(s, groups, i) && i < |s| && Ordered(s[i]) && TakesPart(s[i])
    ensures var g := GroupOf(s[i]);
            GroupsUpTo(s, groups[g := (if g in groups then groups[g] else []) + [i]], i + 1)
  {
    hide TakesPart, RisingLists;
    var g := GroupOf(s[i]);
    RisingListsNext(groups, g, i);
    var was := if g in groups then groups[g] else [];
    var now := was + [i];
    assert Belongs(s, i, g) && now[|was|] == i;
    forall k | 0 <= k < i + 1 && TakesPart(s[k]) && GroupOf(s[k]) == g
      ensures k in now
    {
      if k < i {
        assert k in was;
      }
    }
  }

  /** One member exports to, or imports from, its centre. */
  method TradeItems(sectors: array<Sector>, cmap: map<Pos, int>, si: int, ci: int, cost: int, way: Way)
    requires Ready(sectors[..], cmap) && 0 <= si < sectors.Length && 0 <= ci < sectors.Length && si != ci
    requires sectors[si].own == sectors[ci].own && cost > 0
    modifies sectors
    ensures sectors[..] == ItemsTraded(old(sectors[..]), cmap, si, ci, cost, way, ITEMS)
  {
    hide Ready, TradeOf, Fits, AllKept;
    ghost var s := sectors[..];
    for item := 0 to ITEMS
      invariant sectors[..] == ItemsTraded(s, cmap, si, ci, cost, way, item)
    {
      OwnersKept(s, sectors[..], si, ci);
      var h := TradeOf(sectors[..], cmap, si, ci, item, cost, way);
      if h.Some? {
        ReadyIsStocked(sectors[..], cmap);
        Ship(sectors, h.value);
      }
    }
  }

  method PassMembers(sectors: array<Sector>, cmap: map<Pos, int>, dist: map<Pos, int>, ci: int, members: seq<int>,
                     way: Way)
    requires Ready(sectors[..], cmap) && Members(sectors[..], ci, members)
    modifies sectors
    ensures sectors[..] == Passed(old(sectors[..]), cmap, dist, ci, members, |members|, way)
  {
    hide Ready, ItemsTraded, AllKept;
    ghost var s := sectors[..];
    for k := 0 to |members|
      invariant sectors[..] == Passed(s, cmap, dist, ci, members, k, way)
    {
      var si := members[k];
      MembersKept(s, sectors[..], ci, members);
      var p := PosOfSector(sectors[si]);
      if si != ci && p in dist && dist[p] > 0 {
        TradeItems(sectors, cmap, si, ci, dist[p], way);
      }
    }
  }

  /** Runs one group: costs from its centre, then exports, then imports. */
  method RunGroup(w: World, sectors: array<Sector>, cmap: map<Pos, int>, g: Group, members: seq<int>)
    requires w.Valid() && Ready(sectors[..], cmap)
    requires HasCentre(sectors[..], cmap, g) ==> Members(sectors[..], cmap[g.centre], members)
    modifies sectors
    ensures GroupDone(w, old(sectors[..]), sectors[..], cmap, g, members)
  {
    hide Indexed, AllStocked, Ordered, Passed, LeastCosts, Members;
    ghost var s := sectors[..];
    var dist := DijkstraDist(w, sectors[..], cmap, g.own, g.centre);
    if HasCentre(sectors[..], cmap, g) {
      var ci := cmap[g.centre];
      PassMembers(sectors, cmap, dist, ci, members, Export);
      MembersKept(s, sectors[..], ci, members);
      PassMembers(sectors, cmap, dist, ci, members, Import);
      assert sectors[..] == GroupTraded(s, cmap, dist, ci, members);
    }
  }

  lemma {:induction false} RunGrows(w: World, cmap: map<Pos, int>, groups: map<Group, seq<int>>, order: seq<Group>,
                                    trace: seq<seq<Sector>>,
                 g: Group, next: seq<Sector>)
    requires w.Valid() && IsRun(w, cmap, groups, order, trace) && g in groups && g !in order
    requires Ready(trace[|order|], cmap) && GroupDone(w, trace[|order|], next, cmap, g, groups[g])
    ensures IsRun(w, cmap, groups, order + [g], trace + [next])
  {
    hide GroupDone, Ready;
    var o, t := order + [g], trace + [next];
    forall k | 0 <= k < |o|
      ensures o[k] in groups && Ready(t[k], cmap) && GroupDone(w, t[k], t[k + 1], cmap, o[k], groups[o[k]])
    {
      if k < |order| {
        assert o[k] == order[k] && t[k] == trace[k] && t[k + 1] == trace[k + 1];
      } else {
        assert t[k] == trace[|order|] && t[k + 1] == next;
      }
    }
  }

  lemma {:induction false} GroupMembers(s: seq<Sector>, a: seq<Sector>, cmap: map<Pos, int>, groups: map<Group,
                                        seq<int>>, g: Group)
    requires Ready(s, cmap) && Ready(a, cmap) && AllKept(s, a) && GroupsAre(s, groups) && g in groups
    ensures HasCentre(a, cmap, g) ==> Members(a, cmap[g.centre], groups[g])
  {
    hide TakesPart;
    if HasCentre(a, cmap, g) {
      forall k | 0 <= k < |groups[g]|
        ensures 0 <= groups[g][k] < |a| && a[groups[g][k]].own == g.own
      {
        assert Belongs(s, groups[g][k], g);
        OwnersKept(s, a, groups[g][k], groups[g][k]);
      }
    }
  }

  /** Runs every group once, in any order. */
  method DoDistribute(w: World, sectors: array<Sector>, cmap: map<Pos, int>)
    returns (ghost groups: map<Group, seq<int>>, ghost order: seq<Group>, ghost trace: seq<seq<Sector>>)
    requires w.Valid() && Ready(sectors[..], cmap)
    modifies sectors
    ensures GroupsAre(old(sectors[..]), groups) && IsRun(w, cmap, groups, order, trace)
    ensures trace[0] == old(sectors[..]) && trace[|order|] == sectors[..]
    ensures forall g :: g in groups <==> g in order
    ensures AllKept(old(sectors[..]), sectors[..]) && SameHeld(old(sectors[..]), sectors[..])
  {
    hide SameHeld, Indexed, AllStocked, Kept, GroupDone, TakesPart;
    ghost var s := sectors[..];
    var found := CollectGroups(sectors[..]);
    groups, order, trace := found, [], [s];
    var todo := found.Keys;
    Untouched(s, cmap);
    while todo != {}
      invariant todo <= found.Keys && forall g :: g in found <==> g in todo || g in order
      invariant forall g :: g in order ==> g !in todo
      invariant IsRun(w, cmap, groups, order, trace) && trace[0] == s && trace[|order|] == sectors[..]
      invariant Ready(sectors[..], cmap) && AllKept(s, sectors[..])
      decreases todo
    {
      var g :| g in todo;
      GroupMembers(s, sectors[..], cmap, groups, g);
      RunGroup(w, sectors, cmap, g, found[g]);
      RunGrows(w, cmap, groups, order, trace, g, sectors[..]);
      GroupDoneKeeps(w, trace[|order|], sectors[..], cmap, g, found[g]);
      AllKeptChain(s, trace[|order|], sectors[..]);
      order, trace := order + [g], trace + [sectors[..]];
      todo := todo - {g};
    }
    DistributionKeeps(w, cmap, groups, order, trace, |order|);
  }

  lemma {:induction false} GroupDoneKeeps(w: World, a: seq<Sector>, b: seq<Sector>, cmap: map<Pos, int>, g: Group,
                                          members: seq<int>)
    requires w.Valid() && Ready(a, cmap) && GroupDone(w, a, b, cmap, g, members)
    ensures AllKept(a, b) && Ready(b, cmap)
  {
    hide SameHeld, Kept, Indexed, AllStocked, Ordered, LeastCosts, Passed;
    Untouched(a, cmap);
  }
}
