/** Market prices: folding the orders of one type, and bucketing all orders of a citadel
    by type in one pass. */
module Prices {
  const I64_MAX := 0x7FFF_FFFF_FFFF_FFFF
  const I64_MIN := -0x8000_0000_0000_0000

  datatype Best = NoOffer | Offer(price: real)

  datatype Order = Order(id: int, typeId: int, location: int, isBuy: bool, volume: int, price: real)

  datatype Aggregate = Aggregate(bestSell: Best, bestBuy: Best, sellVolume: int, buyVolume: int)

  const NO_ORDERS := Aggregate(NoOffer, NoOffer, 0, 0)

  function SaturatingAdd(a: int, b: int): int {
    if a + b > I64_MAX then I64_MAX else if a + b < I64_MIN then I64_MIN else a + b
  }

  function Lower(best: Best, price: real): Best {
    if best.Offer? && best.price <= price then best else Offer(price)
  }

  function Higher(best: Best, price: real): Best {
    if best.Offer? && best.price >= price then best else Offer(price)
  }

  function Count(acc: Aggregate, o: Order): Aggregate {
    if o.isBuy
    then acc.(buyVolume := SaturatingAdd(acc.buyVolume, o.volume), bestBuy := Higher(acc.bestBuy, o.price))
    else acc.(sellVolume := SaturatingAdd(acc.sellVolume, o.volume), bestSell := Lower(acc.bestSell, o.price))
  }

  /** The simple form: one order after the other. */
  function Fold(orders: seq<Order>): Aggregate {
    if orders == [] then NO_ORDERS else Count(Fold(orders[..|orders| - 1]), orders[|orders| - 1])
  }

  function Select(orders: seq<Order>, wanted: Order -> bool): seq<Order> {
    if orders == [] then [] else
      Select(orders[..|orders| - 1], wanted) + (if wanted(orders[|orders| - 1]) then [orders[|orders| - 1]] else [])
  }

  function HasType(typeId: int): Order -> bool {
    (o: Order) => o.typeId == typeId
  }

  function IsAt(location: int): Order -> bool {
    (o: Order) => o.location == location
  }

  function OfType(orders: seq<Order>, typeId: int): seq<Order> {
    Select(orders, HasType(typeId))
  }

  function At(orders: seq<Order>, location: int): seq<Order> {
    Select(orders, IsAt(location))
  }

  function IdsOf(orders: seq<Order>): set<int> {
    set o | o in orders :: o.id
  }

  /** The first order under each id. */
  function Dedup(orders: seq<Order>): seq<Order> {
    if orders == [] then [] else
      var init, last := orders[..|orders| - 1], orders[|orders| - 1];
      if last.id in IdsOf(init) then Dedup(init) else Dedup(init) + [last]
  }

  lemma SelectSnoc(orders: seq<Order>, o: Order, wanted: Order -> bool)
    ensures Select(orders + [o], wanted) == if wanted(o) then Select(orders, wanted) + [o] else Select(orders, wanted)
  {
  }

  lemma FoldSnoc(orders: seq<Order>, o: Order)
    ensures Fold(orders + [o]) == Count(Fold(orders), o)
  {
  }

  lemma DedupSnoc(orders: seq<Order>, o: Order)
    ensures Dedup(orders + [o]) == if o.id in IdsOf(orders) then Dedup(orders) else Dedup(orders) + [o]
  {
  }

  // ── The loops ─────────────────────────────────────────────────────────────

  method CountOrder(acc: Aggregate, o: Order) returns (after: Aggregate)
    ensures after == Count(acc, o)
  {
    after := acc;
    if o.isBuy {
      var volume := SaturatingAdd(acc.buyVolume, o.volume);
      var best := o.price;
      if acc.bestBuy.Offer? && acc.bestBuy.price > best {
        best := acc.bestBuy.price;
      }
      after := after.(buyVolume := volume, bestBuy := Offer(best));
    } else {
      var volume := SaturatingAdd(acc.sellVolume, o.volume);
      var best := o.price;
      if acc.bestSell.Offer? && acc.bestSell.price < best {
        best := acc.bestSell.price;
      }
      after := after.(sellVolume := volume, bestSell := Offer(best));
    }
  }

  /** A single type: the orders at the market's location. */
  method RefreshOne(orders: seq<Order>, location: int) returns (acc: Aggregate)
    ensures acc == Fold(At(orders, location))
  {
    acc := NO_ORDERS;
    for i := 0 to |orders|
      invariant acc == Fold(At(orders[..i], location))
    {
      assert orders[..i + 1] == orders[..i] + [orders[i]];
      SelectSnoc(orders[..i], orders[i], IsAt(location));
      if orders[i].location == location {
        FoldSnoc(At(orders[..i], location), orders[i]);
        acc := CountOrder(acc, orders[i]);
      }
    }
    assert orders[..|orders|] == orders;
  }

  /** The buckets after some orders: what is missing has no orders yet. */
  ghost predicate Bucketed(byType: map<int, Aggregate>, wanted: set<int>, orders: seq<Order>) {
    && byType.Keys <= wanted
    && forall t | t in wanted :: (if t in byType then byType[t] else NO_ORDERS) == Fold(OfType(orders, t))
  }

  lemma UnwantedKeepsBuckets(byType: map<int, Aggregate>, wanted: set<int>, orders: seq<Order>, o: Order)
    requires Bucketed(byType, wanted, orders) && o.typeId !in wanted
    ensures Bucketed(byType, wanted, orders + [o])
  {
    forall t | t in wanted
      ensures OfType(orders + [o], t) == OfType(orders, t)
    {
      SelectSnoc(orders, o, HasType(t));
    }
  }

  lemma WantedFillsBucket(byType: map<int, Aggregate>, wanted: set<int>, orders: seq<Order>, o: Order)
    requires Bucketed(byType, wanted, orders) && o.typeId in wanted
    ensures Bucketed(byType[o.typeId := Count(if o.typeId in byType then byType[o.typeId] else NO_ORDERS, o)],
                     wanted, orders + [o])
  {
    forall t | t in wanted
      ensures Fold(OfType(orders + [o], t)) == if t == o.typeId then Count(Fold(OfType(orders, t)), o) else Fold(OfType(orders, t))
    {
      SelectSnoc(orders, o, HasType(t));
      FoldSnoc(OfType(orders, t), o);
    }
  }

  /** One pass over all orders: repeats are skipped, wanted types are counted. */
  method Bucket(orders: seq<Order>, wanted: set<int>) returns (byType: map<int, Aggregate>)
    ensures Bucketed(byType, wanted, Dedup(orders))
  {
    hide Bucketed, Dedup, Count;
    var seen: set<int> := {};
    byType := map[];
    NoBuckets(wanted);
    for i := 0 to |orders|
      invariant seen == IdsOf(orders[..i])
      invariant Bucketed(byType, wanted, Dedup(orders[..i]))
    {
      var o := orders[i];
      assert orders[..i + 1] == orders[..i] + [o];
      DedupSnoc(orders[..i], o);
      if o.id in seen {
        assert IdsOf(orders[..i + 1]) == seen;
        continue;
      }
      seen := seen + {o.id};
      if o.typeId !in wanted {
        UnwantedKeepsBuckets(byType, wanted, Dedup(orders[..i]), o);
        continue;
      }
      WantedFillsBucket(byType, wanted, Dedup(orders[..i]), o);
      var acc := CountOrder(if o.typeId in byType then byType[o.typeId] else NO_ORDERS, o);
      byType := byType[o.typeId := acc];
    }
    assert orders[..|orders|] == orders;
  }

  lemma NoBuckets(wanted: set<int>)
    ensures Bucketed(map[], wanted, Dedup([]))
  {
  }

  /** Every requested type gets a row, and it is the simple fold over its distinct orders;
      a type without orders gets an empty row. */
  method RefreshCitadel(orders: seq<Order>, typeIds: seq<int>) returns (aggregates: map<int, Aggregate>)
    ensures forall t :: t in aggregates <==> t in typeIds
    ensures forall t | t in typeIds :: aggregates[t] == Fold(OfType(Dedup(orders), t))
  {
    hide Fold, Dedup, OfType;
    var wanted := set t | t in typeIds;
    var byType := Bucket(orders, wanted);
    aggregates := map[];
    for i := 0 to |typeIds|
      invariant forall t :: t in aggregates <==> t in typeIds[..i]
      invariant forall t | t in aggregates :: aggregates[t] == Fold(OfType(Dedup(orders), t))
    {
      var t := typeIds[i];
      aggregates := aggregates[t := if t in byType then byType[t] else NO_ORDERS];
    }
  }

  // ── What an aggregate means ───────────────────────────────────────────────

  lemma {:induction false} DedupKeepsIds(orders: seq<Order>)
    ensures IdsOf(Dedup(orders)) == IdsOf(orders)
    ensures forall i, j | 0 <= i < j < |Dedup(orders)| :: Dedup(orders)[i].id != Dedup(orders)[j].id
    ensures forall o | o in Dedup(orders) :: o in orders
    decreases |orders|
  {
    if orders != [] {
      var init, last := orders[..|orders| - 1], orders[|orders| - 1];
      DedupKeepsIds(init);
      assert orders == init + [last];
      assert IdsOf(orders) == IdsOf(init) + {last.id};
      assert IdsOf(Dedup(init) + [last]) == IdsOf(Dedup(init)) + {last.id};
      assert forall o | o in Dedup(init) :: o.id in IdsOf(Dedup(init));
    }
  }

  /** What is kept is the first order under each id. */
  lemma {:induction false} DedupKeepsFirst(orders: seq<Order>, o: Order)
    ensures o in Dedup(orders) <==>
            exists i | 0 <= i < |orders| :: orders[i] == o && forall j | 0 <= j < i :: orders[j].id != o.id
    decreases |orders|
  {
    if orders != [] {
      var init, last := orders[..|orders| - 1], orders[|orders| - 1];
      DedupKeepsFirst(init, o);
      assert forall i | 0 <= i < |init| :: orders[i] == init[i];
      assert last.id in IdsOf(init) <==> exists j | 0 <= j < |init| :: init[j].id == last.id;
    }
  }

  /** An order that repeats an earlier id, on whatever later page, changes nothing. */
  lemma {:induction false} RepeatsDoNotMatter(before: seq<Order>, repeated: Order, after: seq<Order>)
    requires repeated.id in IdsOf(before)
    ensures Dedup(before + [repeated] + after) == Dedup(before + after)
    decreases |after|
  {
    if after == [] {
      assert before + [repeated] + after == before + [repeated] && before + after == before;
      DedupSnoc(before, repeated);
    } else {
      var init, last := after[..|after| - 1], after[|after| - 1];
      RepeatsDoNotMatter(before, repeated, init);
      assert before + [repeated] + after == (before + [repeated] + init) + [last];
      assert before + after == (before + init) + [last];
      assert IdsOf(before + [repeated] + init) == IdsOf(before + init);
      DedupSnoc(before + [repeated] + init, last);
      DedupSnoc(before + init, last);
    }
  }

  ghost predicate IsLowest(best: Best, orders: seq<Order>) {
    match best
    case NoOffer => forall o | o in orders :: o.isBuy
    case Offer(price) =>
      (exists o | o in orders :: !o.isBuy && o.price == price) && forall o | o in orders && !o.isBuy :: price <= o.price
  }

  ghost predicate IsHighest(best: Best, orders: seq<Order>) {
    match best
    case NoOffer => forall o | o in orders :: !o.isBuy
    case Offer(price) =>
      (exists o | o in orders :: o.isBuy && o.price == price) && forall o | o in orders && o.isBuy :: o.price <= price
  }

  function VolumeOf(orders: seq<Order>, isBuy: bool): int {
    if orders == [] then 0 else
      VolumeOf(orders[..|orders| - 1], isBuy)
      + (if orders[|orders| - 1].isBuy == isBuy then orders[|orders| - 1].volume else 0)
  }

  function Clip(volume: int): int {
    if volume < I64_MAX then volume else I64_MAX
  }

  lemma {:induction false} FoldIsBest(orders: seq<Order>)
    ensures IsLowest(Fold(orders).bestSell, orders) && IsHighest(Fold(orders).bestBuy, orders)
    decreases |orders|
  {
    if orders != [] {
      var init, last := orders[..|orders| - 1], orders[|orders| - 1];
      FoldIsBest(init);
      assert orders == init + [last];
      BestSnoc(init, last);
    }
  }

  lemma BestSnoc(orders: seq<Order>, last: Order)
    requires IsLowest(Fold(orders).bestSell, orders) && IsHighest(Fold(orders).bestBuy, orders)
    ensures IsLowest(Count(Fold(orders), last).bestSell, orders + [last])
    ensures IsHighest(Count(Fold(orders), last).bestBuy, orders + [last])
  {
  }

  lemma {:induction false} FoldIsVolume(orders: seq<Order>)
    requires forall o | o in orders :: o.volume >= 0
    ensures Fold(orders).sellVolume == Clip(VolumeOf(orders, false)) && VolumeOf(orders, false) >= 0
    ensures Fold(orders).buyVolume == Clip(VolumeOf(orders, true)) && VolumeOf(orders, true) >= 0
    decreases |orders|
  {
    if orders != [] {
      assert orders[|orders| - 1] in orders;
      FoldIsVolume(orders[..|orders| - 1]);
    }
  }

  /** No running total of a side leaves the range of 64-bit integers. */
  ghost predicate StaysInRange(orders: seq<Order>, isBuy: bool) {
    forall n | 0 <= n <= |orders| :: I64_MIN <= VolumeOf(orders[..n], isBuy) <= I64_MAX
  }

  lemma {:induction false} FoldIsExact(orders: seq<Order>)
    ensures StaysInRange(orders, false) ==> Fold(orders).sellVolume == VolumeOf(orders, false)
    ensures StaysInRange(orders, true) ==> Fold(orders).buyVolume == VolumeOf(orders, true)
    decreases |orders|
  {
    if orders != [] {
      hide Lower, Higher;
      var init := orders[..|orders| - 1];
      FoldIsExact(init);
      assert forall n | 0 <= n <= |init| :: init[..n] == orders[..n];
      assert orders[..|orders|] == orders;
    }
  }

  lemma {:induction false} SelectedOrders(orders: seq<Order>, wanted: Order -> bool)
    ensures forall o :: o in Select(orders, wanted) <==> o in orders && wanted(o)
    decreases |orders|
  {
    if orders != [] {
      SelectedOrders(orders[..|orders| - 1], wanted);
      assert orders == orders[..|orders| - 1] + [orders[|orders| - 1]];
    }
  }

  /** The row of a type: the cheapest sell and dearest buy among the distinct orders of the
      type, and their volumes, exact while they fit in 64 bits; volumes that are not negative
      stop at the largest 64-bit integer. */
  lemma CitadelRowMeans(orders: seq<Order>, typeId: int)
    ensures var distinct := OfType(Dedup(orders), typeId); var row := Fold(distinct);
            && (forall o :: o in distinct <==>
                  o.typeId == typeId && exists i | 0 <= i < |orders| :: orders[i] == o && forall j | 0 <= j < i :: orders[j].id != o.id)
            && IsLowest(row.bestSell, distinct) && IsHighest(row.bestBuy, distinct)
            && (StaysInRange(distinct, false) ==> row.sellVolume == VolumeOf(distinct, false))
            && (StaysInRange(distinct, true) ==> row.buyVolume == VolumeOf(distinct, true))
            && ((forall o | o in distinct :: o.volume >= 0) ==>
                  && row.sellVolume == Clip(VolumeOf(distinct, false))
                  && row.buyVolume == Clip(VolumeOf(distinct, true)))
            && ((forall o | o in orders :: o.typeId != typeId) ==> row == NO_ORDERS)
  {
    hide Fold, Dedup, VolumeOf, IsLowest, IsHighest, Select, StaysInRange;
    var distinct := OfType(Dedup(orders), typeId);
    SelectedOrders(Dedup(orders), HasType(typeId));
    DedupKeepsIds(orders);
    forall o
      ensures o in Dedup(orders) <==>
              exists i | 0 <= i < |orders| :: orders[i] == o && forall j | 0 <= j < i :: orders[j].id != o.id
    {
      DedupKeepsFirst(orders, o);
    }
    FoldIsBest(distinct);
    FoldIsExact(distinct);
    if forall o | o in distinct :: o.volume >= 0 {
      FoldIsVolume(distinct);
    }
    if forall o | o in orders :: o.typeId != typeId {
      NothingSelected(Dedup(orders), HasType(typeId));
      FoldOfNone();
    }
  }

  /** The same for a single type at the market's location. */
  lemma LocationRowMeans(orders: seq<Order>, location: int)
    ensures var local := At(orders, location); var row := Fold(local);
            && (forall o :: o in local <==> o in orders && o.location == location)
            && IsLowest(row.bestSell, local) && IsHighest(row.bestBuy, local)
            && (StaysInRange(local, false) ==> row.sellVolume == VolumeOf(local, false))
            && (StaysInRange(local, true) ==> row.buyVolume == VolumeOf(local, true))
            && ((forall o | o in local :: o.volume >= 0) ==>
                  && row.sellVolume == Clip(VolumeOf(local, false))
                  && row.buyVolume == Clip(VolumeOf(local, true)))
  {
    hide Fold, VolumeOf, IsLowest, IsHighest, Select, StaysInRange;
    var local := At(orders, location);
    SelectedOrders(orders, IsAt(location));
    FoldIsBest(local);
    FoldIsExact(local);
    if forall o | o in local :: o.volume >= 0 {
      FoldIsVolume(local);
    }
  }

  lemma {:induction false} NothingSelected(orders: seq<Order>, wanted: Order -> bool)
    requires forall o | o in orders :: !wanted(o)
    ensures Select(orders, wanted) == []
    decreases |orders|
  {
    if orders != [] {
      assert orders[|orders| - 1] in orders;
      NothingSelected(orders[..|orders| - 1], wanted);
    }
  }

  lemma FoldOfNone()
    ensures Fold([]) == NO_ORDERS
  {
  }
}
