/**
 The order-evaluation pipeline: three swappable policies, the step that keeps
 the accepted raw orders of one item and enriches them with that item, and the
 step that renders one message per order.
 */
module Buyer {
  import opened Wrappers
  import opened Market
  import opened Orders
  import opened Iter

  /** The scorer: a signed profitability estimate, higher is better. */
  type Scorer = Order -> i32

  /** The three policy slots. The market client is not held: its response is an input of `GetOrders`. */
  datatype PrimeTrashBuyer = PrimeTrashBuyer(
    filterOrder: RawOrder -> bool,
    getProfitableSum: Scorer,
    getMessage: (Order, Scorer) -> string)

  /**
   The constructor: a supplied filter or scorer is used as given, an absent one
   falls back to the corresponding default; the renderer is always the supplied one.
   */
  function New(
    filterOrder: Option<RawOrder -> bool>,
    getProfitableSum: Option<Scorer>,
    getMessage: (Order, Scorer) -> string,
    defaultFilterOrder: RawOrder -> bool,
    defaultGetProfitableSum: Scorer): (b: PrimeTrashBuyer)
    ensures filterOrder.Some? ==> b.filterOrder == filterOrder.value
    ensures filterOrder.None? ==> b.filterOrder == defaultFilterOrder
    ensures getProfitableSum.Some? ==> b.getProfitableSum == getProfitableSum.value
    ensures getProfitableSum.None? ==> b.getProfitableSum == defaultGetProfitableSum
    ensures b.getMessage == getMessage
  {
    PrimeTrashBuyer(
      filterOrder.UnwrapOr(defaultFilterOrder),
      getProfitableSum.UnwrapOr(defaultGetProfitableSum),
      getMessage)
  }

  /** A raw order converted and given the item it was fetched under. */
  function EnrichOrder(raw: RawOrder, item: ItemsItem): (o: Order)
    ensures ToRaw(o) == raw
    ensures o.item == Some(item)
  {
    FromRaw(raw).(item := Some(item))
  }

  /**
   `get_orders` for one item, given what the fetch of that item's orders
   returned: a failed fetch is passed on unchanged; otherwise the raw orders the
   filter accepts are converted, given `item`, and collected.
   */
  function GetOrders(b: PrimeTrashBuyer, item: ItemsItem, fetched: FetchedOrders): (r: Result<seq<Order>, FetchError>)
    ensures fetched.Err? ==> r == Err(fetched.error)
    ensures fetched.Ok? ==> r.Ok?
    ensures r.Ok? ==> |r.value| <= |fetched.value|
    ensures r.Ok? ==> forall o :: o in r.value ==> o.item == Some(item)
    ensures r.Ok? ==> forall o :: o in r.value ==> ToRaw(o) in fetched.value && b.filterOrder(ToRaw(o))
    ensures fetched.Ok? ==> |r.value| == |AcceptedPositions(fetched.value, b.filterOrder)|
    ensures fetched.Ok? ==> forall k :: 0 <= k < |AcceptedPositions(fetched.value, b.filterOrder)| ==>
              r.value[k] == EnrichOrder(fetched.value[AcceptedPositions(fetched.value, b.filterOrder)[k]], item)
  {
    match fetched
    case Err(e) => Err(e)
    case Ok(raws) =>
      FilterSelectsAcceptedPositions(raws, b.filterOrder);
      Collect(Map(Filter(raws, b.filterOrder), raw => Ok(EnrichOrder(raw, item))))
  }

  /** `get_messages`: the renderer applied to each order, with the scorer passed along. */
  function GetMessages(b: PrimeTrashBuyer, orders: seq<Order>): (msgs: seq<string>)
    ensures |msgs| == |orders|
    ensures forall i :: 0 <= i < |orders| ==> msgs[i] == b.getMessage(orders[i], b.getProfitableSum)
  {
    Map(orders, o => b.getMessage(o, b.getProfitableSum))
  }

  /**
   After a successful fetch the result is, position by position, the enriched
   raw order at each accepted position, in ascending order of position.
   */
  lemma GetOrdersSelectsAccepted(b: PrimeTrashBuyer, item: ItemsItem, raws: seq<RawOrder>)
    ensures GetOrders(b, item, Ok(raws)).Ok?
    ensures |GetOrders(b, item, Ok(raws)).value| == |AcceptedPositions(raws, b.filterOrder)|
    ensures forall k :: 0 <= k < |AcceptedPositions(raws, b.filterOrder)| ==>
              GetOrders(b, item, Ok(raws)).value[k] == EnrichOrder(raws[AcceptedPositions(raws, b.filterOrder)[k]], item)
  {
  }

  /** The result holds one order per raw order the filter accepts. */
  lemma GetOrdersCount(b: PrimeTrashBuyer, item: ItemsItem, raws: seq<RawOrder>)
    ensures GetOrders(b, item, Ok(raws)).Ok?
    ensures |GetOrders(b, item, Ok(raws)).value| == |AcceptedSet(raws, b.filterOrder)|
  {
    FilterLength(raws, b.filterOrder);
  }

  /** No raw orders, or none accepted, give an empty result rather than an error. */
  lemma GetOrdersNoneAccepted(b: PrimeTrashBuyer, item: ItemsItem, raws: seq<RawOrder>)
    requires forall i :: 0 <= i < |raws| ==> !b.filterOrder(raws[i])
    ensures GetOrders(b, item, Ok(raws)) == Ok([])
  {
  }

  /**
   Projected back onto raw fields, the result holds every accepted raw order as
   often as it was fetched, and no rejected one.
   */
  lemma GetOrdersMultiplicity(b: PrimeTrashBuyer, item: ItemsItem, raws: seq<RawOrder>, x: RawOrder)
    ensures GetOrders(b, item, Ok(raws)).Ok?
    ensures multiset(Map(GetOrders(b, item, Ok(raws)).value, ToRaw))[x]
            == if b.filterOrder(x) then multiset(raws)[x] else 0
  {
    var kept := Filter(raws, b.filterOrder);
    var projected := Map(GetOrders(b, item, Ok(raws)).value, ToRaw);
    assert projected == kept;
    FilterMultiplicity(raws, b.filterOrder, x);
  }

  /** Two accepted raw orders appear in the result in the order they were fetched. */
  lemma GetOrdersKeepsRelativeOrder(b: PrimeTrashBuyer, item: ItemsItem, raws: seq<RawOrder>, i: int, j: int)
    requires 0 <= i < j < |raws| && b.filterOrder(raws[i]) && b.filterOrder(raws[j])
    ensures GetOrders(b, item, Ok(raws)).Ok?
    ensures var os := GetOrders(b, item, Ok(raws)).value;
            exists k, l :: 0 <= k < l < |os| && os[k] == EnrichOrder(raws[i], item) && os[l] == EnrichOrder(raws[j], item)
  {
  }

  /** The orders of two fetched batches come out batch by batch. */
  lemma GetOrdersConcat(b: PrimeTrashBuyer, item: ItemsItem, xs: seq<RawOrder>, ys: seq<RawOrder>)
    ensures GetOrders(b, item, Ok(xs + ys)).Ok?
    ensures GetOrders(b, item, Ok(xs + ys)).value
            == GetOrders(b, item, Ok(xs)).value + GetOrders(b, item, Ok(ys)).value
  {
    FilterConcat(xs, ys, b.filterOrder);
  }

  /** Enriching the raw fields of an enriched order again, with the same item, changes nothing. */
  lemma EnrichOrderIdempotent(raw: RawOrder, item: ItemsItem)
    ensures EnrichOrder(ToRaw(EnrichOrder(raw, item)), item) == EnrichOrder(raw, item)
  {
  }

  /** Rendering two batches of orders renders each batch and keeps them in sequence. */
  lemma GetMessagesConcat(b: PrimeTrashBuyer, xs: seq<Order>, ys: seq<Order>)
    ensures GetMessages(b, xs + ys) == GetMessages(b, xs) + GetMessages(b, ys)
  {
  }
}
