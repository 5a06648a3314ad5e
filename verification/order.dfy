/** The enriched order: a raw order's fields plus an optional item. */
module Orders {
  import opened Wrappers
  import opened Market

  /** An order that may carry the item it concerns. */
  datatype Order = Order(
    visible: bool,
    creationDate: string,
    quantity: i32,
    user: User,
    lastUpdate: string,
    platinum: i32,
    orderType: string,
    platform: string,
    id: string,
    region: string,
    item: Option<ItemsItem>)

  /** The raw fields of an order, with its item dropped. */
  function ToRaw(o: Order): RawOrder
  {
    RawOrder(o.visible, o.creationDate, o.quantity, o.user, o.lastUpdate,
             o.platinum, o.orderType, o.platform, o.id, o.region)
  }

  /**
   `From<RawOrder> for Order`: a total conversion that keeps every raw field,
   the user with its possibly absent avatar included, and carries no item yet.
   */
  function FromRaw(raw: RawOrder): (o: Order)
    ensures ToRaw(o) == raw
    ensures o.item == None
  {
    Order(raw.visible, raw.creationDate, raw.quantity, raw.user, raw.lastUpdate,
          raw.platinum, raw.orderType, raw.platform, raw.id, raw.region, None)
  }

  /** Every order without an item is the conversion of its own raw fields. */
  lemma FromRawOfToRaw(o: Order)
    requires o.item == None
    ensures FromRaw(ToRaw(o)) == o
  {
  }

  /** Distinct raw orders convert to distinct orders. */
  lemma FromRawInjective(a: RawOrder, b: RawOrder)
    requires a != b
    ensures FromRaw(a) != FromRaw(b)
  {
  }
}
