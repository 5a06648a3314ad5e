/**
 The marketplace records as the market client returns them: items, users and
 raw orders (orders that do not yet carry their item), and the fetch error.
 */
module Market {
  import opened Wrappers

  /** Rust's `i32`. */
  newtype i32 = x: int | -0x8000_0000 <= x < 0x8000_0000

  /** The owner of an order; the avatar reference may be absent. */
  datatype User = User(
    reputation: i32,
    locale: string,
    avatar: Option<string>,
    ingameName: string,
    lastSeen: string,
    id: string,
    region: string,
    status: string)

  /** A tradeable item; `urlName` is the slug orders are fetched under. */
  datatype ItemsItem = ItemsItem(
    id: string,
    urlName: string,
    itemName: string,
    thumb: string,
    vaulted: Option<bool>)

  /** An order as the market client returns it, without the item it concerns. */
  datatype RawOrder = RawOrder(
    visible: bool,
    creationDate: string,
    quantity: i32,
    user: User,
    lastUpdate: string,
    platinum: i32,
    orderType: string,
    platform: string,
    id: string,
    region: string)

  /** Any failure of the order fetch: transport, status or payload. */
  datatype FetchError = FetchError(reason: string)

  /** What one fetch of the orders for an item yields. */
  type FetchedOrders = Result<seq<RawOrder>, FetchError>
}
