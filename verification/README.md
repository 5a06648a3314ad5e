# Prime trash buyer: the order-evaluation pipeline

This project models the core of a Warframe Market trading helper. The helper
fetches the active orders for one tradeable item. It keeps the orders that an
acceptance policy accepts, and enriches each kept order with the item it was
fetched under. It then renders one message per order through a swappable
renderer, which is handed the profitability scorer.

Modules follow the source files:

- `Wrappers` (`wrappers.dfy`): Rust's `Option` and `Result`.
- `Market` (`market.dfy`): the raw records of `src/market.rs:45-85`. These are
  `User` with its optional avatar, `ItemsItem` with its optional vaulted flag,
  and `RawOrder` (the market's `Order`, which has no item). It also defines `i32`
  as a bounded newtype and `FetchError` for any failure of the fetch.
- `Orders` (`order.dfy`): the enriched `Order` and the `From` conversion
  `FromRaw`. `ToRaw`, the projection back onto the raw fields, is the
  conversion's partner.
- `Iter` (`iter.dfy`): the iterator steps `get_orders` is written with. These
  are `filter`, `map` and `collect` into a `Result`, which stops at the first
  `Err`. Beside them sits a reference description of filtering:
  `AcceptedPositions`, the ascending positions whose element the predicate
  accepts, and `AcceptedSet`, the set of those positions.
- `Buyer` (`prime_trash_buyer.dfy`): `PrimeTrashBuyer` with its three policy
  slots, and the operations `New`, `GetOrders` and `GetMessages`. The filter has
  type `RawOrder -> bool`. The scorer has type `Order -> i32`. The renderer has
  type `(Order, Order -> i32) -> string`.
- `Scenario` (`scenario.dfy`): one worked instance. One vaulted item has three
  raw orders, and a caller-supplied filter keeps sell orders only.

The fetch of an item's orders is an input of `GetOrders`: a
`Result<seq<RawOrder>, FetchError>`. It stands for what
`fetch_orders(item.url_name)` returned. The default filter and default scorer
are parameters of `New`. Their code is not part of this model, so nothing is
asserted about how they behave.

## Model

| member | source | states |
|---|---|---|
| Orders.FromRaw | src/order.rs:18-34 | The conversion is total, with no precondition. Projecting the result back onto the raw fields gives the raw order itself. So visible, creation date, quantity, user (avatar absent or not), last update, platinum, order type, platform, id and region are all copied unchanged. The result carries no item. |
| Orders.FromRawOfToRaw | src/order.rs:20-31 | Any enriched order with no item is the conversion of its own raw fields. With FromRaw, conversion is a bijection onto item-less orders. |
| Orders.FromRawInjective | src/order.rs:20-31 | Distinct raw orders convert to distinct orders. |
| Iter.Filter | src/prime_trash_buyer.rs:34-35 | The result is no longer than the input. Every element it holds comes from the input and is accepted. Every accepted input element is in it. |
| Iter.Map | src/prime_trash_buyer.rs:36-40 | There is one output per input, and output i is the function applied to input i. |
| Iter.Collect | src/prime_trash_buyer.rs:41 | The result is Ok exactly when every element is Ok, and then it holds all the values in order. Otherwise it is the error of the first Err, and every element before that one is Ok. |
| Iter.AcceptedPositions | src/prime_trash_buyer.rs:34-35 | The reference positions strictly increase, each one is accepted, and every accepted position is listed. |
| Iter.FilterSelectsAcceptedPositions | src/prime_trash_buyer.rs:34-35 | The filtered sequence is exactly the subsequence at the accepted positions, in ascending order of position. |
| Iter.IncreasingCardinality | src/prime_trash_buyer.rs:34-35 | This is the counting step FilterLength uses. A strictly increasing list of positions lists as many distinct positions as it has entries, so the accepted positions can be counted as a set. |
| Iter.FilterLength | src/prime_trash_buyer.rs:34-35 | The filtered length equals the number of positions the predicate accepts. |
| Iter.FilterMultiplicity | src/prime_trash_buyer.rs:34-35 | An accepted value is kept as many times as it occurs in the input. A rejected value is never kept. |
| Iter.FilterConcat | src/prime_trash_buyer.rs:34-35 | Filtering a concatenation is the concatenation of the filtered parts, so nothing is reordered. |
| Iter.FilterKeepsRelativeOrder | src/prime_trash_buyer.rs:34-35 | When two accepted elements sit at positions i < j of the input, the output holds them at positions k < l. |
| Iter.MapConcat | src/prime_trash_buyer.rs:45-47 | Mapping a concatenation is the concatenation of the mapped parts. |
| Buyer.New | src/prime_trash_buyer.rs:17-29 | A supplied filter or scorer fills its slot as given. An absent one is replaced by the corresponding default. The renderer slot always holds the supplied renderer. |
| Buyer.EnrichOrder | src/prime_trash_buyer.rs:37-38 | The enriched order projects back to its raw order unchanged and carries exactly the item given. |
| Buyer.GetOrders | src/prime_trash_buyer.rs:31-42 | A failed fetch returns that same error. A successful fetch always gives Ok. Every returned order carries the item passed in, and projects back to a fetched raw order that the filter accepts. There are never more results than fetched orders. Exactly: result k is the k-th accepted fetched raw order, enriched, with one result per accepted position. |
| Buyer.GetOrdersSelectsAccepted | src/prime_trash_buyer.rs:31-42 | After a successful fetch, result k is the enriched raw order at the k-th accepted position. The result has one entry per accepted position. |
| Buyer.GetOrdersCount | src/prime_trash_buyer.rs:34-41 | The result length equals the number of fetched raw orders the filter accepts. |
| Buyer.GetOrdersNoneAccepted | src/prime_trash_buyer.rs:34-41 | An empty fetch, or one whose orders are all rejected, gives Ok of the empty sequence and not an error. |
| Buyer.GetOrdersMultiplicity | src/prime_trash_buyer.rs:34-38 | Projected back to raw fields, the result holds each accepted raw order as many times as it was fetched. It holds no rejected raw order. |
| Buyer.GetOrdersKeepsRelativeOrder | src/prime_trash_buyer.rs:34-41 | Two accepted raw orders appear, enriched, in the order in which they were fetched. |
| Buyer.GetOrdersConcat | src/prime_trash_buyer.rs:34-41 | The orders fetched as one batch followed by another come out as the first batch's results followed by the second's. |
| Buyer.EnrichOrderIdempotent | src/prime_trash_buyer.rs:37-38 | Enriching the raw fields of an enriched order again, with the same item, gives the same order. |
| Buyer.GetMessages | src/prime_trash_buyer.rs:44-48 | There is exactly one message per order, in input order. Message i is the renderer applied to order i and the buyer's scorer. Zero orders give no messages. |
| Buyer.GetMessagesConcat | src/prime_trash_buyer.rs:44-48 | Rendering two batches gives the first batch's messages followed by the second's. |
| Scenario.SellOnlyScenario | src/prime_trash_buyer.rs:31-48 | The item new_loka_sigil has raw orders sell 10, buy 50 and sell 5. A sell-only filter gives two orders, priced 10 then 5, each carrying the item. They render to two messages in that order. |

## Left out

- The HTTP transport is not modelled. This covers `Market::new`, `fetch_items`, `fetch_orders`, URL joining, reqwest and serde_json (`src/market.rs:11-38`). The network cannot be modelled, so the fetch response is an input of `GetOrders`. The market client that `PrimeTrashBuyer` holds by reference is omitted for the same reason.
- The `WarframeMarket` type and the real `warframe_market` records are not part of this model. The record shapes follow `src/market.rs:45-85`.
- The `ApiResponse` envelope and the payload structs (`src/market.rs:40-43`, `71-92`) are not modelled. They are only a deserialization boundary, so the fetched sequence of orders is used directly.
- The policies are modelled as pure, total Dafny functions. The source slots are `Box<dyn Fn>` closures (`src/prime_trash_buyer.rs:11-13`). Such a closure could panic, keep interior state in a `Cell` or `RefCell`, or perform I/O, and a custom renderer is allowed to do I/O. None of that is modelled: a panicking filter would make `get_orders` panic rather than return `Err`. Every property of `GetOrders`, `GetMessages` and the filter lemmas holds only for pure policies.
- How often and in what order the policies are called is not modelled. The source runs the filter and the map lazily, one element at a time (filter of order 1, map of order 1, filter of order 2, ...; `src/prime_trash_buyer.rs:34-41`). It calls the renderer once per order, in input order (`src/prime_trash_buyer.rs:45-47`). The model states only the resulting values.
- The `async`/`await` plumbing is not modelled. It only sequences the steps and has no behaviour of its own.
- The default policies `default_filter_order`, `default_get_profitable_sum` and `default_get_message` are not part of this model. `New` takes the first two as parameters. The code of `default_filter_order` is not available, so nothing is asserted about which orders it accepts. The scenario supplies a sell-only filter of its own.
- Line 27 of `src/prime_trash_buyer.rs` falls back to `default_get_message` when the renderer is absent. But the renderer parameter on line 21 is not an `Option`. `New` therefore takes the renderer as a required argument, and the fallback is not modelled.
- `order_type` is a free string in the code, not a two-valued enum, and the model keeps it a string.
- Integer width is not modelled beyond its bounds. Platinum, quantity, reputation and scores use a bounded `i32` newtype. No arithmetic happens in the pipeline, so overflow cannot arise.
- Cloning and ownership are not modelled. `item.clone()` and moving orders out of the vector have no observable effect in a value model.
- Derived `Debug`, `Serialize` and `Deserialize` behaviour is not modelled.
