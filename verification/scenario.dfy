/**
 A worked instance of the pipeline: one vaulted item, three raw orders, and a
 caller-supplied filter that keeps sell orders only.
 */
module Scenario {
  import opened Wrappers
  import opened Market
  import opened Orders
  import opened Iter
  import opened Buyer

  function Seller(): User
  {
    User(0, "en", None, "seller", "", "u1", "en", "ingame")
  }

  function Sigil(): ItemsItem
  {
    ItemsItem("i1", "new_loka_sigil", "New Loka Sigil", "thumb", Some(true))
  }

  /** The caller-supplied filter of this scenario: sell orders only. */
  predicate IsSell(o: RawOrder)
  {
    o.orderType == "sell"
  }

  function RawAt(orderType: string, platinum: i32, id: string): RawOrder
  {
    RawOrder(true, "", 1, Seller(), "", platinum, orderType, "pc", id, "en")
  }

  /**
   Of a sell at 10, a buy at 50 and a sell at 5, a sell-only filter keeps the
   two sells, in fetch order, each carrying the item; one message is rendered
   per kept order, in the same order.
   */
  lemma SellOnlyScenario(score: Scorer, render: (Order, Scorer) -> string)
    ensures var b := New(Some(IsSell), Some(score), render, _ => false, score);
            var raws := [RawAt("sell", 10, "a"), RawAt("buy", 50, "b"), RawAt("sell", 5, "c")];
            var r := GetOrders(b, Sigil(), Ok(raws));
            && r.Ok?
            && |r.value| == 2
            && r.value[0].platinum == 10 && r.value[1].platinum == 5
            && r.value[0].item == Some(Sigil()) && r.value[1].item == Some(Sigil())
            && GetMessages(b, r.value) == [render(r.value[0], score), render(r.value[1], score)]
  {
    var b := New(Some(IsSell), Some(score), render, _ => false, score);
    var raws := [RawAt("sell", 10, "a"), RawAt("buy", 50, "b"), RawAt("sell", 5, "c")];
    assert raws[..2][..1] == [raws[0]] && raws[..2] == [raws[0], raws[1]];
    assert Filter(raws, b.filterOrder) == [raws[0], raws[2]];
  }
}
