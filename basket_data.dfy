/**
 * The second basket of the storefront, src/components/model/BasketData.ts. It
 * stores products like `Basket` does, but sums prices with `price ?? 0`, lists
 * the ids of the priced products, and announces every change on the broker.
 * The announcements are kept, in order, in the log `emitted`.
 */
module BasketDataModel {
  import opened Js
  import opened Types
  import BasketModel

  /** `price ?? 0`. */
  function PriceOrZero(price: Option<int>): (r: int)
    ensures price.Some? ==> r == price.value
    ensures price.None? ==> r == 0
  {
    match price
    case Some(p) => p
    case None => 0
  }

  /** The value of the `reduce` in `getFullPrice`, folding from the left. */
  function FullPrice(items: seq<Product>): int
  {
    if items == [] then 0
    else FullPrice(items[..|items| - 1]) + PriceOrZero(items[|items| - 1].price)
  }

  /**
   * The two baskets agree on the total: skipping a falsy price and adding
   * `price ?? 0` differ only on a zero price, which adds nothing either way.
   */
  lemma {:induction false} FullPriceIsTotalPrice(items: seq<Product>)
    ensures FullPrice(items) == BasketModel.TotalPrice(items)
  {
    if items != [] {
      FullPriceIsTotalPrice(items[..|items| - 1]);
    }
  }

  /** The ids of the products whose price is neither `null` nor `undefined`, in basket order. */
  function PricedIds(items: seq<Product>): (ids: seq<string>)
    ensures |ids| <= |items|
    ensures forall id :: id in ids <==> exists i :: 0 <= i < |items| && items[i].price.Some? && items[i].id == id
  {
    if items == [] then []
    else
      var rest := PricedIds(items[1..]);
      assert forall i :: 1 <= i < |items| ==> items[i] == items[1..][i - 1];
      (if items[0].price.Some? then [items[0].id] else []) + rest
  }

  /** Listing ids works product by product, so it follows the basket's order. */
  lemma {:induction false} PricedIdsAppend(a: seq<Product>, b: seq<Product>)
    ensures PricedIds(a + b) == PricedIds(a) + PricedIds(b)
  {
    if a == [] {
      assert a + b == b;
    } else {
      assert (a + b)[0] == a[0];
      assert (a + b)[1..] == a[1..] + b;
      PricedIdsAppend(a[1..], b);
    }
  }

  /** A basket of priced products lists every id, duplicates included. */
  lemma {:induction false} PricedIdsAllPriced(items: seq<Product>)
    requires forall i :: 0 <= i < |items| ==> items[i].price.Some?
    ensures |PricedIds(items)| == |items|
    ensures forall i :: 0 <= i < |items| ==> PricedIds(items)[i] == items[i].id
  {
    if items != [] {
      PricedIdsAllPriced(items[1..]);
    }
  }

  const BasketChanged := Note("basket:changed", NoData)

  /** `BasketData`: the product list and the events it has emitted. */
  class BasketData {
    var items: seq<Product>
    var emitted: seq<Note>

    constructor ()
      ensures items == [] && emitted == []
    {
      items := [];
      emitted := [];
    }

    /** `setAllItems`: store a copy of the list and announce it. */
    method SetAllItems(newItems: seq<Product>)
      modifies this
      ensures items == newItems
      ensures emitted == old(emitted) + [Note("basket:setAllItems", NoData)]
    {
      items := newItems;
      emitted := emitted + [Note("basket:setAllItems", NoData)];
    }

    /** `getFullPrice`: the `reduce` over the items, adding `price ?? 0`. */
    method GetFullPrice() returns (total: int)
      ensures total == FullPrice(items)
      ensures total == BasketModel.TotalPrice(items)
    {
      total := 0;
      var i := 0;
      while i < |items|
        invariant 0 <= i <= |items|
        invariant total == FullPrice(items[..i])
      {
        assert items[..i + 1][..i] == items[..i];
        total := total + PriceOrZero(items[i].price);
        i := i + 1;
      }
      assert items[..i] == items;
      FullPriceIsTotalPrice(items);
    }

    /** `addItem`: append without looking for a duplicate, and announce the change. */
    method AddItem(item: Product)
      modifies this
      ensures items == old(items) + [item]
      ensures emitted == old(emitted) + [BasketChanged]
    {
      items := items + [item];
      emitted := emitted + [BasketChanged];
    }

    /** `deleteItem`: drop every product with the id, and announce a change even if none was there. */
    method DeleteItem(id: string)
      modifies this
      ensures items == BasketModel.WithoutId(old(items), id)
      ensures emitted == old(emitted) + [BasketChanged]
    {
      items := BasketModel.WithoutId(items, id);
      emitted := emitted + [BasketChanged];
    }

    /** `getBasketItems`: whether the product is stored (`includes`). */
    function GetBasketItems(item: Product): (b: bool)
      reads this
      ensures b <==> exists i :: 0 <= i < |items| && items[i] == item
    {
      item in items
    }

    /** `getBasketIdItems`: the ids of the priced products, in basket order. */
    function GetBasketIdItems(): (ids: seq<string>)
      reads this
      ensures ids == PricedIds(items)
      ensures forall id :: id in ids <==> exists i :: 0 <= i < |items| && items[i].price.Some? && items[i].id == id
    {
      PricedIds(items)
    }

    /** `deleteAllItems`: empty the basket and announce the change. */
    method DeleteAllItems()
      modifies this
      ensures items == []
      ensures emitted == old(emitted) + [BasketChanged]
    {
      items := [];
      emitted := emitted + [BasketChanged];
    }

    /** `getAllItems`: a copy of the stored list. */
    function GetAllItems(): (r: seq<Product>)
      reads this
      ensures r == items
    {
      items
    }
  }
}
