/**
 * The shopping basket of src/components/Models/Basket.ts: a list of products
 * kept in the order they were added, with no de-duplication, and a total that
 * counts only truthy prices.
 */
module BasketModel {
  import opened Js
  import opened Types

  /** What `if (price) sum += price` adds: a missing (`null`) or zero price adds nothing. */
  function Contribution(price: Option<int>): (r: int)
    ensures price.Some? && price.value != 0 ==> r == price.value
    ensures price.None? || price.value == 0 ==> r == 0
  {
    match price
    case Some(p) => if p != 0 then p else 0
    case None => 0
  }

  /** The value of the `reduce` in `getTotalPrice`, folding from the left. */
  function TotalPrice(items: seq<Product>): int
  {
    if items == [] then 0
    else TotalPrice(items[..|items| - 1]) + Contribution(items[|items| - 1].price)
  }

  /** The total of two baskets side by side is the sum of their totals. */
  lemma {:induction false} TotalPriceAppend(a: seq<Product>, b: seq<Product>)
    ensures TotalPrice(a + b) == TotalPrice(a) + TotalPrice(b)
    decreases |b|
  {
    if b == [] {
      assert a + b == a;
    } else {
      assert (a + b)[..|a + b| - 1] == a + b[..|b| - 1];
      TotalPriceAppend(a, b[..|b| - 1]);
    }
  }

  /** Products that are not for sale contribute nothing to the total. */
  lemma {:induction false} TotalPriceOfUnpriced(items: seq<Product>)
    requires forall i :: 0 <= i < |items| ==> items[i].price.None?
    ensures TotalPrice(items) == 0
  {
    if items != [] {
      TotalPriceOfUnpriced(items[..|items| - 1]);
    }
  }

  /** A priced, a `null`-priced and a zero-priced product: only the first is counted. */
  lemma TotalPriceExample()
    ensures TotalPrice([
      Product("a", "", "", "", "", Some(100)),
      Product("b", "", "", "", "", None),
      Product("c", "", "", "", "", Some(0))]) == 100
  {
    var p, q, z := Product("a", "", "", "", "", Some(100)), Product("b", "", "", "", "", None), Product("c", "", "", "", "", Some(0));
    assert [p, q, z][..2] == [p, q];
    assert [p, q][..1] == [p];
    assert [p][..0] == [];
    assert TotalPrice([p]) == 100;
    assert TotalPrice([p, q]) == 100;
  }

  /**
   * `items.filter(({id}) => id !== target)` where `target` is the `id`
   * property read off the argument: `None` is `undefined`, which no product
   * id equals.
   */
  function KeepUnlessId(items: seq<Product>, target: Option<string>): (r: seq<Product>)
    ensures |r| <= |items|
  {
    if items == [] then []
    else (if Some(items[0].id) != target then [items[0]] else []) + KeepUnlessId(items[1..], target)
  }

  /** The filter keeps exactly the products whose id differs from the target. */
  lemma {:induction false} KeepUnlessIdMembers(items: seq<Product>, target: Option<string>)
    ensures forall p :: p in KeepUnlessId(items, target) <==> p in items && Some(p.id) != target
  {
    if items != [] {
      KeepUnlessIdMembers(items[1..], target);
      assert items == [items[0]] + items[1..];
    }
  }

  /** Deleting by id: every product with that id goes, the rest stay in order. */
  function WithoutId(items: seq<Product>, id: string): (r: seq<Product>)
    ensures forall i :: 0 <= i < |r| ==> r[i].id != id
    ensures forall p :: p in r <==> p in items && p.id != id
    ensures !HasId(r, id)
  {
    KeepUnlessIdMembers(items, Some(id));
    var r := KeepUnlessId(items, Some(id));
    assert forall i :: 0 <= i < |r| ==> r[i] in r;
    r
  }

  /** The filter works element by element, so it keeps the relative order of what it keeps. */
  lemma {:induction false} KeepUnlessIdAppend(a: seq<Product>, b: seq<Product>, target: Option<string>)
    ensures KeepUnlessId(a + b, target) == KeepUnlessId(a, target) + KeepUnlessId(b, target)
  {
    if a == [] {
      assert a + b == b;
    } else {
      assert (a + b)[0] == a[0];
      assert (a + b)[1..] == a[1..] + b;
      KeepUnlessIdAppend(a[1..], b, target);
    }
  }

  /** A target no product matches removes nothing. */
  lemma {:induction false} KeepUnlessIdNoMatch(items: seq<Product>, target: Option<string>)
    requires forall i :: 0 <= i < |items| ==> Some(items[i].id) != target
    ensures KeepUnlessId(items, target) == items
  {
    if items != [] {
      KeepUnlessIdNoMatch(items[1..], target);
    }
  }

  /** Deleting an id no product has leaves the basket as it was. */
  lemma WithoutIdAbsent(items: seq<Product>, id: string)
    requires !HasId(items, id)
    ensures WithoutId(items, id) == items
  {
    KeepUnlessIdNoMatch(items, Some(id));
  }

  /** Deleting the same id twice is deleting it once. */
  lemma WithoutIdIdempotent(items: seq<Product>, id: string)
    ensures WithoutId(WithoutId(items, id), id) == WithoutId(items, id)
  {
    WithoutIdAbsent(WithoutId(items, id), id);
  }

  /** Deleting is order preserving: it distributes over concatenation. */
  lemma WithoutIdAppend(a: seq<Product>, b: seq<Product>, id: string)
    ensures WithoutId(a + b, id) == WithoutId(a, id) + WithoutId(b, id)
  {
    KeepUnlessIdAppend(a, b, Some(id));
  }

  // ---------------------------------------------------------------------------
  // `deleteItem` as `App.ts` calls it

  /** What `deleteItem(itemToDelete)` is handed: a product, or a bare id string. */
  datatype DeleteArgument = ProductArgument(product: Product) | IdArgument(id: string)

  /** `itemToDelete.id`: a string has no `id` property, so reading it gives `undefined`. */
  function IdProperty(arg: DeleteArgument): (r: Option<string>)
    ensures r.None? <==> arg.IdArgument?
  {
    match arg
    case ProductArgument(p) => Some(p.id)
    case IdArgument(_) => None
  }

  /** `deleteItem(itemToDelete)` exactly as written: the filter compares with `itemToDelete.id`. */
  function DeleteAsWritten(items: seq<Product>, arg: DeleteArgument): (r: seq<Product>)
    ensures forall p :: p in r <==> p in items && Some(p.id) != IdProperty(arg)
  {
    KeepUnlessIdMembers(items, IdProperty(arg));
    KeepUnlessId(items, IdProperty(arg))
  }

  /** Handed a product, as its signature asks, the method deletes by that product's id. */
  lemma DeleteAsWrittenWithProduct(items: seq<Product>, p: Product)
    ensures DeleteAsWritten(items, ProductArgument(p)) == WithoutId(items, p.id)
  {
  }

  /** Handed an id string, as the `product:remove` handler does, it removes nothing. */
  lemma DeleteAsWrittenWithIdRemovesNothing(items: seq<Product>, id: string)
    ensures DeleteAsWritten(items, IdArgument(id)) == items
  {
    KeepUnlessIdNoMatch(items, None);
  }

  /** A basket holding product "1": removing "1" the way the handler does leaves it in place. */
  lemma RemoveByIdCounterexample()
    ensures var p := Product("1", "", "", "", "", Some(100));
            HasId([p], "1") && DeleteAsWritten([p], IdArgument("1")) == [p] && WithoutId([p], "1") == []
  {
    var p := Product("1", "", "", "", "", Some(100));
    assert [p][0].id == "1";
    DeleteAsWrittenWithIdRemovesNothing([p], "1");
  }

  /** `Basket`: the product list, replaced or appended to by its methods. */
  class Basket {
    var items: seq<Product>

    constructor ()
      ensures items == []
    {
      items := [];
    }

    /** `getItems`: the stored list itself. */
    function GetItems(): (r: seq<Product>)
      reads this
      ensures r == items
    {
      items
    }

    /** `addItem`: `push`, so the product goes last even when its id is already there. */
    method AddItem(item: Product)
      modifies this
      ensures items == old(items) + [item]
      ensures |items| == |old(items)| + 1
    {
      items := items + [item];
    }

    /** `deleteItem`, taking the id its caller passes: every product with that id is removed. */
    method DeleteItem(id: string)
      modifies this
      ensures items == WithoutId(old(items), id)
      ensures !HasId(items, id)
    {
      items := WithoutId(items, id);
    }

    /** `clear`. */
    method Clear()
      modifies this
      ensures items == []
      ensures TotalPrice(items) == 0
    {
      items := [];
    }

    /** `getTotalPrice`: the `reduce` over the items, adding each truthy price. */
    method GetTotalPrice() returns (total: int)
      ensures total == TotalPrice(items)
    {
      total := 0;
      var i := 0;
      while i < |items|
        invariant 0 <= i <= |items|
        invariant total == TotalPrice(items[..i])
      {
        assert items[..i + 1][..i] == items[..i];
        if items[i].price.Some? && items[i].price.value != 0 {
          total := total + items[i].price.value;
        }
        i := i + 1;
      }
      assert items[..i] == items;
    }

    /** `getTotalItems`: the number of stored entries, duplicates included. */
    function GetTotalItems(): (n: nat)
      reads this
      ensures n == |items|
    {
      |items|
    }

    /** `hasItem`: whether some stored product has the id. */
    function HasItem(itemId: string): (b: bool)
      reads this
      ensures b <==> exists i :: 0 <= i < |items| && items[i].id == itemId
    {
      FindById(items, itemId).Some?
    }
  }
}
