/**
 * The product catalog of src/components/Models/Catalog.ts: the list loaded
 * from the server and the product currently selected for preview.
 */
module CatalogModel {
  import opened Js
  import opened Types

  /** `Catalog`: the product list and the current product (`None` is `null`). */
  class Catalog {
    var items: seq<Product>
    var currentItem: Option<Product>

    constructor ()
      ensures items == [] && currentItem == None
    {
      items := [];
      currentItem := None;
    }

    /** `setItems`: replace the list; the current product is left alone. */
    method SetItems(newItems: seq<Product>)
      modifies this
      ensures items == newItems
      ensures currentItem == old(currentItem)
    {
      items := newItems;
    }

    /** `getItems`. */
    function GetItems(): (r: seq<Product>)
      reads this
      ensures r == items
    {
      items
    }

    /** `getItem`: the first product with the id, or `null` when none has it. */
    function GetItem(itemId: string): (r: Option<Product>)
      reads this
      ensures r.None? <==> forall i :: 0 <= i < |items| ==> items[i].id != itemId
      ensures r.Some? ==> exists i :: 0 <= i < |items| && items[i] == r.value && r.value.id == itemId
                                       && (forall j :: 0 <= j < i ==> items[j].id != itemId)
    {
      FindById(items, itemId)
    }

    /** `setCurrentItem`: the list is left alone. */
    method SetCurrentItem(item: Option<Product>)
      modifies this
      ensures currentItem == item
      ensures items == old(items)
    {
      currentItem := item;
    }

    /** `getCurrentItem`. */
    function GetCurrentItem(): (r: Option<Product>)
      reads this
      ensures r == currentItem
    {
      currentItem
    }
  }
}
