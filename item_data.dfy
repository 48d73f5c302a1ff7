/**
 * The second catalog of the storefront, src/components/model/ItemData.ts: the
 * product list and the previewed product, announcing both on the broker. The
 * announcements are kept, in order, in the log `emitted`.
 */
module ItemDataModel {
  import opened Js
  import opened Types

  /** `ItemData`: the product list, the preview (`None` is `undefined`) and the events emitted. */
  class ItemData {
    var items: seq<Product>
    var preview: Option<Product>
    var emitted: seq<Note>

    constructor ()
      ensures items == [] && preview == None && emitted == []
    {
      items := [];
      preview := None;
      emitted := [];
    }

    /** `setAllItems`: store a copy of the list and announce it; the preview is left alone. */
    method SetAllItems(newItems: seq<Product>)
      modifies this
      ensures items == newItems
      ensures preview == old(preview)
      ensures emitted == old(emitted) + [Note("item:setAllItems", NoData)]
    {
      items := newItems;
      emitted := emitted + [Note("item:setAllItems", NoData)];
    }

    /** `getItem`: the first product with the id, or `undefined` when none has it. */
    function GetItem(itemId: string): (r: Option<Product>)
      reads this
      ensures r.None? <==> forall i :: 0 <= i < |items| ==> items[i].id != itemId
      ensures r.Some? ==> exists i :: 0 <= i < |items| && items[i] == r.value && r.value.id == itemId
                                       && (forall j :: 0 <= j < i ==> items[j].id != itemId)
    {
      FindById(items, itemId)
    }

    /** `getAllItems`: a copy of the stored list. */
    function GetAllItems(): (r: seq<Product>)
      reads this
      ensures r == items
    {
      items
    }

    /** `setPreview`: remember the product and announce it with the product as payload. */
    method SetPreview(item: Product)
      modifies this
      ensures preview == Some(item)
      ensures items == old(items)
      ensures emitted == old(emitted) + [Note("preview:changed", ProductData(item))]
    {
      preview := Some(item);
      emitted := emitted + [Note("preview:changed", ProductData(item))];
    }
  }
}
