/**
 * The storefront's records (src/types/index.ts): a product (`IItem`; the
 * `Models/` tree and `App` import an `IProduct` that this file does not
 * declare, and the model assumes it has the same fields, as its uses
 * suggest), the buyer's order fields (`IUser`),
 * the events the models emit, and the small `UserData` holder with a
 * partial-merge setter.
 */
module Types {
  import opened Js

  /** A catalog product; `price == None` is the source's `null` ("not for sale"). */
  datatype Product = Product(
    id: string,
    category: string,
    title: string,
    description: string,
    image: string,
    price: Option<int>)

  /** The four buyer fields by name (`keyof IUser`). */
  datatype Field = Payment | Address | Phone | Email

  /** `IUser`: the buyer data; `payment == None` is the source's `null`. */
  datatype Order = Order(address: string, phone: string, payment: Option<string>, email: string)

  /** `Partial<IUser>`: `None` marks a property that is absent from the object. */
  datatype OrderPatch = OrderPatch(
    address: Option<string>,
    phone: Option<string>,
    payment: Option<Option<string>>,
    email: Option<string>)

  /** An event a model emits, recorded with its payload. */
  datatype Payload = NoData | ProductData(item: Product) | OrderData(order: Order) | ErrorsData(errors: map<Field, string>)
  datatype Note = Note(name: string, data: Payload)

  /** Some product in `items` has id `id`. */
  predicate HasId(items: seq<Product>, id: string)
  {
    exists i :: 0 <= i < |items| && items[i].id == id
  }

  /** `items.find(item => item.id === id)`: the first product with that id, if any. */
  function FindById(items: seq<Product>, id: string): (r: Option<Product>)
    ensures r.None? <==> !HasId(items, id)
    ensures r.Some? ==> exists i :: 0 <= i < |items| && items[i] == r.value && r.value.id == id
                         && forall j :: 0 <= j < i ==> items[j].id != id
  {
    if items == [] then None
    else if items[0].id == id then
      assert items[0] == items[0];
      Some(items[0])
    else
      var r := FindById(items[1..], id);
      assert HasId(items, id) ==> HasId(items[1..], id) by {
        if HasId(items, id) {
          var i :| 0 <= i < |items| && items[i].id == id;
          assert items[1..][i - 1].id == id;
        }
      }
      if r.Some? then
        var i :| 0 <= i < |items[1..]| && items[1..][i] == r.value && r.value.id == id
                 && forall j :: 0 <= j < i ==> items[1..][j].id != id;
        assert items[i + 1] == r.value;
        assert forall j :: 0 <= j < i + 1 ==> items[j].id != id by {
          forall j | 0 <= j < i + 1 ensures items[j].id != id {
            if j > 0 { assert items[j] == items[1..][j - 1]; }
          }
        }
        r
      else
        r
  }

  /** The order every buyer starts from: empty strings and no payment. */
  function InitialOrder(): (o: Order)
    ensures o.address == "" && o.phone == "" && o.email == "" && o.payment.None?
  {
    Order("", "", None, "")
  }

  /** `{ ...order, ...patch }`: the properties present in `patch` override those of `order`. */
  function Merge(order: Order, patch: OrderPatch): (r: Order)
    ensures r.address == (if patch.address.Some? then patch.address.value else order.address)
    ensures r.phone == (if patch.phone.Some? then patch.phone.value else order.phone)
    ensures r.payment == (if patch.payment.Some? then patch.payment.value else order.payment)
    ensures r.email == (if patch.email.Some? then patch.email.value else order.email)
  {
    Order(
      match patch.address case Some(a) => a case None => order.address,
      match patch.phone case Some(p) => p case None => order.phone,
      match patch.payment case Some(p) => p case None => order.payment,
      match patch.email case Some(e) => e case None => order.email)
  }

  /** Merging the empty patch `{}` changes nothing. */
  lemma MergeEmptyIsIdentity(order: Order)
    ensures Merge(order, OrderPatch(None, None, None, None)) == order
  {
  }

  /** Merging is last-writer-wins: applying `p` then `q` is applying `q` over `p`. */
  lemma MergeTwice(order: Order, p: OrderPatch, q: OrderPatch)
    ensures Merge(Merge(order, p), q) == Merge(order, OrderPatch(
      if q.address.Some? then q.address else p.address,
      if q.phone.Some? then q.phone else p.phone,
      if q.payment.Some? then q.payment else p.payment,
      if q.email.Some? then q.email else p.email))
  {
  }

  /** `UserData` of src/types/index.ts: one order record replaced by merging. */
  class UserData {
    var order: Order

    constructor ()
      ensures order == InitialOrder()
    {
      order := Order("", "", None, "");
    }

    method SetOrderData(patch: OrderPatch)
      modifies this
      ensures order == Merge(old(order), patch)
    {
      order := Merge(order, patch);
    }

    function GetOrderData(): (o: Order)
      reads this
      ensures o == order
    {
      order
    }
  }
}
