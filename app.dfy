/**
 * The checkout presenter of src/components/App.ts. Each `events.on(...)`
 * handler is a method of `App`; the views are reduced to the `screen` the
 * modal shows, and the two network calls to parameters: the product list
 * that arrives (or `None` when the request fails) and whether the order
 * request succeeds. The payloads handed to the order endpoint and the
 * messages of the `error` events are kept, in order, in `requests` and
 * `failures`.
 */
module AppModel {
  import opened Js
  import opened Types
  import opened BasketModel
  import opened CatalogModel
  import opened CustomerModel
  import BasketDataModel

  const RemoveFromBasket := "Убрать из корзины"
  const Unavailable := "Недоступно"
  const AddToBasket := "В корзину"
  const LoadFailed := "Не удалось загрузить товары"
  const OrderFailed := "Не удалось оформить заказ"

  /** What the modal shows, with the data each view is rendered from. */
  datatype Screen =
    | Closed
    | PreviewScreen(product: Product, buttonText: string, canBuy: bool)
    | BasketScreen(items: seq<Product>, total: int, canCheckout: bool)
    | OrderScreen(payment: string, address: string, orderValid: bool, orderErrors: seq<string>)
    | ContactsScreen(email: string, phone: string, contactsValid: bool, contactErrors: seq<string>)
    | SuccessScreen(total: int)

  /** `IOrderApiRequest`: the buyer's fields, the total and the ids of the basket entries. */
  datatype OrderRequest = OrderRequest(buyer: Buyer, total: int, items: seq<string>)

  /** The preview button's caption: remove when in the basket, otherwise add unless not for sale. */
  function ButtonText(inBasket: bool, price: Option<int>): (text: string)
    ensures text == RemoveFromBasket <==> inBasket
    ensures text == Unavailable <==> !inBasket && price.None?
    ensures text == AddToBasket <==> !inBasket && price.Some?
  {
    if inBasket then RemoveFromBasket
    else if price.None? then Unavailable
    else AddToBasket
  }

  /** `if (errors[f]) list.push(errors[f])`: a present, non-empty message is collected. */
  function Collect(e: map<Field, string>, f: Field): seq<string>
  {
    if f in e && e[f] != "" then [e[f]] else []
  }

  /** The order step's messages: the payment message, then the address message. */
  function OrderStepErrors(e: map<Field, string>): (r: seq<string>)
    ensures |r| <= 2
    ensures r == [] <==> (Payment !in e || e[Payment] == "") && (Address !in e || e[Address] == "")
    ensures Payment in e && e[Payment] != "" ==> r[0] == e[Payment]
    ensures forall m :: m in r ==> (Payment in e && m == e[Payment]) || (Address in e && m == e[Address])
  {
    Collect(e, Payment) + Collect(e, Address)
  }

  /** The contacts step's messages: the email message, then the phone message. */
  function ContactsStepErrors(e: map<Field, string>): (r: seq<string>)
    ensures |r| <= 2
    ensures r == [] <==> (Email !in e || e[Email] == "") && (Phone !in e || e[Phone] == "")
    ensures Email in e && e[Email] != "" ==> r[0] == e[Email]
    ensures forall m :: m in r ==> (Email in e && m == e[Email]) || (Phone in e && m == e[Phone])
  {
    Collect(e, Email) + Collect(e, Phone)
  }

  /** The order flag `validateOrderForm` stores: a payment is set and the address is not blank. */
  lemma OrderStepValidIff(b: Buyer)
    ensures OrderStepErrors(BuyerErrors(b)) == [] <==> b.payment != "" && !IsBlank(b.address)
  {
    var e := BuyerErrors(b);
    assert Payment in e ==> e[Payment] == PaymentMissing;
    assert Address in e ==> e[Address] == AddressMissing;
  }

  /** The contacts flag `validateContactsForm` stores: neither email nor phone is blank. */
  lemma ContactsStepValidIff(b: Buyer)
    ensures ContactsStepErrors(BuyerErrors(b)) == [] <==> !IsBlank(b.email) && !IsBlank(b.phone)
  {
    var e := BuyerErrors(b);
    assert Email in e ==> e[Email] == EmailMissing;
    assert Phone in e ==> e[Phone] == PhoneMissing;
  }

  /** The order step's messages for the buyer, as `checkValidity` reports them. */
  function OrderStepMessages(b: Buyer): (r: seq<string>)
    ensures r == [] <==> b.payment != "" && !IsBlank(b.address)
    ensures b.payment == "" ==> r[0] == PaymentMissing
  {
    OrderStepValidIff(b);
    OrderStepErrors(BuyerErrors(b))
  }

  /** The contacts step's messages for the buyer, as `checkValidity` reports them. */
  function ContactsStepMessages(b: Buyer): (r: seq<string>)
    ensures r == [] <==> !IsBlank(b.email) && !IsBlank(b.phone)
    ensures IsBlank(b.email) ==> r[0] == EmailMissing
  {
    ContactsStepValidIff(b);
    ContactsStepErrors(BuyerErrors(b))
  }

  /** Whether the order step has no message for the buyer. */
  function OrderStepValid(b: Buyer): (valid: bool)
    ensures valid <==> b.payment != "" && !IsBlank(b.address)
  {
    OrderStepValidIff(b);
    OrderStepErrors(BuyerErrors(b)) == []
  }

  /** Whether the contacts step has no message for the buyer. */
  function ContactsStepValid(b: Buyer): (valid: bool)
    ensures valid <==> !IsBlank(b.email) && !IsBlank(b.phone)
  {
    ContactsStepValidIff(b);
    ContactsStepErrors(BuyerErrors(b)) == []
  }

  /** The order form as `showOrderModal` renders it for the buyer. */
  function OrderForm(b: Buyer): Screen
  {
    OrderScreen(b.payment, b.address, OrderStepValid(b), OrderStepMessages(b))
  }

  /** The contacts form as `showContactsModal` renders it for the buyer. */
  function ContactsForm(b: Buyer): Screen
  {
    ContactsScreen(b.email, b.phone, ContactsStepValid(b), ContactsStepMessages(b))
  }

  /** `items.map(item => item.id)`: one id per basket entry, in basket order. */
  function Ids(items: seq<Product>): (ids: seq<string>)
    ensures |ids| == |items|
    ensures forall i :: 0 <= i < |items| ==> ids[i] == items[i].id
  {
    seq(|items|, i requires 0 <= i < |items| => items[i].id)
  }

  /**
   * The payload's item list agrees with `getBasketIdItems` of the other
   * basket whenever every product is for sale (only those can be added).
   */
  lemma IdsArePricedIds(items: seq<Product>)
    requires forall i :: 0 <= i < |items| ==> items[i].price.Some?
    ensures Ids(items) == BasketDataModel.PricedIds(items)
  {
    BasketDataModel.PricedIdsAllPriced(items);
  }

  // ---------------------------------------------------------------------------
  // The `modal:close` handler as written

  /** How a handler ends: normally, or with the `TypeError` of calling an undefined method. */
  datatype Outcome = Returned | TypeError

  /**
   * `this.catalog.clearCurrentItem()`: `Catalog` defines no such method, so
   * the call throws before anything is changed. The result is the current
   * item afterwards and how the handler ended.
   */
  function ModalCloseAsWritten(current: Option<Product>): (r: (Option<Product>, Outcome))
    ensures r.1 == TypeError
    ensures r.0 == current
  {
    (current, TypeError)
  }

  /** Closing the preview of a product leaves that product selected, and the handler throws. */
  lemma ModalCloseKeepsSelection()
    ensures var p := Product("1", "", "", "", "", Some(100));
            ModalCloseAsWritten(Some(p)).0 == Some(p) && ModalCloseAsWritten(Some(p)).1 != Returned
  {
  }

  /** The presenter: the three models, the two step flags, and what it has shown and sent. */
  class App {
    const catalog: Catalog
    const basket: Basket
    const customer: Customer
    var orderValid: bool
    var contactsValid: bool
    var screen: Screen
    var requests: seq<OrderRequest>
    var failures: seq<string>

    /** Fresh models, both step flags false; the product request is `LoadProducts`. */
    constructor ()
      ensures fresh(catalog) && fresh(basket) && fresh(customer)
      ensures catalog.items == [] && catalog.currentItem == None && basket.items == []
      ensures customer.GetData() == Buyer("", "", "", "")
      ensures !orderValid && !contactsValid
      ensures screen == Closed && requests == [] && failures == []
    {
      catalog := new Catalog();
      basket := new Basket();
      customer := new Customer();
      orderValid := false;
      contactsValid := false;
      screen := Closed;
      requests := [];
      failures := [];
    }

    /** `loadProducts`: store the list that arrived, or report the failed request. */
    method LoadProducts(result: Option<seq<Product>>)
      modifies this, catalog
      ensures result.Some? ==> catalog.items == result.value && failures == old(failures)
      ensures result.None? ==> catalog.items == old(catalog.items) && failures == old(failures) + [LoadFailed]
      ensures catalog.currentItem == old(catalog.currentItem)
      ensures screen == old(screen) && requests == old(requests)
      ensures orderValid == old(orderValid) && contactsValid == old(contactsValid)
    {
      if result.Some? {
        catalog.SetItems(result.value);
      } else {
        failures := failures + [LoadFailed];
      }
    }

    /** `product:select`: make the product with the id current, when the catalog has one. */
    method ProductSelect(id: string)
      modifies catalog
      ensures old(catalog.GetItem(id)).Some? ==> catalog.currentItem == old(catalog.GetItem(id))
      ensures old(catalog.GetItem(id)).None? ==> catalog.currentItem == old(catalog.currentItem)
      ensures catalog.items == old(catalog.items)
    {
      var product := catalog.GetItem(id);
      if product.Some? {
        catalog.SetCurrentItem(product);
      }
    }

    /** `showProductModal`: the preview, with its caption and whether the product can be bought. */
    method ShowProductModal(product: Product)
      modifies this
      ensures screen.PreviewScreen? && screen.product == product
      ensures screen.buttonText == ButtonText(basket.HasItem(product.id), product.price)
      ensures screen.canBuy <==> product.price.Some?
      ensures orderValid == old(orderValid) && contactsValid == old(contactsValid)
      ensures requests == old(requests) && failures == old(failures)
    {
      var inBasket := basket.HasItem(product.id);
      screen := PreviewScreen(product, ButtonText(inBasket, product.price), product.price.Some?);
    }

    /** `product:add`: append the catalog's product with the id, when there is one. */
    method ProductAdd(id: string)
      modifies basket
      ensures old(catalog.GetItem(id)).Some? ==> basket.items == old(basket.items) + [old(catalog.GetItem(id)).value]
      ensures old(catalog.GetItem(id)).None? ==> basket.items == old(basket.items)
    {
      var product := catalog.GetItem(id);
      if product.Some? {
        basket.AddItem(product.value);
      }
    }

    /** `product:remove`: every basket entry with the id goes. */
    method ProductRemove(id: string)
      modifies basket
      ensures basket.items == WithoutId(old(basket.items), id)
      ensures !basket.HasItem(id)
    {
      basket.DeleteItem(id);
    }

    /** `modal:close`, as intended: the modal is closed and no product is current. */
    method ModalClose()
      modifies this, catalog
      ensures screen == Closed && catalog.currentItem == None
      ensures catalog.items == old(catalog.items)
      ensures orderValid == old(orderValid) && contactsValid == old(contactsValid)
      ensures requests == old(requests) && failures == old(failures)
    {
      screen := Closed;
      catalog.SetCurrentItem(None);
    }

    /**
     * The preview button: remove the product when it is in the basket,
     * otherwise add it when it is for sale, otherwise do nothing; then close.
     */
    method PreviewClick(product: Product)
      modifies this, basket, catalog
      ensures old(basket.HasItem(product.id)) ==> basket.items == WithoutId(old(basket.items), product.id)
      ensures !old(basket.HasItem(product.id)) && product.price.Some? && old(catalog.GetItem(product.id)).Some? ==>
                basket.items == old(basket.items) + [old(catalog.GetItem(product.id)).value]
      ensures !old(basket.HasItem(product.id)) && (product.price.None? || old(catalog.GetItem(product.id)).None?) ==>
                basket.items == old(basket.items)
      ensures screen == Closed && catalog.currentItem == None && catalog.items == old(catalog.items)
      ensures orderValid == old(orderValid) && contactsValid == old(contactsValid)
      ensures requests == old(requests) && failures == old(failures)
    {
      if basket.HasItem(product.id) {
        ProductRemove(product.id);
      } else if product.price.Some? {
        ProductAdd(product.id);
      }
      ModalClose();
    }

    /** `showBasketModal`: the entries, the total, and whether checkout can start. */
    method BasketOpen()
      modifies this
      ensures screen == BasketScreen(basket.items, TotalPrice(basket.items), |basket.items| > 0)
      ensures orderValid == old(orderValid) && contactsValid == old(contactsValid)
      ensures requests == old(requests) && failures == old(failures)
    {
      var total := basket.GetTotalPrice();
      screen := BasketScreen(basket.GetItems(), total, basket.GetTotalItems() > 0);
    }

    /** `validateOrderForm`: the order flag from the payment and address messages. */
    method ValidateOrderForm()
      modifies this
      ensures orderValid <==> customer.payment != "" && !IsBlank(customer.address)
      ensures contactsValid == old(contactsValid) && screen == old(screen)
      ensures requests == old(requests) && failures == old(failures)
    {
      orderValid := OrderStepValid(customer.GetData());
    }

    /** `validateContactsForm`: the contacts flag from the email and phone messages. */
    method ValidateContactsForm()
      modifies this
      ensures contactsValid <==> !IsBlank(customer.email) && !IsBlank(customer.phone)
      ensures orderValid == old(orderValid) && screen == old(screen)
      ensures requests == old(requests) && failures == old(failures)
    {
      contactsValid := ContactsStepValid(customer.GetData());
    }

    /** `showOrderModal`: validate the order step and show its form. */
    method ShowOrderModal()
      modifies this
      ensures orderValid <==> customer.payment != "" && !IsBlank(customer.address)
      ensures screen == OrderForm(customer.GetData())
      ensures contactsValid == old(contactsValid)
      ensures requests == old(requests) && failures == old(failures)
    {
      var buyer := customer.GetData();
      orderValid := OrderStepValid(buyer);
      screen := OrderForm(buyer);
    }

    /** `showContactsModal`: validate the contacts step and show its form. */
    method ShowContactsModal()
      modifies this
      ensures contactsValid <==> !IsBlank(customer.email) && !IsBlank(customer.phone)
      ensures screen == ContactsForm(customer.GetData())
      ensures orderValid == old(orderValid)
      ensures requests == old(requests) && failures == old(failures)
    {
      var buyer := customer.GetData();
      contactsValid := ContactsStepValid(buyer);
      screen := ContactsForm(buyer);
    }

    /** `order:start`: the order form opens only for a basket with entries. */
    method OrderStart()
      modifies this
      ensures |basket.items| > 0 ==> screen == OrderForm(customer.GetData())
      ensures |basket.items| > 0 ==> (orderValid <==> customer.payment != "" && !IsBlank(customer.address))
      ensures |basket.items| == 0 ==> screen == old(screen) && orderValid == old(orderValid)
      ensures contactsValid == old(contactsValid)
      ensures requests == old(requests) && failures == old(failures)
    {
      if basket.GetTotalItems() > 0 {
        ShowOrderModal();
      }
    }

    /** `order.payment:change`: store the payment and re-validate the order step. */
    method PaymentChange(payment: string)
      modifies this, customer
      ensures customer.GetData() == old(customer.GetData()).(payment := payment)
      ensures orderValid <==> customer.payment != "" && !IsBlank(customer.address)
      ensures contactsValid == old(contactsValid) && screen == old(screen)
      ensures requests == old(requests) && failures == old(failures)
    {
      customer.SetPayment(payment);
      ValidateOrderForm();
    }

    /** `order.address:change`: store the address and re-validate the order step. */
    method AddressChange(address: string)
      modifies this, customer
      ensures customer.GetData() == old(customer.GetData()).(address := address)
      ensures orderValid <==> customer.payment != "" && !IsBlank(customer.address)
      ensures contactsValid == old(contactsValid) && screen == old(screen)
      ensures requests == old(requests) && failures == old(failures)
    {
      customer.SetAddress(address);
      ValidateOrderForm();
    }

    /**
     * `order:submit`: store both fields, then move on to the contacts step
     * only if the order flag stored by the last validation is set; the flag
     * itself is not recomputed.
     */
    method OrderSubmit(payment: string, address: string)
      modifies this, customer
      ensures customer.GetData() == old(customer.GetData()).(payment := payment, address := address)
      ensures orderValid == old(orderValid)
      ensures old(orderValid) ==> screen == ContactsForm(customer.GetData())
      ensures old(orderValid) ==> (contactsValid <==> !IsBlank(customer.email) && !IsBlank(customer.phone))
      ensures !old(orderValid) ==> screen == old(screen) && contactsValid == old(contactsValid)
      ensures requests == old(requests) && failures == old(failures)
    {
      customer.SetPayment(payment);
      customer.SetAddress(address);
      if orderValid {
        ShowContactsModal();
      }
    }

    /** `contacts.email:change`: store the email and re-validate the contacts step. */
    method EmailChange(email: string)
      modifies this, customer
      ensures customer.GetData() == old(customer.GetData()).(email := email)
      ensures contactsValid <==> !IsBlank(customer.email) && !IsBlank(customer.phone)
      ensures orderValid == old(orderValid) && screen == old(screen)
      ensures requests == old(requests) && failures == old(failures)
    {
      customer.SetEmail(email);
      ValidateContactsForm();
    }

    /** `contacts.phone:change`: store the phone and re-validate the contacts step. */
    method PhoneChange(phone: string)
      modifies this, customer
      ensures customer.GetData() == old(customer.GetData()).(phone := phone)
      ensures contactsValid <==> !IsBlank(customer.email) && !IsBlank(customer.phone)
      ensures orderValid == old(orderValid) && screen == old(screen)
      ensures requests == old(requests) && failures == old(failures)
    {
      customer.SetPhone(phone);
      ValidateContactsForm();
    }

    /**
     * `processOrder`, with `ok` the outcome of the order request. The payload
     * is the buyer, the basket total and the entry ids in order. On success
     * the total shown is taken before the basket, the buyer and both flags
     * are reset; on failure an error is reported and nothing is reset.
     */
    method ProcessOrder(ok: bool)
      modifies this, basket, customer
      ensures requests == old(requests) + [OrderRequest(old(customer.GetData()), TotalPrice(old(basket.items)), Ids(old(basket.items)))]
      ensures ok ==> screen == SuccessScreen(TotalPrice(old(basket.items)))
      ensures ok ==> basket.items == [] && customer.GetData() == Buyer("", "", "", "") && !orderValid && !contactsValid
      ensures ok ==> failures == old(failures)
      ensures !ok ==> failures == old(failures) + [OrderFailed]
      ensures !ok ==> basket.items == old(basket.items) && customer.GetData() == old(customer.GetData())
      ensures !ok ==> screen == old(screen) && orderValid == old(orderValid) && contactsValid == old(contactsValid)
    {
      var total := basket.GetTotalPrice();
      requests := requests + [OrderRequest(customer.GetData(), total, Ids(basket.GetItems()))];
      if ok {
        var shown := basket.GetTotalPrice();
        screen := SuccessScreen(shown);
        basket.Clear();
        customer.Clear();
        orderValid := false;
        contactsValid := false;
      } else {
        failures := failures + [OrderFailed];
      }
    }

    /**
     * `contacts:submit`: store both fields, then place the order only if the
     * contacts flag stored by the last validation is set.
     */
    method ContactsSubmit(email: string, phone: string, ok: bool)
      modifies this, basket, customer
      ensures old(contactsValid) ==>
                requests == old(requests) + [OrderRequest(old(customer.GetData()).(email := email, phone := phone), TotalPrice(old(basket.items)), Ids(old(basket.items)))]
      ensures old(contactsValid) && ok ==> screen == SuccessScreen(TotalPrice(old(basket.items)))
      ensures old(contactsValid) && ok ==> basket.items == [] && customer.GetData() == Buyer("", "", "", "") && !orderValid && !contactsValid
      ensures old(contactsValid) && ok ==> failures == old(failures)
      ensures old(contactsValid) && !ok ==> failures == old(failures) + [OrderFailed]
      ensures !(old(contactsValid) && ok) ==> customer.GetData() == old(customer.GetData()).(email := email, phone := phone)
      ensures !(old(contactsValid) && ok) ==> basket.items == old(basket.items) && screen == old(screen)
      ensures !(old(contactsValid) && ok) ==> orderValid == old(orderValid) && contactsValid == old(contactsValid)
      ensures !old(contactsValid) ==> requests == old(requests) && failures == old(failures)
    {
      customer.SetEmail(email);
      customer.SetPhone(phone);
      if contactsValid {
        ProcessOrder(ok);
      }
    }

    /** `order:success`: the modal is closed. */
    method OrderSuccess()
      modifies this, catalog
      ensures screen == Closed && catalog.currentItem == None
      ensures catalog.items == old(catalog.items) && basket.items == old(basket.items)
      ensures orderValid == old(orderValid) && contactsValid == old(contactsValid)
      ensures requests == old(requests) && failures == old(failures)
    {
      ModalClose();
    }
  }
}
