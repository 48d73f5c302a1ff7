/**
 * The buyer of src/components/Models/Customer.ts: four string fields, set one
 * at a time, and a check that reports every field that is empty after `trim`
 * (the payment field is checked for emptiness as it is).
 */
module CustomerModel {
  import opened Js
  import opened Types

  /** `IBuyer`: what `getData` returns; the payment method is a string, `""` when unset. */
  datatype Buyer = Buyer(payment: string, address: string, phone: string, email: string)

  const PaymentMissing := "Выберите способ оплаты"
  const AddressMissing := "Необходимо указать адрес"
  const PhoneMissing := "Необходимо указать номер телефона"
  const EmailMissing := "Необходимо указать email"

  /** The messages of `checkValidity`: one per field that is unset or blank. */
  function BuyerErrors(b: Buyer): (e: map<Field, string>)
    ensures Payment in e <==> b.payment == ""
    ensures Address in e <==> IsBlank(b.address)
    ensures Phone in e <==> IsBlank(b.phone)
    ensures Email in e <==> IsBlank(b.email)
    ensures Payment in e ==> e[Payment] == PaymentMissing
    ensures Address in e ==> e[Address] == AddressMissing
    ensures Phone in e ==> e[Phone] == PhoneMissing
    ensures Email in e ==> e[Email] == EmailMissing
  {
    var e: map<Field, string> := map[];
    var e := if b.payment == "" then e[Payment := PaymentMissing] else e;
    var e := if IsBlank(b.address) then e[Address := AddressMissing] else e;
    var e := if IsBlank(b.phone) then e[Phone := PhoneMissing] else e;
    if IsBlank(b.email) then e[Email := EmailMissing] else e
  }

  /** A buyer passes the check exactly when a payment is chosen and no other field is blank. */
  lemma BuyerErrorsEmptyIff(b: Buyer)
    ensures BuyerErrors(b) == map[] <==> b.payment != "" && !IsBlank(b.address) && !IsBlank(b.phone) && !IsBlank(b.email)
  {
    var e := BuyerErrors(b);
    if e != map[] {
      var f :| f in e;
    }
  }

  /** The buyer everyone starts from: every field reports an error. */
  lemma ClearedBuyerErrors()
    ensures BuyerErrors(Buyer("", "", "", "")).Keys == {Payment, Address, Phone, Email}
  {
    var e := BuyerErrors(Buyer("", "", "", ""));
    assert Payment in e && Address in e && Phone in e && Email in e;
  }

  /** Only emptiness is checked: any non-blank values pass, whatever their format. */
  lemma FilledBuyerHasNoErrors()
    ensures BuyerErrors(Buyer("card", "Street 1", "+71234567890", "a@b.com")) == map[]
  {
    assert !IsWhitespace("Street 1"[0]);
    assert !IsWhitespace("+71234567890"[0]);
    assert !IsWhitespace("a@b.com"[0]);
    BuyerErrorsEmptyIff(Buyer("card", "Street 1", "+71234567890", "a@b.com"));
  }

  /** `Customer`: the four private fields. */
  class Customer {
    var payment: string
    var address: string
    var phone: string
    var email: string

    constructor ()
      ensures payment == "" && address == "" && phone == "" && email == ""
    {
      payment := "";
      address := "";
      phone := "";
      email := "";
    }

    /** `setPayment`: only the payment field changes. */
    method SetPayment(value: string)
      modifies this
      ensures payment == value
      ensures address == old(address) && phone == old(phone) && email == old(email)
    {
      payment := value;
    }

    /** `setAddress`: only the address field changes. */
    method SetAddress(value: string)
      modifies this
      ensures address == value
      ensures payment == old(payment) && phone == old(phone) && email == old(email)
    {
      address := value;
    }

    /** `setPhone`: only the phone field changes. */
    method SetPhone(value: string)
      modifies this
      ensures phone == value
      ensures payment == old(payment) && address == old(address) && email == old(email)
    {
      phone := value;
    }

    /** `setEmail`: only the email field changes. */
    method SetEmail(value: string)
      modifies this
      ensures email == value
      ensures payment == old(payment) && address == old(address) && phone == old(phone)
    {
      email := value;
    }

    /** `getData`: the four fields together. */
    function GetData(): (b: Buyer)
      reads this
      ensures b.payment == payment && b.address == address && b.phone == phone && b.email == email
    {
      Buyer(payment, address, phone, email)
    }

    /** `clear`: every field back to `""`. */
    method Clear()
      modifies this
      ensures payment == "" && address == "" && phone == "" && email == ""
    {
      payment := "";
      address := "";
      phone := "";
      email := "";
    }

    /** `checkValidity`: an error for an unset payment and for each blank text field. */
    function CheckValidity(): (e: map<Field, string>)
      reads this
      ensures e == BuyerErrors(GetData())
      ensures Payment in e <==> payment == ""
      ensures Address in e <==> IsBlank(address)
      ensures Phone in e <==> IsBlank(phone)
      ensures Email in e <==> IsBlank(email)
    {
      BuyerErrors(GetData())
    }
  }
}
