/**
 * The payment-and-address form of src/components/View/OrderFormView.ts, with
 * the DOM replaced by plain values: the payment buttons are their names and
 * an array of "active" flags, the address field is its string value.
 */
module OrderFormModel {
  import opened Js

  const ChoosePayment := "Выберите способ оплаты"
  const EnterAddress := "Введите адрес доставки"

  /**
   * The `errors` setter of both forms: the messages joined with `", "`, or
   * `""` when there are none; the error area is shown exactly when the text
   * is non-empty.
   */
  function ErrorText(errors: seq<string>): (text: string)
    ensures errors == [] ==> text == ""
    ensures |errors| == 1 ==> text == errors[0]
    ensures text == "" <==> errors == [] || errors == [""]
  {
    JoinEmptyIff(errors, ", ");
    if |errors| > 0 then Join(errors, ", ") else ""
  }

  /** What `validateForm` decides: whether submit is enabled, and the messages shown. */
  datatype Verdict = Verdict(valid: bool, errors: seq<string>)

  /** `validateForm`, given whether some payment button is active and the address value. */
  function CheckOrderForm(hasPayment: bool, address: string): (v: Verdict)
    ensures v.valid <==> hasPayment && !IsBlank(address)
    ensures !hasPayment && !IsBlank(address) ==> v.errors == [ChoosePayment]
    ensures hasPayment && IsBlank(address) ==> v.errors == [EnterAddress]
    ensures hasPayment == !IsBlank(address) ==> v.errors == []
  {
    var hasAddress := !IsBlank(address);
    Verdict(
      hasPayment && hasAddress,
      if !hasPayment && hasAddress then [ChoosePayment]
      else if !hasAddress && hasPayment then [EnterAddress]
      else [])
  }

  /** An empty form is not valid, yet shows no message. */
  lemma EmptyFormIsQuiet()
    ensures CheckOrderForm(false, "") == Verdict(false, [])
  {
  }

  /** `find` over the buttons: the name of the first active one, if any. */
  function FirstActiveName(names: seq<string>, flags: seq<bool>): (r: Option<string>)
    requires |names| == |flags|
    ensures r.None? <==> forall j :: 0 <= j < |flags| ==> !flags[j]
    ensures r.Some? ==> exists j :: 0 <= j < |flags| && flags[j] && names[j] == r.value
                                    && (forall k :: 0 <= k < j ==> !flags[k])
  {
    if names == [] then None
    else if flags[0] then
      assert flags[0] && names[0] == names[0];
      Some(names[0])
    else
      var r := FirstActiveName(names[1..], flags[1..]);
      assert forall j :: 1 <= j < |flags| ==> flags[j] == flags[1..][j - 1];
      if r.Some? then
        var j :| 0 <= j < |flags[1..]| && flags[1..][j] && names[1..][j] == r.value
                 && (forall k :: 0 <= k < j ==> !flags[1..][k]);
        assert flags[j + 1] && names[j + 1] == r.value;
        r
      else
        r
  }

  /** `OrderFormView`: the payment buttons' names and active flags, and the address value. */
  class OrderForm {
    const names: seq<string>
    const active: array<bool>
    var address: string

    ghost predicate Valid()
      reads this
    {
      active.Length == |names|
    }

    constructor (names: seq<string>)
      ensures Valid() && this.names == names && fresh(active)
      ensures forall j :: 0 <= j < active.Length ==> !active[j]
      ensures address == ""
    {
      this.names := names;
      active := new bool[|names|](_ => false);
      address := "";
    }

    /** Whether some payment button is active (`some`). */
    function HasPayment(): (b: bool)
      requires Valid()
      reads this, active
      ensures b <==> exists j :: 0 <= j < active.Length && active[j]
    {
      FirstActiveName(names, active[..]).Some?
    }

    /** `validateForm` on the current state. */
    function Validate(): (v: Verdict)
      requires Valid()
      reads this, active
      ensures v == CheckOrderForm(HasPayment(), address)
      ensures v.valid <==> (exists j :: 0 <= j < active.Length && active[j]) && !IsBlank(address)
    {
      CheckOrderForm(HasPayment(), address)
    }

    /**
     * The click handler of button `i`: deactivate every button, activate
     * button `i`, emit its name as the new payment, and re-validate.
     */
    method Click(i: nat) returns (payment: string, v: Verdict)
      requires Valid() && i < |names|
      modifies active
      ensures active[i]
      ensures forall j :: 0 <= j < active.Length && j != i ==> !active[j]
      ensures payment == names[i]
      ensures v == Validate()
      ensures v.valid <==> !IsBlank(address)
    {
      for j := 0 to active.Length
        invariant forall k :: 0 <= k < j ==> !active[k]
      {
        active[j] := false;
      }
      active[i] := true;
      payment := names[i];
      v := Validate();
    }

    /** The `payment` setter: exactly the buttons named `value` become active. */
    method SetPayment(value: string) returns (v: Verdict)
      requires Valid()
      modifies active
      ensures forall j :: 0 <= j < active.Length ==> active[j] == (names[j] == value)
      ensures v == Validate()
      ensures v.valid <==> value in names && !IsBlank(address)
    {
      for j := 0 to active.Length
        invariant forall k :: 0 <= k < j ==> active[k] == (names[k] == value)
      {
        active[j] := names[j] == value;
      }
      v := Validate();
      if value in names {
        var j :| 0 <= j < |names| && names[j] == value;
        assert active[j];
      }
    }

    /** The `address` setter. */
    method SetAddress(value: string) returns (v: Verdict)
      requires Valid()
      modifies this
      ensures address == value
      ensures v == Validate()
    {
      address := value;
      v := Validate();
    }

    /**
     * The submit handler: the payment is the name of the first active button;
     * `order:submit` carries it with the raw address, and is emitted only when
     * that name is non-empty and the trimmed address is not.
     */
    function Submit(): (r: Option<(string, string)>)
      requires Valid()
      reads this, active
      ensures r.Some? ==> (exists j :: 0 <= j < active.Length && active[j] && names[j] == r.value.0)
                          && r.value.0 != "" && r.value.1 == address && !IsBlank(address)
      ensures r.None? ==> !HasPayment() || IsBlank(address) || FirstActiveName(names, active[..]) == Some("")
    {
      var payment := FirstActiveName(names, active[..]);
      if payment.Some? && payment.value != "" && !IsBlank(address) then
        Some((payment.value, address))
      else
        None
    }
  }
}
