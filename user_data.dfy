/**
 * The order form model of src/components/model/UserData.ts: the buyer's order
 * record, the errors of the last check, and the events the model emits (kept,
 * in order, in the log `emitted`). The e-mail check is the regular expression
 * `^[^\s@]+@[^\s@]+\.[^\s@]+$`.
 */
module UserDataModel {
  import opened Js
  import opened Types

  /** `[^\s@]`: neither whitespace nor `@`. */
  predicate EmailAtom(c: char)
  {
    !IsWhitespace(c) && c != '@'
  }

  /** `[^\s@]+`. */
  predicate AtomRun(s: string)
  {
    |s| > 0 && forall i :: 0 <= i < |s| ==> EmailAtom(s[i])
  }

  /**
   * The whole-string match of the e-mail pattern, read as a concatenation:
   * a run, `@`, a run, a literal `.`, and a run.
   */
  ghost predicate MatchesEmailPattern(s: string)
  {
    exists at, dot :: 0 <= at < dot < |s| && AtomRun(s[..at]) && s[at] == '@'
                      && AtomRun(s[at + 1..dot]) && s[dot] == '.' && AtomRun(s[dot + 1..])
  }

  /**
   * The shape the pattern accepts: no whitespace, exactly one `@`, something
   * before it, and a `.` after it that is neither the first nor the last
   * character of the domain part.
   */
  predicate EmailShape(s: string)
  {
    (forall i :: 0 <= i < |s| ==> !IsWhitespace(s[i]))
    && exists at :: 0 < at < |s| && s[at] == '@' && (forall i :: 0 <= i < |s| && i != at ==> s[i] != '@')
                    && exists dot :: at + 1 < dot < |s| - 1 && s[dot] == '.'
  }

  lemma EmailPatternHasShape(s: string)
    requires MatchesEmailPattern(s)
    ensures EmailShape(s)
  {
    var at, dot :| 0 <= at < dot < |s| && AtomRun(s[..at]) && s[at] == '@'
                   && AtomRun(s[at + 1..dot]) && s[dot] == '.' && AtomRun(s[dot + 1..]);
    var local, domain, top := s[..at], s[at + 1..dot], s[dot + 1..];
    forall i | 0 <= i < |s| ensures !IsWhitespace(s[i]) && (i != at ==> s[i] != '@') {
      if i < at {
        assert s[i] == local[i];
      } else if at < i < dot {
        assert s[i] == domain[i - at - 1];
      } else if dot < i {
        assert s[i] == top[i - dot - 1];
      }
    }
    assert at + 1 < dot < |s| - 1;
  }

  lemma EmailShapeMatchesPattern(s: string)
    requires EmailShape(s)
    ensures MatchesEmailPattern(s)
  {
    var at :| 0 < at < |s| && s[at] == '@' && (forall i :: 0 <= i < |s| && i != at ==> s[i] != '@')
              && exists dot :: at + 1 < dot < |s| - 1 && s[dot] == '.';
    var dot :| at + 1 < dot < |s| - 1 && s[dot] == '.';
    var local, domain, top := s[..at], s[at + 1..dot], s[dot + 1..];
    forall i | 0 <= i < |local| ensures EmailAtom(local[i]) {
      assert local[i] == s[i];
    }
    forall i | 0 <= i < |domain| ensures EmailAtom(domain[i]) {
      assert domain[i] == s[at + 1 + i];
    }
    forall i | 0 <= i < |top| ensures EmailAtom(top[i]) {
      assert top[i] == s[dot + 1 + i];
    }
    assert AtomRun(local) && AtomRun(domain) && AtomRun(top);
  }

  /** The pattern accepts exactly the strings of that shape. */
  lemma EmailShapeIff(s: string)
    ensures EmailShape(s) <==> MatchesEmailPattern(s)
  {
    if EmailShape(s) {
      EmailShapeMatchesPattern(s);
    }
    if MatchesEmailPattern(s) {
      EmailPatternHasShape(s);
    }
  }

  /** `isValidEmail`: a non-empty string that the e-mail pattern matches. */
  function IsValidEmail(email: string): (r: bool)
    ensures r <==> email != "" && MatchesEmailPattern(email)
    ensures r <==> EmailShape(email)
  {
    EmailShapeIff(email);
    EmailShape(email)
  }

  const EmailInvalid := "Необходимо указать корректный email"
  const PhoneMissing := "Необходимо указать телефон"
  const AddressMissing := "Необходимо указать адрес"
  const PaymentMissing := "Необходимо выбрать способ оплаты"

  /** The errors `isOrderValid` collects: a bad e-mail, an empty phone or address, no payment. */
  function OrderErrors(o: Order): (e: map<Field, string>)
    ensures Email in e <==> !IsValidEmail(o.email)
    ensures Phone in e <==> o.phone == ""
    ensures Address in e <==> o.address == ""
    ensures Payment in e <==> o.payment == None || o.payment == Some("")
    ensures Email in e ==> e[Email] == EmailInvalid
    ensures Phone in e ==> e[Phone] == PhoneMissing
    ensures Address in e ==> e[Address] == AddressMissing
    ensures Payment in e ==> e[Payment] == PaymentMissing
  {
    var e: map<Field, string> := map[];
    var e := if o.email == "" || !IsValidEmail(o.email) then e[Email := EmailInvalid] else e;
    var e := if o.phone == "" then e[Phone := PhoneMissing] else e;
    var e := if o.address == "" then e[Address := AddressMissing] else e;
    if o.payment == None || o.payment == Some("") then e[Payment := PaymentMissing] else e
  }

  /** An order is valid exactly when the e-mail is well formed, phone and address are set, and a payment is chosen. */
  lemma OrderErrorsEmptyIff(o: Order)
    ensures OrderErrors(o) == map[]
            <==> IsValidEmail(o.email) && o.phone != "" && o.address != "" && o.payment.Some? && o.payment.value != ""
  {
    var e := OrderErrors(o);
    if e != map[] {
      var f :| f in e;
    }
  }

  /** The initial order fails on all four fields. */
  lemma InitialOrderErrors()
    ensures OrderErrors(InitialOrder()).Keys == {Email, Phone, Address, Payment}
  {
    var e := OrderErrors(InitialOrder());
    assert Email in e && Phone in e && Address in e && Payment in e;
  }

  /** A complete order passes. */
  lemma CompleteOrderIsValid()
    ensures OrderErrors(Order("Street 1", "+71234567890", Some("card"), "a@b.com")) == map[]
  {
    var s := "a@b.com";
    assert s[0] == 'a' && s[1] == '@' && s[2] == 'b' && s[3] == '.' && s[4] == 'c' && s[5] == 'o' && s[6] == 'm';
    forall i | 0 <= i < |s| ensures !IsWhitespace(s[i]) && (i != 1 ==> s[i] != '@') {
    }
    assert EmailShape(s);
    assert IsValidEmail(s);
    OrderErrorsEmptyIff(Order("Street 1", "+71234567890", Some("card"), s));
  }

  /** The one-property object `{[field]: value}`: only the named property is present. */
  function FieldPatch(field: Field, value: Option<string>): (p: OrderPatch)
    requires field != Payment ==> value.Some?
    ensures p.address.Some? <==> field == Address
    ensures p.phone.Some? <==> field == Phone
    ensures p.payment.Some? <==> field == Payment
    ensures p.email.Some? <==> field == Email
    ensures field == Payment ==> p.payment == Some(value)
    ensures field == Address ==> p.address == value
    ensures field == Phone ==> p.phone == value
    ensures field == Email ==> p.email == value
  {
    match field
    case Address => OrderPatch(value, None, None, None)
    case Phone => OrderPatch(None, value, None, None)
    case Payment => OrderPatch(None, None, Some(value), None)
    case Email => OrderPatch(None, None, None, value)
  }

  /** `order[field] = value` changes that field and no other. */
  lemma FieldPatchEffect(o: Order, field: Field, value: Option<string>)
    requires field != Payment ==> value.Some?
    ensures var r := Merge(o, FieldPatch(field, value));
            && r.address == (if field == Address then value.value else o.address)
            && r.phone == (if field == Phone then value.value else o.phone)
            && r.payment == (if field == Payment then value else o.payment)
            && r.email == (if field == Email then value.value else o.email)
  {
  }

  /** `UserData` of the `model/` tree: the order, the last errors and the events emitted. */
  class UserData {
    var order: Order
    var formErrors: map<Field, string>
    var emitted: seq<Note>

    /** The constructor calls `resetOrder`. */
    constructor ()
      ensures order == InitialOrder() && formErrors == map[] && emitted == []
    {
      order := Order("", "", None, "");
      formErrors := map[];
      emitted := [];
    }

    /** `clearOrder`, through `resetOrder`: the errors and the log are left alone. */
    method ClearOrder()
      modifies this
      ensures order == InitialOrder()
      ensures formErrors == old(formErrors) && emitted == old(emitted)
    {
      order := Order("", "", None, "");
    }

    /** `isOrderValid`: store the errors, announce them, and report whether there are none. */
    method IsOrderValid() returns (valid: bool)
      modifies this
      ensures order == old(order)
      ensures formErrors == OrderErrors(order)
      ensures emitted == old(emitted) + [Note("formErrors:change", ErrorsData(formErrors))]
      ensures valid <==> formErrors == map[]
    {
      formErrors := OrderErrors(order);
      emitted := emitted + [Note("formErrors:change", ErrorsData(formErrors))];
      valid := |formErrors.Keys| == 0;
    }

    /**
     * `setOrderField`: write the field, announce the change, re-check, and
     * announce the order as ready when the check passes.
     */
    method SetOrderField(field: Field, value: Option<string>)
      requires field != Payment ==> value.Some?
      modifies this
      ensures order == Merge(old(order), FieldPatch(field, value))
      ensures formErrors == OrderErrors(order)
      ensures emitted == old(emitted) + [Note("order:change", NoData), Note("formErrors:change", ErrorsData(formErrors))]
                         + (if formErrors == map[] then [Note("order:ready", OrderData(order))] else [])
    {
      order := Merge(order, FieldPatch(field, value));
      emitted := emitted + [Note("order:change", NoData)];
      var valid := IsOrderValid();
      if valid {
        emitted := emitted + [Note("order:ready", OrderData(order))];
      }
    }

    /** `getFormErrors`: a copy of the last stored errors. */
    function GetFormErrors(): (e: map<Field, string>)
      reads this
      ensures e == formErrors
    {
      formErrors
    }
  }
}
