/**
 * The e-mail-and-phone form of src/components/View/ContactsFormView.ts, with
 * the DOM replaced by the two input values. The format checks
 * `validateEmail` and `validatePhone` are not defined in the code shown, so
 * they are parameters here.
 */
module ContactsFormModel {
  import opened Js
  import opened OrderFormModel

  predicate IsDigit(c: char)
  {
    '0' <= c <= '9'
  }

  /** `value.replace(/\D/g, "")`: the ASCII digits of `s`, in order. */
  function Digits(s: string): (d: string)
    ensures |d| <= |s|
    ensures forall i :: 0 <= i < |d| ==> IsDigit(d[i])
  {
    if s == [] then []
    else (if IsDigit(s[0]) then [s[0]] else []) + Digits(s[1..])
  }

  lemma {:induction false} DigitsAppend(a: string, b: string)
    ensures Digits(a + b) == Digits(a) + Digits(b)
  {
    if a == [] {
      assert a + b == b;
    } else {
      assert (a + b)[0] == a[0];
      assert (a + b)[1..] == a[1..] + b;
      DigitsAppend(a[1..], b);
    }
  }

  /** A string of digits is its own digit string. */
  lemma {:induction false} DigitsOfDigits(d: string)
    requires forall i :: 0 <= i < |d| ==> IsDigit(d[i])
    ensures Digits(d) == d
  {
    if d != [] {
      DigitsOfDigits(d[1..]);
    }
  }

  function Min(a: int, b: int): int
  {
    if a <= b then a else b
  }

  /**
   * `formatPhoneInput`: keep the digits, and once there are more than three
   * lay them out as `+7 (ddd) ddd-dd-dd`, dropping digits after the tenth.
   */
  function FormatPhone(value: string): string
  {
    var d := Digits(value);
    if |d| <= 3 then d
    else if |d| <= 6 then "+7 (" + d[..3] + ") " + d[3..]
    else if |d| <= 8 then "+7 (" + d[..3] + ") " + d[3..6] + "-" + d[6..]
    else "+7 (" + d[..3] + ") " + d[3..6] + "-" + d[6..8] + "-" + d[8..Min(|d|, 10)]
  }

  /** Appending digits appends them to the digit string. */
  lemma DigitsAppendDigits(s: string, x: string)
    requires forall i :: 0 <= i < |x| ==> IsDigit(x[i])
    ensures Digits(s + x) == Digits(s) + x
  {
    DigitsAppend(s, x);
    DigitsOfDigits(x);
  }

  /** The fixed pieces of the layout hold one digit between them: the `7` of `+7`. */
  lemma DigitsOfSeparators()
    ensures Digits("+7 (") == "7"
    ensures Digits(") ") == ""
    ensures Digits("-") == ""
  {
    DigitsAppend("+", "7 (");
    DigitsAppend("7", " (");
    DigitsAppend(")", " ");
  }

  /** Appending a piece without digits leaves the digit string alone. */
  lemma DigitsAppendSeparator(s: string, sep: string)
    requires Digits(sep) == ""
    ensures Digits(s + sep) == Digits(s)
  {
    DigitsAppend(s, sep);
  }

  /** The layout for four to six digits. */
  lemma DigitsOfShortLayout(d: string)
    requires 3 < |d| && forall i :: 0 <= i < |d| ==> IsDigit(d[i])
    ensures Digits("+7 (" + d[..3] + ") " + d[3..]) == "7" + d
  {
    DigitsOfSeparators();
    DigitsAppendDigits("+7 (", d[..3]);
    DigitsAppendSeparator("+7 (" + d[..3], ") ");
    DigitsAppendDigits("+7 (" + d[..3] + ") ", d[3..]);
    assert d[..3] + d[3..] == d;
  }

  /** The layout for seven or eight digits. */
  lemma DigitsOfMediumLayout(d: string)
    requires 6 < |d| && forall i :: 0 <= i < |d| ==> IsDigit(d[i])
    ensures Digits("+7 (" + d[..3] + ") " + d[3..6] + "-" + d[6..]) == "7" + d
  {
    DigitsOfSeparators();
    DigitsAppendDigits("+7 (", d[..3]);
    DigitsAppendSeparator("+7 (" + d[..3], ") ");
    DigitsAppendDigits("+7 (" + d[..3] + ") ", d[3..6]);
    DigitsAppendSeparator("+7 (" + d[..3] + ") " + d[3..6], "-");
    DigitsAppendDigits("+7 (" + d[..3] + ") " + d[3..6] + "-", d[6..]);
    assert d[..3] + d[3..6] + d[6..] == d;
  }

  /** The layout for nine or more digits, cut after the tenth. */
  lemma DigitsOfLongLayout(d: string)
    requires 8 < |d| && forall i :: 0 <= i < |d| ==> IsDigit(d[i])
    ensures Digits("+7 (" + d[..3] + ") " + d[3..6] + "-" + d[6..8] + "-" + d[8..Min(|d|, 10)]) == "7" + d[..Min(|d|, 10)]
  {
    var m := Min(|d|, 10);
    DigitsOfSeparators();
    DigitsAppendDigits("+7 (", d[..3]);
    DigitsAppendSeparator("+7 (" + d[..3], ") ");
    DigitsAppendDigits("+7 (" + d[..3] + ") ", d[3..6]);
    DigitsAppendSeparator("+7 (" + d[..3] + ") " + d[3..6], "-");
    DigitsAppendDigits("+7 (" + d[..3] + ") " + d[3..6] + "-", d[6..8]);
    DigitsAppendSeparator("+7 (" + d[..3] + ") " + d[3..6] + "-" + d[6..8], "-");
    DigitsAppendDigits("+7 (" + d[..3] + ") " + d[3..6] + "-" + d[6..8] + "-", d[8..m]);
    assert d[..3] + d[3..6] + d[6..8] + d[8..m] == d[..m];
  }

  /**
   * The digits of the formatted value: the input's digits when there are at
   * most three, otherwise a `7` followed by the first ten input digits.
   */
  lemma FormatPhoneDigits(value: string)
    ensures var d := Digits(value);
            Digits(FormatPhone(value)) == if |d| <= 3 then d else "7" + d[..Min(|d|, 10)]
  {
    var d := Digits(value);
    if |d| <= 3 {
      DigitsOfDigits(d);
    } else if |d| <= 6 {
      DigitsOfShortLayout(d);
      assert d[..Min(|d|, 10)] == d;
    } else if |d| <= 8 {
      DigitsOfMediumLayout(d);
      assert d[..Min(|d|, 10)] == d;
    } else {
      DigitsOfLongLayout(d);
    }
  }

  /** The formatted value is at most `+7 (ddd) ddd-dd-dd` long. */
  lemma FormatPhoneLength(value: string)
    ensures |FormatPhone(value)| <= 18
  {
  }

  /** Four digits are laid out as a code and the start of a number. */
  lemma FormatPhoneFourDigits()
    ensures FormatPhone("1234") == "+7 (123) 4"
  {
    DigitsOfDigits("1234");
    assert "1234"[..3] == "123" && "1234"[3..] == "4";
  }

  /**
   * Formatting is not idempotent: re-formatting reads the `7` of `+7` as a
   * digit of the number.
   */
  lemma FormatPhoneNotIdempotent()
    ensures FormatPhone(FormatPhone("1234")) == "+7 (712) 34"
  {
    FormatPhoneFourDigits();
    var f := "+7 (123) 4";
    assert f == "+7 (" + "1234"[..3] + ") " + "1234"[3..];
    DigitsOfShortLayout("1234");
    var d := "71234";
    assert Digits(f) == d;
    assert d[..3] == "712" && d[3..] == "34";
  }

  const FillAll := "Заполните все поля"
  const EnterEmail := "Введите email"
  const BadEmail := "Неверный формат email"
  const EnterPhone := "Введите телефон"
  const BadPhone := "Неверный формат телефона"

  /** The message for one field that is not blank on both: missing, malformed, or none. */
  function FieldErrors(value: string, valid: string -> bool, missing: string, malformed: string): (errors: seq<string>)
    ensures IsBlank(value) ==> errors == [missing]
    ensures !IsBlank(value) && !valid(Trim(value)) ==> errors == [malformed]
    ensures !IsBlank(value) && valid(Trim(value)) ==> errors == []
  {
    if IsBlank(value) then [missing]
    else if !valid(Trim(value)) then [malformed]
    else []
  }

  /** The messages of `validateForm`, checking the trimmed values with the given format checks. */
  function ContactsErrors(email: string, phone: string, validEmail: string -> bool, validPhone: string -> bool): (errors: seq<string>)
    ensures IsBlank(email) && IsBlank(phone) ==> errors == [FillAll]
    ensures !(IsBlank(email) && IsBlank(phone)) ==>
              errors == FieldErrors(email, validEmail, EnterEmail, BadEmail) + FieldErrors(phone, validPhone, EnterPhone, BadPhone)
    ensures |errors| <= 2
    ensures errors == [] <==> !IsBlank(email) && !IsBlank(phone) && validEmail(Trim(email)) && validPhone(Trim(phone))
  {
    if IsBlank(email) && IsBlank(phone) then [FillAll]
    else FieldErrors(email, validEmail, EnterEmail, BadEmail) + FieldErrors(phone, validPhone, EnterPhone, BadPhone)
  }

  /** `validateForm`: submit is enabled exactly when there is no message. */
  function CheckContactsForm(email: string, phone: string, validEmail: string -> bool, validPhone: string -> bool): (v: Verdict)
    ensures v.errors == ContactsErrors(email, phone, validEmail, validPhone)
    ensures v.valid <==> !IsBlank(email) && !IsBlank(phone) && validEmail(Trim(email)) && validPhone(Trim(phone))
  {
    var errors := ContactsErrors(email, phone, validEmail, validPhone);
    Verdict(|errors| == 0, errors)
  }

  /** The submit handler: `contacts:submit` carries the raw values, and only when neither is blank. */
  function ContactsSubmit(email: string, phone: string): (r: Option<(string, string)>)
    ensures r.Some? <==> !IsBlank(email) && !IsBlank(phone)
    ensures r.Some? ==> r.value == (email, phone)
  {
    if !IsBlank(email) && !IsBlank(phone) then Some((email, phone)) else None
  }
}
