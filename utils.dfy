/**
 * The pure helpers of src/utils/utils.ts: PascalCase to kebab-case conversion,
 * the selector and emptiness tests, and BEM class-name building.
 */
module Utils {
  import opened Js

  /** A JavaScript value, as far as `isSelector` and `isEmpty` look at it. */
  datatype Value = Undefined | Null | Bool(b: bool) | Number(n: int) | Str(s: string) | Object

  predicate IsUpper(c: char) { 'A' <= c <= 'Z' }

  predicate IsLowerOrDigit(c: char) { 'a' <= c <= 'z' || '0' <= c <= '9' }

  /** The pattern `([a-z0-9])([A-Z])` matches at position `i`. */
  predicate IsBoundary(s: string, i: int)
    requires 0 <= i < |s| - 1
  {
    IsLowerOrDigit(s[i]) && IsUpper(s[i + 1])
  }

  /** `String.prototype.toLowerCase`, restricted to ASCII letters. */
  function ToLower(s: string): (r: string)
    ensures |r| == |s|
    ensures forall i :: 0 <= i < |r| ==> !IsUpper(r[i])
    ensures forall i :: 0 <= i < |s| && !IsUpper(s[i]) ==> r[i] == s[i]
    ensures forall i :: 0 <= i < |s| && IsUpper(s[i]) ==> r[i] as int == s[i] as int + 32
  {
    if s == [] then []
    else [if IsUpper(s[0]) then (s[0] as int + 32) as char else s[0]] + ToLower(s[1..])
  }

  /**
   * `value.replace(/([a-z0-9])([A-Z])/g, "$1-$2")`: the scan goes left to right;
   * a match consumes both of its characters and the scan resumes after them.
   */
  function ReplaceBoundaries(s: string): string
    decreases |s|
  {
    if |s| < 2 then s
    else if IsLowerOrDigit(s[0]) && IsUpper(s[1]) then [s[0], '-', s[1]] + ReplaceBoundaries(s[2..])
    else [s[0]] + ReplaceBoundaries(s[1..])
  }

  /** Reference definition: a hyphen inserted at every lower-case/digit to upper-case boundary. */
  function Hyphenate(s: string): string
    decreases |s|
  {
    if |s| < 2 then s
    else [s[0]] + (if IsBoundary(s, 0) then "-" else "") + Hyphenate(s[1..])
  }

  /** The number of lower-case/digit to upper-case boundaries in `s`. */
  function BoundaryCount(s: string): nat
    decreases |s|
  {
    if |s| < 2 then 0
    else (if IsBoundary(s, 0) then 1 else 0) + BoundaryCount(s[1..])
  }

  /**
   * Because `[a-z0-9]` and `[A-Z]` are disjoint, two matches never compete for a
   * character, so the global replace inserts a hyphen at every boundary.
   */
  lemma {:induction false} ReplaceIsHyphenate(s: string)
    ensures ReplaceBoundaries(s) == Hyphenate(s)
    decreases |s|
  {
    if |s| < 2 {
    } else if IsLowerOrDigit(s[0]) && IsUpper(s[1]) {
      ReplaceIsHyphenate(s[2..]);
      var t := s[1..];
      assert t[1..] == s[2..];
      if |t| >= 2 {
        assert !IsBoundary(t, 0);
        assert Hyphenate(t) == [t[0]] + Hyphenate(t[1..]);
      }
    } else {
      ReplaceIsHyphenate(s[1..]);
    }
  }

  lemma {:induction false} HyphenateLength(s: string)
    ensures |Hyphenate(s)| == |s| + BoundaryCount(s)
    decreases |s|
  {
    if |s| >= 2 {
      HyphenateLength(s[1..]);
    }
  }

  lemma {:induction false} HyphenateWithoutUpper(s: string)
    requires forall i :: 0 <= i < |s| ==> !IsUpper(s[i])
    ensures Hyphenate(s) == s
    decreases |s|
  {
    if |s| >= 2 {
      HyphenateWithoutUpper(s[1..]);
    }
  }

  /** `pascalToKebab`. */
  function PascalToKebab(value: string): string
  {
    ToLower(ReplaceBoundaries(value))
  }

  /** The conversion is "hyphenate every boundary, then lower-case". */
  lemma PascalToKebabIsLowerHyphenate(value: string)
    ensures PascalToKebab(value) == ToLower(Hyphenate(value))
  {
    ReplaceIsHyphenate(value);
  }

  /** The result has no upper-case ASCII letter and one extra character per boundary. */
  lemma PascalToKebabShape(value: string)
    ensures forall i :: 0 <= i < |PascalToKebab(value)| ==> !IsUpper(PascalToKebab(value)[i])
    ensures |PascalToKebab(value)| == |value| + BoundaryCount(value)
  {
    ReplaceIsHyphenate(value);
    HyphenateLength(value);
  }

  /** A string with no upper-case ASCII letter is returned unchanged. */
  lemma PascalToKebabIdentity(value: string)
    requires forall i :: 0 <= i < |value| ==> !IsUpper(value[i])
    ensures PascalToKebab(value) == value
  {
    ReplaceIsHyphenate(value);
    HyphenateWithoutUpper(value);
  }

  /**
   * `isSelector`: a string whose `length`, counted in UTF-16 code units, is
   * more than one (and the type guard "x is string").
   */
  function IsSelector(x: Value): (r: bool)
    ensures r ==> x.Str?
    ensures r <==> x.Str? && Utf16Length(x.s) > 1
    ensures x.Str? && |x.s| > 1 ==> r
  {
    match x
    case Str(s) => Utf16Length(s) > 1
    case _ => false
  }

  /** A single character is a selector exactly when it lies outside the Basic Multilingual Plane. */
  lemma IsSelectorOneChar(c: char)
    ensures IsSelector(Str([c])) <==> c as int > 0xFFFF
  {
    assert [c][1..] == [];
  }

  /** `isEmpty`: exactly `null` and `undefined`. */
  function IsEmpty(v: Value): (r: bool)
    ensures r <==> v == Null || v == Undefined
    ensures r ==> !IsSelector(v)
  {
    match v
    case Null => true
    case Undefined => true
    case _ => false
  }

  /** Whether an optional string argument is truthy: present and non-empty. */
  predicate Truthy(s: Option<string>)
  {
    s.Some? && s.value != ""
  }

  datatype BemName = BemName(name: string, cls: string)

  /** `bem(block, element?, modifier?)`. */
  function Bem(block: string, element: Option<string>, modifier: Option<string>): (r: BemName)
    ensures r.cls == "." + r.name
    ensures block <= r.name
    ensures !Truthy(modifier) ==> r.name == block + (if Truthy(element) then "__" + element.value else "")
    ensures Truthy(modifier) ==> r.name == block + (if Truthy(element) then "__" + element.value else "") + "_" + modifier.value
  {
    var name := block;
    var name := if Truthy(element) then name + "__" + element.value else name;
    var name := if Truthy(modifier) then name + "_" + modifier.value else name;
    BemName(name, "." + name)
  }
}
