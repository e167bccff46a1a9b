/**
 * JavaScript values as they arrive in a parsed JSON request body or in an
 * analytics detail object, with the coercions the application relies on:
 * truthiness, `typeof`, property access, template-literal string conversion
 * and numeric conversion. JSON numbers are integral; an object is its list of
 * properties in insertion order.
 */
module JsValue {
  import opened Wrappers
  import opened JsText

  datatype Json =
    | JUndefined
    | JNull
    | JBool(b: bool)
    | JNum(n: int)
    | JStr(s: string)
    | JArr(items: seq<Json>)
    | JObj(props: seq<(string, Json)>)

  /** The result of a numeric conversion: NaN, an infinity, or a finite value, kept exact rather than rounded to a double. */
  datatype Number = NaN | PosInfinity | NegInfinity | Finite(value: real)

  /** JavaScript truthiness: `undefined`, `null`, `false`, `0` and `""` are falsy, every array and object is truthy. */
  predicate Truthy(v: Json) {
    match v
    case JUndefined => false
    case JNull => false
    case JBool(b) => b
    case JNum(n) => n != 0
    case JStr(s) => s != []
    case JArr(_) => true
    case JObj(_) => true
  }

  predicate Nullish(v: Json) {
    v.JUndefined? || v.JNull?
  }

  /** `typeof v` (null is "object"). */
  function TypeOf(v: Json): string {
    match v
    case JUndefined => "undefined"
    case JNull => "object"
    case JBool(_) => "boolean"
    case JNum(_) => "number"
    case JStr(_) => "string"
    case JArr(_) => "object"
    case JObj(_) => "object"
  }

  /** The value of key `k` among `props`; with a repeated key the last one wins, as in `JSON.parse`. */
  function Lookup(props: seq<(string, Json)>, k: string): (r: Json)
    ensures r == JUndefined || exists i :: 0 <= i < |props| && props[i] == (k, r)
  {
    if props == [] then JUndefined
    else if props[|props| - 1].0 == k then props[|props| - 1].1
    else Lookup(props[..|props| - 1], k)
  }

  predicate HasKey(props: seq<(string, Json)>, k: string) {
    exists i :: 0 <= i < |props| && props[i].0 == k
  }

  /** A key that is absent from an object reads as `undefined`. */
  lemma {:induction false} LookupAbsent(props: seq<(string, Json)>, k: string)
    requires !HasKey(props, k)
    ensures Lookup(props, k) == JUndefined
  {
    if props != [] {
      var front := props[..|props| - 1];
      assert !HasKey(front, k) by {
        forall i | 0 <= i < |front| ensures front[i].0 != k {
          assert front[i] == props[i];
        }
      }
      LookupAbsent(front, k);
    }
  }

  /** A key appended after every other property is the one read back. */
  lemma LookupLast(props: seq<(string, Json)>, k: string, v: Json)
    ensures Lookup(props + [(k, v)], k) == v
  {
  }

  /**
   * Property read `v.k` on a value that is not `null` or `undefined`, for the
   * data keys the application reads: an object's own property, `undefined`
   * when absent, and `undefined` on any other value. Methods inherited from
   * the built-in prototypes are not JSON values; the one such key the
   * application reaches, a string's `link`, is accounted for by `TruthyProp`.
   */
  function Get(v: Json, k: string): Json
    requires !Nullish(v)
  {
    if v.JObj? then Lookup(v.props, k) else JUndefined
  }

  /** Template-literal / `String(v)` conversion. */
  function ToText(v: Json): string
    decreases v, 1, 0
  {
    match v
    case JUndefined => "undefined"
    case JNull => "null"
    case JBool(b) => if b then "true" else "false"
    case JNum(n) => IntToString(n)
    case JStr(s) => s
    case JArr(items) => ItemsText(v, 0)
    case JObj(_) => "[object Object]"
  }

  /** `items.slice(i).join(",")` with `null` and `undefined` elements written as empty strings. */
  function ItemsText(v: Json, i: nat): string
    requires v.JArr? && i <= |v.items|
    decreases v, 0, |v.items| - i
  {
    if i == |v.items| then []
    else
      var head := if Nullish(v.items[i]) then [] else ToText(v.items[i]);
      if i + 1 == |v.items| then head else head + "," + ItemsText(v, i + 1)
  }

  /**
   * Whether `v.k` is truthy. Beyond an object's own properties, a string
   * inherits the method `link` from `String.prototype`, and a function is
   * truthy; no other key the application reads names a method of the
   * built-in prototypes.
   */
  predicate TruthyProp(v: Json, k: string)
    requires !Nullish(v)
  {
    Truthy(Get(v, k)) || (v.JStr? && k == "link")
  }

  /**
   * Whether converting `v` to a primitive throws a TypeError. An object with
   * its own `toString` key hides the inherited method behind a value that
   * cannot be called, and `valueOf` gives back the object itself, so no
   * conversion is left; an array converts by joining its elements, so it
   * throws when one of them does.
   */
  predicate ToPrimitiveThrows(v: Json)
    decreases v
  {
    match v
    case JObj(props) => HasKey(props, "toString")
    case JArr(items) => exists i :: 0 <= i < |items| && ToPrimitiveThrows(items[i])
    case _ => false
  }

  /** The value of a character as a digit in bases up to 36: `0`-`9`, then letters from 10 in either case; 36 for anything else. */
  function DigitValue(c: char): nat {
    if '0' <= c <= '9' then c as nat - '0' as nat
    else if 'a' <= c <= 'z' then c as nat - 'a' as nat + 10
    else if 'A' <= c <= 'Z' then c as nat - 'A' as nat + 10
    else 36
  }

  predicate RadixDigits(s: string, radix: nat) {
    forall i :: 0 <= i < |s| ==> DigitValue(s[i]) < radix
  }

  /** The value of the digits `s` in base `radix`, most significant first. */
  function RadixValue(s: string, radix: nat): nat {
    if s == [] then 0 else RadixValue(s[..|s| - 1], radix) * radix + DigitValue(s[|s| - 1])
  }

  /** `x` times 10 to the power `k`, exactly. */
  function Scale(x: real, k: int): real
    decreases if k < 0 then -k else k
  {
    if k == 0 then x
    else if k > 0 then 10.0 * Scale(x, k - 1)
    else Scale(x, k + 1) / 10.0
  }

  /** The first position of `s` holding a character of `cs`, or `|s|` when there is none. */
  function FirstOf(s: string, cs: string): (i: nat)
    ensures i <= |s|
  {
    if s == [] || s[0] in cs then 0 else 1 + FirstOf(s[1..], cs)
  }

  /** The exponent after `e` or `E`: an optional sign, then at least one decimal digit. */
  function ExponentValue(s: string): Option<int> {
    if s != [] && (s[0] == '+' || s[0] == '-') then
      if |s| > 1 && RadixDigits(s[1..], 10) then
        Some(if s[0] == '-' then -(RadixValue(s[1..], 10) as int) else RadixValue(s[1..], 10))
      else None
    else if s != [] && RadixDigits(s, 10) then Some(RadixValue(s, 10))
    else None
  }

  /**
   * An unsigned decimal literal: digits with an optional point and fraction,
   * at least one digit on either side of the point, then an optional
   * exponent.
   */
  function DecimalValue(t: string): Option<real> {
    var e := FirstOf(t, "eE");
    var mantissa := t[..e];
    var dot := FirstOf(mantissa, ".");
    var whole := mantissa[..dot];
    var fraction := if dot < |mantissa| then mantissa[dot + 1..] else [];
    var exponent := if e < |t| then ExponentValue(t[e + 1..]) else Some(0);
    if whole + fraction != [] && RadixDigits(whole + fraction, 10) && exponent.Some? then
      Some(Scale(RadixValue(whole + fraction, 10) as real, exponent.value - |fraction|))
    else None
  }

  /** `Infinity` or a decimal literal, without a sign. */
  function UnsignedValue(t: string): Number {
    if |t| == 8 && t[0] == 'I' && t == "Infinity" then PosInfinity
    else match DecimalValue(t)
      case Some(x) => Finite(x)
      case None => NaN
  }

  function Negate(n: Number): Number {
    match n
    case NaN => NaN
    case PosInfinity => NegInfinity
    case NegInfinity => PosInfinity
    case Finite(x) => Finite(-x)
  }

  /** The base that the letter after a leading `0` selects: 16 for `x`, 8 for `o`, 2 for `b`, in either case; 0 for anything else. */
  function PrefixRadix(c: char): nat {
    if c == 'x' || c == 'X' then 16
    else if c == 'o' || c == 'O' then 8
    else if c == 'b' || c == 'B' then 2
    else 0
  }

  /**
   * `Number(s)` for a string, by the StringNumericLiteral grammar of the
   * ECMAScript specification: surrounding whitespace is ignored and a blank
   * string is 0; `0x`, `0o` and `0b` introduce unsigned integers in bases 16,
   * 8 and 2; otherwise an optional sign precedes `Infinity` or a decimal
   * literal; anything else is NaN.
   */
  function TextToNumber(s: string): Number {
    var t := Trim(s);
    if t == [] then Finite(0.0)
    else if |t| >= 2 && t[0] == '0' && PrefixRadix(t[1]) != 0 then
      var digits := t[2..];
      if digits != [] && RadixDigits(digits, PrefixRadix(t[1])) then Finite(RadixValue(digits, PrefixRadix(t[1])) as real)
      else NaN
    else if t[0] == '+' then UnsignedValue(t[1..])
    else if t[0] == '-' then Negate(UnsignedValue(t[1..]))
    else UnsignedValue(t)
  }

  /** `Number(v)`, the conversion an arithmetic operator applies, for a value whose conversion does not throw; a plain object reads as "[object Object]", which is NaN. */
  function ToNumber(v: Json): Number
    requires !ToPrimitiveThrows(v)
  {
    match v
    case JUndefined => NaN
    case JNull => Finite(0.0)
    case JBool(b) => Finite(if b then 1.0 else 0.0)
    case JNum(n) => Finite(n as real)
    case JStr(s) => TextToNumber(s)
    case JArr(_) => TextToNumber(ToText(v))
    case JObj(_) => NaN
  }

  /** The decimal rendering of a number is a run of digits whose value is that number. */
  lemma {:induction false} NatTextValue(n: nat)
    ensures RadixDigits(NatToString(n), 10) && RadixValue(NatToString(n), 10) == n
  {
    var s := NatToString(n);
    if n < 10 {
      DigitCharValue(n);
    } else {
      var front := NatToString(n / 10);
      NatTextValue(n / 10);
      DigitCharValue(n % 10);
      assert s == front + [DigitChar(n % 10)];
      assert s[..|s| - 1] == front;
      forall k | 0 <= k < |s| ensures DigitValue(s[k]) < 10 {
        if k < |front| {
          assert s[k] == front[k];
        }
      }
    }
  }

  lemma DigitCharValue(d: nat)
    requires d < 10
    ensures DigitValue(DigitChar(d)) == d
  {
    if d < 5 {
      assert d == 0 || d == 1 || d == 2 || d == 3 || d == 4;
    } else {
      assert d == 5 || d == 6 || d == 7 || d == 8 || d == 9;
    }
  }

  /** Without a character of `cs`, `FirstOf` runs to the end. */
  lemma {:induction false} FirstOfAbsent(s: string, cs: string)
    requires forall k :: 0 <= k < |s| ==> s[k] !in cs
    ensures FirstOf(s, cs) == |s|
  {
    if s != [] {
      assert s[0] !in cs;
      assert forall k :: 0 <= k < |s| - 1 ==> s[1..][k] == s[k + 1];
      FirstOfAbsent(s[1..], cs);
    }
  }

  /** A run of digits has no whitespace to trim. */
  lemma TrimDigits(t: string)
    requires t != [] && RadixDigits(t, 10)
    ensures Trim(t) == t
  {
    assert !IsSpace(t[0]) && !IsSpace(t[|t| - 1]) by {
      assert DigitValue(t[0]) < 10 && DigitValue(t[|t| - 1]) < 10;
    }
    TrimUnchanged(t);
  }

  /** Digits hold no `e`, `E` or point. */
  lemma NoLetterOrPoint(t: string, cs: string)
    requires RadixDigits(t, 10) && (cs == "eE" || cs == ".")
    ensures FirstOf(t, cs) == |t|
  {
    forall k | 0 <= k < |t| ensures t[k] !in cs {
      assert DigitValue(t[k]) < 10;
    }
    FirstOfAbsent(t, cs);
  }

  /** A run of decimal digits converts to its value. */
  lemma DigitsValue(t: string)
    requires t != [] && RadixDigits(t, 10)
    ensures DecimalValue(t) == Some(RadixValue(t, 10) as real)
    ensures UnsignedValue(t) == Finite(RadixValue(t, 10) as real)
  {
    NoLetterOrPoint(t, "eE");
    NoLetterOrPoint(t, ".");
    assert t[..|t|] == t;
    assert t[..|t|] + [] == t;
    assert DigitValue(t[0]) < 10;
  }

  /** Digits without a sign convert as a decimal literal. */
  lemma UnsignedText(t: string)
    requires t != [] && RadixDigits(t, 10)
    ensures TextToNumber(t) == UnsignedValue(t)
  {
    assert DigitValue(t[0]) < 10 && DigitValue(t[|t| - 1]) < 10;
    if |t| >= 2 {
      assert DigitValue(t[1]) < 10;
    }
    PlainText(t);
  }

  /** Text that opens with a digit not followed by a base letter, and ends with a digit or letter, is read as an unsigned literal. */
  lemma PlainText(t: string)
    requires PlainShape(t)
    ensures TextToNumber(t) == UnsignedValue(t)
  {
    assert !IsSpace(t[0]) && !IsSpace(t[|t| - 1]);
    TrimUnchanged(t);
  }

  /** A sign before digits negates them or leaves them as they are. */
  lemma SignedText(t: string)
    requires t != [] && RadixDigits(t, 10)
    ensures TextToNumber("-" + t) == Negate(UnsignedValue(t))
    ensures TextToNumber("+" + t) == UnsignedValue(t)
  {
    assert DigitValue(t[|t| - 1]) < 10;
    var minus, plus := "-" + t, "+" + t;
    assert minus[|minus| - 1] == t[|t| - 1] && plus[|plus| - 1] == t[|t| - 1];
    TrimUnchanged(minus);
    TrimUnchanged(plus);
    assert minus[1..] == t && plus[1..] == t;
  }

  /** A run of digits converts to its value, with either sign before it. */
  lemma DigitsText(t: string, v: nat)
    requires t != [] && RadixDigits(t, 10) && RadixValue(t, 10) == v
    ensures TextToNumber(t) == Finite(v as real)
    ensures TextToNumber("+" + t) == Finite(v as real)
    ensures TextToNumber("-" + t) == Finite(-(v as real))
  {
    DigitsValue(t);
    UnsignedText(t);
    SignedText(t);
  }

  /** `FirstOf` stops at the first character of `cs`. */
  lemma {:induction false} FirstOfAt(a: string, b: string, cs: string)
    requires forall k :: 0 <= k < |a| ==> a[k] !in cs
    requires b != [] && b[0] in cs
    ensures FirstOf(a + b, cs) == |a|
  {
    if a == [] {
      assert a + b == b;
    } else {
      assert (a + b)[0] == a[0];
      assert (a + b)[1..] == a[1..] + b;
      assert forall k :: 0 <= k < |a| - 1 ==> a[1..][k] == a[k + 1];
      FirstOfAt(a[1..], b, cs);
    }
  }

  /** Digits, `e` and digits: the first digits scaled by the power of ten that the second give. */
  lemma ExponentDecimal(d: string, x: string)
    requires d != [] && RadixDigits(d, 10) && x != [] && RadixDigits(x, 10)
    ensures DecimalValue(d + "e" + x) == Some(Scale(RadixValue(d, 10) as real, RadixValue(x, 10)))
  {
    var t := d + "e" + x;
    ExponentSplit(d, x);
    NoLetterOrPoint(d, ".");
    assert d[..|d|] + [] == d;
    ExponentDigits(x);
  }

  /** In digits, `e` and more, the exponent starts after the digits. */
  lemma ExponentSplit(d: string, x: string)
    requires RadixDigits(d, 10)
    ensures FirstOf(d + "e" + x, "eE") == |d|
    ensures (d + "e" + x)[..|d|] == d && (d + "e" + x)[|d| + 1..] == x
  {
    forall k | 0 <= k < |d| ensures d[k] !in "eE" {
      assert DigitValue(d[k]) < 10;
    }
    assert d + "e" + x == d + ("e" + x);
    FirstOfAt(d, "e" + x, "eE");
  }

  /** An exponent of digits alone is their value. */
  lemma ExponentDigits(x: string)
    requires x != [] && RadixDigits(x, 10)
    ensures ExponentValue(x) == Some(RadixValue(x, 10) as int)
  {
    assert DigitValue(x[0]) < 10;
  }

  /** `Number("<m>e<k>")` is m times 10 to the k, as `Number("1e13")` is ten trillion. */
  lemma ExponentNotation(m: nat, k: nat)
    ensures TextToNumber(NatToString(m) + "e" + NatToString(k)) == Finite(Scale(m as real, k))
  {
    NatTextValue(m);
    NatTextValue(k);
    ExponentText(NatToString(m), NatToString(k));
  }

  lemma ExponentText(d: string, x: string)
    requires d != [] && RadixDigits(d, 10) && x != [] && RadixDigits(x, 10)
    ensures TextToNumber(d + "e" + x) == Finite(Scale(RadixValue(d, 10) as real, RadixValue(x, 10)))
  {
    ExponentDecimal(d, x);
    ExponentShape(d, x);
    DecimalText(d + "e" + x, Scale(RadixValue(d, 10) as real, RadixValue(x, 10)));
  }

  lemma ExponentShape(d: string, x: string)
    requires d != [] && RadixDigits(d, 10) && x != [] && RadixDigits(x, 10)
    ensures PlainShape(d + "e" + x)
  {
    var t := d + "e" + x;
    assert t[0] == d[0] && DigitValue(d[0]) < 10;
    assert t[|t| - 1] == x[|x| - 1] && DigitValue(x[|x| - 1]) < 10;
    if |d| >= 2 {
      assert t[1] == d[1] && DigitValue(d[1]) < 10;
    } else {
      assert t[1] == 'e';
    }
  }

  /** Text that opens with a digit not followed by a base letter and ends with a digit or letter. */
  predicate PlainShape(t: string) {
    t != [] && DigitValue(t[0]) < 10 && DigitValue(t[|t| - 1]) < 36 && (|t| >= 2 ==> PrefixRadix(t[1]) == 0)
  }

  /** Text read as an unsigned literal that is a decimal literal converts to its value. */
  lemma DecimalText(t: string, x: real)
    requires PlainShape(t)
    requires DecimalValue(t) == Some(x)
    ensures TextToNumber(t) == Finite(x)
  {
    PlainText(t);
  }

  /** `0x`, `0o` and `0b`, in either case, followed by digits of their base convert to the digits' value. */
  lemma PrefixedNotation(c: char, d: string)
    requires PrefixRadix(c) != 0 && d != [] && RadixDigits(d, PrefixRadix(c))
    ensures TextToNumber(['0', c] + d) == Finite(RadixValue(d, PrefixRadix(c)) as real)
  {
    var t := ['0', c] + d;
    assert t[|t| - 1] == d[|d| - 1] && DigitValue(d[|d| - 1]) < 36;
    assert !IsSpace(t[|t| - 1]);
    TrimUnchanged(t);
    assert t[2..] == d;
  }

  /** A point and a zero after the digits leave the value: `Number("5.0")` is 5. */
  lemma PointNotation(m: nat)
    ensures TextToNumber(NatToString(m) + ".0") == Finite(m as real)
  {
    var d := NatToString(m);
    NatTextValue(m);
    PointZeroDecimal(d);
    PointShape(d);
    DecimalText(d + ".0", Scale(RadixValue(d + "0", 10) as real, -1));
    TenfoldDigits(d);
    TenthOfTenfold(m);
  }

  lemma PointShape(d: string)
    requires d != [] && RadixDigits(d, 10)
    ensures PlainShape(d + ".0")
  {
    var t := d + ".0";
    assert t[0] == d[0] && DigitValue(d[0]) < 10;
    if |d| >= 2 {
      assert t[1] == d[1] && DigitValue(d[1]) < 10;
    } else {
      assert t[1] == '.';
    }
  }

  lemma PointZeroDecimal(d: string)
    requires d != [] && RadixDigits(d, 10)
    ensures DecimalValue(d + ".0") == Some(Scale(RadixValue(d + "0", 10) as real, -1))
  {
    var t := d + ".0";
    forall k | 0 <= k < |t| ensures t[k] !in "eE" {
      if k < |d| {
        assert t[k] == d[k] && DigitValue(d[k]) < 10;
      }
    }
    FirstOfAbsent(t, "eE");
    assert t[..|t|] == t;
    forall k | 0 <= k < |d| ensures d[k] !in "." {
      assert DigitValue(d[k]) < 10;
    }
    FirstOfAt(d, ".0", ".");
    assert t[..|d|] == d && t[|d| + 1..] == "0";
    assert forall k :: 0 <= k < |d + "0"| ==> DigitValue((d + "0")[k]) < 10;
  }

  lemma TenfoldDigits(d: string)
    ensures RadixValue(d + "0", 10) == RadixValue(d, 10) * 10
  {
    assert (d + "0")[..|d|] == d;
  }

  lemma TenthOfTenfold(m: nat)
    ensures Finite(Scale((m * 10) as real, -1)) == Finite(m as real)
  {
  }

  /** A blank string converts to 0. */
  lemma BlankIsZero(s: string)
    requires forall i :: 0 <= i < |s| ==> IsSpace(s[i])
    ensures TextToNumber(s) == Finite(0.0)
  {
    TrimEmptyIffAllSpace(s);
  }

  /** A decimal literal opens with a digit or a point. */
  lemma DecimalOpening(t: string)
    requires DecimalValue(t).Some?
    ensures t != [] && (DigitValue(t[0]) < 10 || t[0] == '.')
  {
    var e := FirstOf(t, "eE");
    var mantissa := t[..e];
    var dot := FirstOf(mantissa, ".");
    var whole := mantissa[..dot];
    var fraction := if dot < |mantissa| then mantissa[dot + 1..] else [];
    assert whole + fraction != [] && RadixDigits(whole + fraction, 10);
    if dot == 0 {
      assert mantissa != [];
      assert mantissa[0] == '.';
    } else {
      assert (whole + fraction)[0] == t[0];
    }
  }

  /** Text whose trimmed form opens with a lower-case letter is not a number. */
  lemma WordIsNaN(s: string)
    requires Trim(s) != [] && 'a' <= Trim(s)[0] <= 'z'
    ensures TextToNumber(s) == NaN
  {
    var t := Trim(s);
    if DecimalValue(t).Some? {
      DecimalOpening(t);
    }
  }

  /** `Number(String(n))` is `n`: the rendering of an integer converts back to it. */
  lemma IntTextRoundTrip(n: int)
    ensures TextToNumber(IntToString(n)) == Finite(n as real)
  {
    var m: nat := if n < 0 then -n else n;
    NatTextValue(m);
    DigitsText(NatToString(m), m);
    if n < 0 {
      NegatedCast(m, n);
      assert IntToString(n) == "-" + NatToString(m);
    }
  }

  lemma NegatedCast(m: nat, n: int)
    requires m == -n
    ensures Finite(-(m as real)) == Finite(n as real)
  {
  }
}
