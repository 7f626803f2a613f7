/**
  The few pieces of JavaScript semantics the storefront's handlers lean on:
  truthiness, property access on request bodies, `a || b`, `Number(v)`,
  `String(n)` for naturals, and the string methods used for search and
  normalisation (`trim`, `toLowerCase`, `includes`, `startsWith`).
 */
module Js {

  datatype Option<+T> = None | Some(value: T)

  /** A JSON value as Express hands it to a handler (`req.body` and its parts). */
  datatype JsValue =
    | Undefined
    | Null
    | Bool(b: bool)
    | Num(n: real)
    | Str(s: string)
    | Arr(elems: seq<JsValue>)
    | Obj(fields: map<string, JsValue>)

  /** `!!v` */
  predicate Truthy(v: JsValue)
  {
    match v
    case Undefined => false
    case Null => false
    case Bool(b) => b
    case Num(n) => n != 0.0
    case Str(s) => s != ""
    case Arr(_) => true
    case Obj(_) => true
  }

  /** `typeof v === "object" && v !== null` (arrays are objects too). */
  predicate IsObject(v: JsValue)
  {
    v.Arr? || v.Obj?
  }

  /** `v?.[key]`: a property that is not there reads as `undefined`. */
  function Get(v: JsValue, key: string): (r: JsValue)
    ensures !v.Obj? ==> r == Undefined
    ensures v.Obj? && key !in v.fields ==> r == Undefined
  {
    if v.Obj? && key in v.fields then v.fields[key] else Undefined
  }

  /** `a || b` */
  function Or(a: JsValue, b: JsValue): JsValue
  {
    if Truthy(a) then a else b
  }

  // ---------------------------------------------------------------------------
  // Characters and strings

  /** The characters `String.prototype.trim` and the regular-expression class
      `\s` treat as white space: the ECMAScript WhiteSpace characters (tab,
      vertical tab, form feed, the BOM and the Unicode space separators) and
      the LineTerminator characters. */
  predicate IsSpace(c: char)
  {
    || c == ' ' || c == '\t' || c == '\n' || c == '\r' || c == '\U{000B}' || c == '\U{000C}'
    || c == '\U{00A0}' || c == '\U{FEFF}' || c == '\U{1680}' || ('\U{2000}' <= c <= '\U{200A}')
    || c == '\U{2028}' || c == '\U{2029}' || c == '\U{202F}' || c == '\U{205F}' || c == '\U{3000}'
  }

  function TrimStart(s: string): (r: string)
    ensures |r| <= |s| && r == s[|s| - |r|..]
    ensures r == [] || !IsSpace(r[0])
    ensures forall i :: 0 <= i < |s| - |r| ==> IsSpace(s[i])
  {
    if s != [] && IsSpace(s[0]) then TrimStart(s[1..]) else s
  }

  function TrimEnd(s: string): (r: string)
    ensures |r| <= |s| && r == s[..|r|]
    ensures r == [] || !IsSpace(r[|r| - 1])
    ensures forall i :: |r| <= i < |s| ==> IsSpace(s[i])
  {
    if s != [] && IsSpace(s[|s| - 1]) then TrimEnd(s[..|s| - 1]) else s
  }

  /** `s.trim()` */
  function Trim(s: string): string
  {
    TrimEnd(TrimStart(s))
  }

  /** A string that neither starts nor ends with white space is its own trim. */
  lemma TrimUnpadded(s: string)
    requires s != [] && !IsSpace(s[0]) && !IsSpace(s[|s| - 1])
    ensures Trim(s) == s
  {
    assert TrimStart(s) == s;
  }

  /** Trimming again changes nothing. */
  lemma TrimTwice(s: string)
    ensures Trim(Trim(s)) == Trim(s)
  {
    var u := TrimStart(s);
    var t := TrimEnd(u);
    if t != [] {
      assert t[0] == u[0];
      assert TrimStart(t) == t;
    }
  }

  /** `s.trim()` is empty exactly when every character of `s` is white space. */
  lemma TrimEmptyIffBlank(s: string)
    ensures Trim(s) == "" <==> forall i :: 0 <= i < |s| ==> IsSpace(s[i])
  {
    var t := TrimStart(s);
    if Trim(s) != "" {
      assert Trim(s)[0] == s[|s| - |t|];
    }
  }

  function LowerChar(c: char): (r: char)
    ensures 'A' <= c <= 'Z' ==> 'a' <= r <= 'z'
    ensures !('A' <= c <= 'Z') ==> r == c
  {
    if 'A' <= c <= 'Z' then (c as int - 'A' as int + 'a' as int) as char else c
  }

  /** `s.toLowerCase()` on the ASCII letters. */
  function ToLower(s: string): (r: string)
    ensures |r| == |s|
    ensures forall i :: 0 <= i < |s| ==> r[i] == LowerChar(s[i])
  {
    if s == [] then [] else [LowerChar(s[0])] + ToLower(s[1..])
  }

  /** `s.startsWith(p)` */
  predicate StartsWith(s: string, p: string)
  {
    |p| <= |s| && s[..|p|] == p
  }

  /** `s.includes(sub)` */
  predicate Includes(s: string, sub: string)
    decreases |s|
  {
    StartsWith(s, sub) || (s != [] && Includes(s[1..], sub))
  }

  /** `sub` occurs in `s` starting at position `i`. */
  predicate OccursAt(s: string, sub: string, i: int)
  {
    0 <= i <= |s| - |sub| && s[i..i + |sub|] == sub
  }

  /** `includes` holds exactly when `sub` occurs at some position of `s`. */
  lemma {:induction false} IncludesIffOccurs(s: string, sub: string)
    ensures Includes(s, sub) <==> exists i :: OccursAt(s, sub, i)
    decreases |s|
  {
    if StartsWith(s, sub) {
      assert OccursAt(s, sub, 0);
    } else if s != [] {
      IncludesIffOccurs(s[1..], sub);
      if Includes(s[1..], sub) {
        var i :| OccursAt(s[1..], sub, i);
        assert s[i + 1..i + 1 + |sub|] == s[1..][i..i + |sub|];
        assert OccursAt(s, sub, i + 1);
      }
      if i :| OccursAt(s, sub, i) {
        assert i > 0;
        assert s[1..][i - 1..i - 1 + |sub|] == s[i..i + |sub|];
        assert OccursAt(s[1..], sub, i - 1);
      }
    }
  }

  // ---------------------------------------------------------------------------
  // Decimal digits: `String(n)` for naturals and `Number(s)`

  predicate IsDigit(c: char)
  {
    '0' <= c <= '9'
  }

  predicate AllDigits(s: string)
  {
    forall i :: 0 <= i < |s| ==> IsDigit(s[i])
  }

  function DigitValue(c: char): nat
    requires IsDigit(c)
  {
    c as int - '0' as int
  }

  /** The value of a string of decimal digits (most significant first). */
  function DigitsValue(s: string): nat
    requires AllDigits(s)
  {
    if s == [] then 0 else 10 * DigitsValue(s[..|s| - 1]) + DigitValue(s[|s| - 1])
  }

  function Pow10(k: nat): (r: nat)
    ensures r >= 1
  {
    if k == 0 then 1 else 10 * Pow10(k - 1)
  }

  /** `String(n)` for a natural number: no sign, no leading zeros. */
  function DecimalString(n: nat): (r: string)
    ensures r != [] && AllDigits(r)
    ensures |r| > 1 ==> r[0] != '0'
    decreases n
  {
    var last := ['0' + (n % 10) as char];
    if n < 10 then last else DecimalString(n / 10) + last
  }

  /** Reading back what `String(n)` wrote gives `n`. */
  lemma {:induction false} DecimalStringRoundTrip(n: nat)
    ensures DigitsValue(DecimalString(n)) == n
    decreases n
  {
    var s := DecimalString(n);
    if n >= 10 {
      DecimalStringRoundTrip(n / 10);
      assert s[..|s| - 1] == DecimalString(n / 10);
    }
  }

  /** A natural has exactly `k` decimal digits when it lies in [10^(k-1), 10^k). */
  lemma {:induction false} DecimalStringLength(n: nat, k: nat)
    requires k >= 1 && Pow10(k - 1) <= n < Pow10(k)
    ensures |DecimalString(n)| == k
    decreases k
  {
    if k > 1 {
      DecimalStringLength(n / 10, k - 1);
    } else {
      assert n < 10;
    }
  }

  /** The position of the first `.` in `t`, or `|t|` when there is none. */
  function IndexOfDot(t: string): (i: nat)
    ensures i <= |t|
    ensures i < |t| ==> t[i] == '.'
    ensures forall j :: 0 <= j < i ==> t[j] != '.'
  {
    if t == [] then 0 else if t[0] == '.' then 0 else 1 + IndexOfDot(t[1..])
  }

  /** The value of an unsigned decimal mantissa `ddd`, `ddd.ddd`, `ddd.` or `.ddd`. */
  function ParseUnsigned(t: string): Option<real>
  {
    var i := IndexOfDot(t);
    var whole := t[..i];
    var frac := if i < |t| then t[i + 1..] else "";
    if !AllDigits(whole) || !AllDigits(frac) || (whole == "" && frac == "") then None
    else Some(DigitsValue(whole) as real + DigitsValue(frac) as real / Pow10(|frac|) as real)
  }

  /** The position of the first `e` or `E` in `t`, or `|t|` when there is none. */
  function IndexOfExponent(t: string): (i: nat)
    ensures i <= |t|
    ensures i < |t| ==> t[i] == 'e' || t[i] == 'E'
    ensures forall j :: 0 <= j < i ==> t[j] != 'e' && t[j] != 'E'
  {
    if t == [] then 0 else if t[0] == 'e' || t[0] == 'E' then 0 else 1 + IndexOfExponent(t[1..])
  }

  /** The value of an exponent `ddd`, `+ddd` or `-ddd`. */
  function ParseExponent(t: string): Option<int>
  {
    if t != [] && (t[0] == '+' || t[0] == '-') then
      var d := t[1..];
      if d != [] && AllDigits(d) then
        var n: int := DigitsValue(d);
        Some(if t[0] == '-' then -n else n)
      else None
    else if t != [] && AllDigits(t) then Some(DigitsValue(t))
    else None
  }

  /** `m` times ten to the power `e`. */
  function Scale(m: real, e: int): real
  {
    if e >= 0 then m * Pow10(e) as real else m / Pow10(-e) as real
  }

  /** The value of an unsigned decimal literal: a mantissa, then optionally
      `e` or `E` and an exponent. */
  function ParseDecimal(t: string): Option<real>
  {
    var i := IndexOfExponent(t);
    match ParseUnsigned(t[..i])
    case None => None
    case Some(m) =>
      if i == |t| then Some(m)
      else match ParseExponent(t[i + 1..])
        case None => None
        case Some(e) => Some(Scale(m, e))
  }

  /** A number other than NaN: a finite value, or one of the two infinities.
      Doubles are modelled by the reals they stand for, without rounding. */
  datatype JsNumber = Finite(x: real) | PosInfinity | NegInfinity

  /** `n > 0` */
  predicate IsPositive(n: JsNumber)
  {
    (n.Finite? && n.x > 0.0) || n.PosInfinity?
  }

  /** `-n` */
  function Negate(n: JsNumber): JsNumber
  {
    match n
    case Finite(x) => Finite(-x)
    case PosInfinity => NegInfinity
    case NegInfinity => PosInfinity
  }

  /** An unsigned decimal literal, or `Infinity`. */
  function ParseUnsignedNumber(t: string): Option<JsNumber>
  {
    if t == "Infinity" then Some(PosInfinity)
    else match ParseDecimal(t)
      case Some(x) => Some(Finite(x))
      case None => None
  }

  /** The value of `c` as a digit in base `radix` (at most 16), if it is one. */
  function RadixDigit(c: char, radix: nat): Option<nat>
  {
    var v := if '0' <= c <= '9' then c as int - '0' as int
             else if 'a' <= c <= 'f' then c as int - 'a' as int + 10
             else if 'A' <= c <= 'F' then c as int - 'A' as int + 10
             else 16;
    if v < radix then Some(v) else None
  }

  predicate AllRadixDigits(s: string, radix: nat)
  {
    forall i :: 0 <= i < |s| ==> RadixDigit(s[i], radix).Some?
  }

  /** The value of a string of base-`radix` digits (most significant first). */
  function RadixValue(s: string, radix: nat): nat
    requires AllRadixDigits(s, radix)
  {
    if s == [] then 0 else radix * RadixValue(s[..|s| - 1], radix) + RadixDigit(s[|s| - 1], radix).value
  }

  /** The base the letter after a leading `0` announces: `x`, `o` or `b` in
      either case; 0 for any other character. */
  function RadixOf(c: char): nat
  {
    if c == 'x' || c == 'X' then 16 else if c == 'o' || c == 'O' then 8 else if c == 'b' || c == 'B' then 2 else 0
  }

  /** Whether `t` starts like a `0x`, `0o` or `0b` literal. */
  predicate HasRadixPrefix(t: string)
  {
    |t| >= 2 && t[0] == '0' && RadixOf(t[1]) != 0
  }

  /** A `0x`, `0o` or `0b` literal: the prefix and at least one digit of its
      base, with no sign. */
  function ParseRadix(t: string): Option<nat>
    requires HasRadixPrefix(t)
  {
    var digits := t[2..];
    if digits != [] && AllRadixDigits(digits, RadixOf(t[1])) then Some(RadixValue(digits, RadixOf(t[1]))) else None
  }

  /** `Number(s)` for a string, after the StringNumericLiteral grammar of
      section 7.1.4.1.1 of ECMA-262: surrounding white space is ignored; a
      blank string reads as 0; a `0x`, `0o` or `0b` literal reads in its base;
      otherwise an optional sign, then `Infinity` or a decimal literal with an
      optional exponent. Anything else is NaN (`None`). */
  function ParseNumber(s: string): (r: Option<JsNumber>)
    ensures Trim(s) == "" ==> r == Some(Finite(0.0))
  {
    var t := Trim(s);
    if t == "" then Some(Finite(0.0))
    else if HasRadixPrefix(t) then
      (match ParseRadix(t) case Some(n) => Some(Finite(n as real)) case None => None)
    else if t[0] == '-' then
      (match ParseUnsignedNumber(t[1..]) case Some(x) => Some(Negate(x)) case None => None)
    else if t[0] == '+' then ParseUnsignedNumber(t[1..])
    else ParseUnsignedNumber(t)
  }

  /** `Number(v)`; `None` stands for NaN. A JSON body carries no infinities,
      so a number in it is finite. An array reads as its `join(",")`: empty,
      or a single element's text; two or more elements give a comma, which
      no numeric literal contains. `null` and `undefined` join as "", a
      boolean as "true" or "false" and an object as "[object Object]". */
  function ToNumber(v: JsValue): Option<JsNumber>
  {
    match v
    case Undefined => None
    case Null => Some(Finite(0.0))
    case Bool(b) => Some(Finite(if b then 1.0 else 0.0))
    case Num(n) => Some(Finite(n))
    case Str(s) => ParseNumber(s)
    case Arr(e) =>
      if e == [] || e[0].Null? || e[0].Undefined? then (if |e| <= 1 then Some(Finite(0.0)) else None)
      else if |e| > 1 || e[0].Bool? || e[0].Obj? then None
      else ToNumber(e[0])
    case Obj(_) => None
  }

  // ---------------------------------------------------------------------------
  // What `Number()` reads

  /** A string of decimal digits is its own trim. */
  lemma DigitsUnpadded(t: string)
    requires t != [] && IsDigit(t[0]) && IsDigit(t[|t| - 1])
    ensures Trim(t) == t
  {
    TrimUnpadded(t);
  }

  /** A mantissa of digits alone reads as their value. */
  lemma UnsignedDigits(d: string)
    requires d != [] && AllDigits(d)
    ensures ParseDecimal(d) == Some(DigitsValue(d) as real)
  {
    assert IndexOfExponent(d) == |d|;
    assert IndexOfDot(d) == |d| && d[..|d|] == d;
  }

  /** A string with no surrounding white space, no radix prefix and no sign
      is read as an unsigned literal. */
  lemma ReadUnsigned(t: string)
    requires t != [] && !IsSpace(t[0]) && !IsSpace(t[|t| - 1])
    requires !HasRadixPrefix(t) && t[0] != '-' && t[0] != '+'
    ensures ParseNumber(t) == ParseUnsignedNumber(t)
  {
    TrimUnpadded(t);
  }

  /** A minus sign in front negates an unsigned literal, and leaves NaN as NaN. */
  lemma ReadNegated(t: string)
    requires t != [] && !IsSpace(t[|t| - 1])
    ensures ParseUnsignedNumber(t).Some? ==> ParseNumber("-" + t) == Some(Negate(ParseUnsignedNumber(t).value))
    ensures ParseUnsignedNumber(t).None? ==> ParseNumber("-" + t) == None
  {
    var m := "-" + t;
    TrimUnpadded(m);
    assert m[1..] == t;
    assert !HasRadixPrefix(m);
  }

  /** Digits alone carry no radix prefix. */
  lemma DigitsNoPrefix(d: string)
    requires AllDigits(d)
    ensures !HasRadixPrefix(d)
  {
    if |d| >= 2 {
      assert IsDigit(d[1]);
    }
  }

  /** Digits alone read as an unsigned literal of their value. */
  lemma DigitsUnsignedNumber(d: string)
    requires d != [] && AllDigits(d)
    ensures ParseUnsignedNumber(d) == Some(Finite(DigitsValue(d) as real))
  {
    UnsignedDigits(d);
    assert d != "Infinity" by { assert IsDigit(d[0]) && "Infinity"[0] == 'I'; }
  }

  /** `Number("ddd")` is the digits' value, leading zeros included, and
      `Number("-ddd")` its negation. */
  lemma DigitsRead(d: string)
    requires d != [] && AllDigits(d)
    ensures ParseNumber(d) == Some(Finite(DigitsValue(d) as real))
    ensures ParseNumber("-" + d) == Some(Finite(-(DigitsValue(d) as real)))
  {
    DigitsUnsignedNumber(d);
    DigitsNoPrefix(d);
    assert IsDigit(d[0]) && IsDigit(d[|d| - 1]);
    ReadUnsigned(d);
    NegatedDigits(d);
    NegatedDigitsValue(d);
  }

  lemma NegatedDigits(d: string)
    requires d != [] && AllDigits(d)
    ensures ParseNumber("-" + d) == Some(Negate(ParseUnsignedNumber(d).value))
  {
    DigitsUnsignedNumber(d);
    assert IsDigit(d[|d| - 1]);
    ReadNegated(d);
  }

  lemma NegatedDigitsValue(d: string)
    requires d != [] && AllDigits(d)
    ensures ParseUnsignedNumber(d).Some? && Negate(ParseUnsignedNumber(d).value) == Finite(-(DigitsValue(d) as real))
  {
    DigitsUnsignedNumber(d);
  }

  /** `Number(String(n))` gives back `n`. */
  lemma DecimalStringReadsBack(n: nat)
    ensures ParseNumber(DecimalString(n)) == Some(Finite(n as real))
  {
    DigitsRead(DecimalString(n));
    DecimalStringRoundTrip(n);
  }

  /** The decimal value of digits, an exponent marker and an exponent. */
  lemma ExponentDecimal(d: string, marker: char, q: string)
    requires d != [] && AllDigits(d) && q != []
    requires marker == 'e' || marker == 'E'
    ensures ParseDecimal(d + [marker] + q)
            == match ParseExponent(q) case Some(e) => Some(Scale(DigitsValue(d) as real, e)) case None => None
  {
    var t := d + [marker] + q;
    assert forall j :: 0 <= j < |d| ==> t[j] == d[j];
    assert IndexOfExponent(t) == |d| by { assert t[|d|] == marker; }
    assert t[..|d|] == d;
    assert t[|d| + 1..] == q;
    UnsignedDigits(d);
    assert IndexOfExponent(d) == |d| && d[..|d|] == d;
  }

  /** An exponent of digits, with a minus sign when `negative`. */
  lemma ExponentDigits(q: string, negative: bool)
    requires q != [] && AllDigits(q)
    ensures ParseExponent((if negative then "-" else "") + q) == Some(if negative then -(DigitsValue(q) as int) else DigitsValue(q) as int)
  {
    if negative {
      assert ("-" + q)[1..] == q;
    } else {
      assert "" + q == q;
    }
  }

  /** Digits, `e` or `E` and an exponent form an unsigned literal. */
  lemma ExponentUnsignedNumber(d: string, marker: char, q: string, negative: bool)
    requires d != [] && AllDigits(d) && q != [] && AllDigits(q)
    requires marker == 'e' || marker == 'E'
    ensures ParseUnsignedNumber(d + [marker] + (if negative then "-" else "") + q)
            == Some(Finite(Scale(DigitsValue(d) as real, if negative then -(DigitsValue(q) as int) else DigitsValue(q) as int)))
  {
    var exponent := (if negative then "-" else "") + q;
    ExponentDigits(q, negative);
    ExponentDecimal(d, marker, exponent);
    var t := d + [marker] + exponent;
    assert t == d + [marker] + (if negative then "-" else "") + q;
    assert t != "Infinity" by { assert t[0] == d[0] && IsDigit(d[0]) && "Infinity"[0] == 'I'; }
  }

  /** The outline of an exponent literal: a digit first and last, and no radix prefix. */
  lemma ExponentShape(d: string, marker: char, q: string, negative: bool)
    requires d != [] && AllDigits(d) && q != [] && AllDigits(q)
    requires marker == 'e' || marker == 'E'
    ensures var t := d + [marker] + (if negative then "-" else "") + q;
            t != [] && IsDigit(t[0]) && IsDigit(t[|t| - 1]) && !HasRadixPrefix(t)
  {
    var t := d + [marker] + (if negative then "-" else "") + q;
    assert t[0] == d[0] && t[|t| - 1] == q[|q| - 1];
    if |d| >= 2 { assert t[1] == d[1]; } else { assert t[1] == marker; }
  }

  /** A mantissa of digits, `e` or `E`, and an exponent of digits, possibly
      negative: the value is the mantissa scaled by that power of ten. So
      `Number("1e3")` is 1000 and `Number("2E-1")` is 0.2. */
  lemma ExponentRead(d: string, marker: char, q: string, negative: bool)
    requires d != [] && AllDigits(d) && q != [] && AllDigits(q)
    requires marker == 'e' || marker == 'E'
    ensures ParseNumber(d + [marker] + (if negative then "-" else "") + q)
            == Some(Finite(Scale(DigitsValue(d) as real, if negative then -(DigitsValue(q) as int) else DigitsValue(q) as int)))
  {
    ExponentShape(d, marker, q, negative);
    ReadUnsigned(d + [marker] + (if negative then "-" else "") + q);
    ExponentUnsignedNumber(d, marker, q, negative);
  }

  /** A radix literal is no decimal literal: its mantissa holds the letter. */
  lemma RadixNotDecimal(c: char, digits: string)
    requires RadixOf(c) != 0
    ensures ParseDecimal(['0', c] + digits) == None
  {
    var u := ['0', c] + digits;
    var i := IndexOfExponent(u);
    assert i >= 2 by { assert u[0] == '0' && u[1] == c; }
    var mantissa := u[..i];
    assert mantissa[0] == '0' && mantissa[1] == c;
    var k := IndexOfDot(mantissa);
    assert k >= 2;
    assert mantissa[..k][1] == c;
  }

  /** The outline of a radix literal: no white space at either end. */
  lemma RadixShape(c: char, digits: string)
    requires RadixOf(c) != 0 && digits != [] && AllRadixDigits(digits, RadixOf(c))
    ensures var t := ['0', c] + digits;
            Trim(t) == t && HasRadixPrefix(t) && t[2..] == digits && !IsSpace(t[|t| - 1])
  {
    var t := ['0', c] + digits;
    assert t[|t| - 1] == digits[|digits| - 1];
    assert RadixDigit(digits[|digits| - 1], RadixOf(c)).Some?;
    TrimUnpadded(t);
    assert t[2..] == digits;
  }

  /** A radix literal is not read as an unsigned decimal literal. */
  lemma RadixNotUnsigned(c: char, digits: string)
    requires RadixOf(c) != 0
    ensures ParseUnsignedNumber(['0', c] + digits) == None
  {
    var t := ['0', c] + digits;
    assert t != "Infinity" by { assert t[0] == '0' && "Infinity"[0] == 'I'; }
    RadixNotDecimal(c, digits);
  }

  /** A `0x`, `0o` or `0b` literal (either case) reads as its digits' value in
      that base; with a sign in front it is NaN. */
  lemma RadixRead(c: char, digits: string)
    requires RadixOf(c) != 0 && digits != [] && AllRadixDigits(digits, RadixOf(c))
    ensures ParseNumber(['0', c] + digits) == Some(Finite(RadixValue(digits, RadixOf(c)) as real))
    ensures ParseNumber("-" + ['0', c] + digits) == None
  {
    RadixUnsigned(c, digits);
    RadixSigned(c, digits);
  }

  lemma RadixUnsigned(c: char, digits: string)
    requires RadixOf(c) != 0 && digits != [] && AllRadixDigits(digits, RadixOf(c))
    ensures ParseNumber(['0', c] + digits) == Some(Finite(RadixValue(digits, RadixOf(c)) as real))
  {
    RadixShape(c, digits);
  }

  lemma RadixSigned(c: char, digits: string)
    requires RadixOf(c) != 0 && digits != [] && AllRadixDigits(digits, RadixOf(c))
    ensures ParseNumber("-" + ['0', c] + digits) == None
  {
    var t := ['0', c] + digits;
    assert !IsSpace(t[|t| - 1]) by {
      assert t[|t| - 1] == digits[|digits| - 1];
      assert RadixDigit(digits[|digits| - 1], RadixOf(c)).Some?;
    }
    RadixNotUnsigned(c, digits);
    ReadNegated(t);
    assert "-" + ['0', c] + digits == "-" + t;
  }

  lemma InfinityUnsigned()
    ensures ParseUnsignedNumber("Infinity") == Some(PosInfinity)
    ensures ParseNumber("Infinity") == Some(PosInfinity)
  {
    ReadUnsigned("Infinity");
  }

  /** A plus sign in front reads the unsigned literal after it. */
  lemma ReadPlus(t: string)
    requires t != [] && !IsSpace(t[|t| - 1])
    ensures ParseNumber("+" + t) == ParseUnsignedNumber(t)
  {
    var m := "+" + t;
    TrimUnpadded(m);
    assert m[1..] == t;
    assert !HasRadixPrefix(m);
  }

  /** The word `Infinity`, bare or after a sign, reads as an infinity of that
      sign (the word is case-sensitive). */
  lemma InfinityRead(sign: string, word: string)
    requires word == "Infinity"
    requires sign == "" || sign == "+" || sign == "-"
    ensures ParseNumber(sign + word) == Some(if sign == "-" then NegInfinity else PosInfinity)
  {
    InfinityUnsigned();
    assert word[|word| - 1] == 'y';
    if sign == "+" {
      ReadPlus(word);
    } else if sign == "-" {
      ReadNegated(word);
    } else {
      assert sign + word == word;
    }
  }

  /** An array of one string, number or array reads as that element; an
      array of two or more elements is NaN. */
  lemma SingletonArrayRead(x: JsValue, y: JsValue)
    requires x.Str? || x.Num? || x.Arr?
    ensures ToNumber(Arr([x])) == ToNumber(x)
    ensures ToNumber(Arr([x, y])) == None
  {
  }
}
