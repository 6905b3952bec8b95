/** JavaScript values as the route handlers see them after `JSON.parse`, and the
    pieces of the language the handlers rely on: truthiness, `ToString`,
    `String(n)` for integers and `parseInt(s, 10)` (section 19.2.5 of ECMA-262). */
module Js {

  datatype Option<+T> = None | Some(value: T)

  /** A JSON value. `Undefined` stands for a property the object does not have.
      Numbers are integral (see README, "Left out"). */
  datatype Value =
    | Undefined
    | Null
    | Bool(b: bool)
    | Num(n: int)
    | Str(s: string)
    | Arr(elems: seq<Value>)
    | Obj(fields: map<string, Value>)

  /** JavaScript's ToBoolean: `undefined`, `null`, `false`, `0` and `""` are falsy. */
  predicate Truthy(v: Value) {
    match v
    case Undefined => false
    case Null => false
    case Bool(b) => b
    case Num(n) => n != 0
    case Str(s) => s != ""
    case Arr(_) => true
    case Obj(_) => true
  }

  /** Whether `const { a, b } = v` succeeds: destructuring `null` or `undefined` throws a TypeError. */
  predicate Destructurable(v: Value) {
    !v.Undefined? && !v.Null?
  }

  /** The property `key` of `v`, as destructuring reads it. */
  function Field(v: Value, key: string): (r: Value)
    requires Destructurable(v)
    ensures v.Obj? && key in v.fields ==> r == v.fields[key]
    ensures !v.Obj? || key !in v.fields ==> r == Undefined
  {
    match v
    case Obj(m) => if key in m then m[key] else Undefined
    case _ => Undefined
  }

  // ---------------------------------------------------------------- digits

  predicate IsDigit(c: char) {
    '0' <= c <= '9'
  }

  predicate AllDigits(s: string) {
    forall i :: 0 <= i < |s| ==> IsDigit(s[i])
  }

  /** A numeral as `String(n)` writes a non-negative integer: digits, no leading zero except "0" itself. */
  predicate IsNumeral(s: string) {
    |s| >= 1 && AllDigits(s) && (s[0] == '0' ==> |s| == 1)
  }

  function DigitValue(c: char): (d: nat)
    requires IsDigit(c)
    ensures d < 10
  {
    (c as int) - ('0' as int)
  }

  function DigitChar(d: nat): (c: char)
    requires d < 10
    ensures IsDigit(c) && DigitValue(c) == d
  {
    (('0' as int) + d) as char
  }

  /** The value of a string of decimal digits, read most significant digit first. */
  function DecimalValue(z: string): nat
    requires AllDigits(z)
  {
    if z == [] then 0 else 10 * DecimalValue(z[..|z| - 1]) + DigitValue(z[|z| - 1])
  }

  /** `String(n)` for a non-negative integer. */
  function NatToString(n: nat): (s: string)
    ensures |s| >= 1
  {
    if n < 10 then [DigitChar(n)] else NatToString(n / 10) + [DigitChar(n % 10)]
  }

  /** `String(n)` for an integer: a minus sign, then the numeral of its magnitude. */
  function IntToString(n: int): string {
    if n < 0 then "-" + NatToString(-n) else NatToString(n)
  }

  lemma {:induction false} NatToStringIsNumeral(n: nat)
    ensures IsNumeral(NatToString(n)) && DecimalValue(NatToString(n)) == n
    decreases n
  {
    if n >= 10 {
      NatToStringIsNumeral(n / 10);
      var p := NatToString(n / 10);
      var s := NatToString(n);
      assert s == p + [DigitChar(n % 10)];
      assert s[..|s| - 1] == p;
      assert s[0] == p[0];
    }
  }

  /** JavaScript's ToString of a value `JSON.parse` produced, or `None` where it
      throws a TypeError. An object goes through OrdinaryToPrimitive: an own
      `toString` key holds a parsed value, which is never callable, so the call
      falls through to `valueOf`, which answers the object itself, and
      ToPrimitive throws; without that key it is `Object.prototype.toString`'s
      "[object Object]". An array's elements are joined with commas, `null` and
      `undefined` elements giving the empty string. */
  function ToString(v: Value): Option<string>
    decreases v, 1
  {
    match v
    case Undefined => Some("undefined")
    case Null => Some("null")
    case Bool(b) => Some(if b then "true" else "false")
    case Num(n) => Some(IntToString(n))
    case Str(s) => Some(s)
    case Arr(es) => Join(es)
    case Obj(m) => if "toString" in m then None else Some("[object Object]")
  }

  function Join(es: seq<Value>): Option<string>
    decreases es, 0
  {
    if es == [] then Some("")
    else
      var head := if es[0].Undefined? || es[0].Null? then Some("") else ToString(es[0]);
      if head.None? then None
      else if |es| == 1 then head
      else match Join(es[1..])
        case None => None
        case Some(tail) => Some(head.value + "," + tail)
  }

  /** ToString throws exactly on an object with its own `toString` key, or an array
      holding one at any depth; a string is its own text. */
  lemma ToStringExamples()
    ensures ToString(Str("5")) == Some("5")
    ensures ToString(Arr([Str("7")])) == Some("7")
    ensures ToString(Arr([Num(1), Null, Str("x")])) == Some("1,,x")
    ensures ToString(Obj(map["valueOf" := Num(3)])) == Some("[object Object]")
    ensures ToString(Obj(map["toString" := Num(0)])) == None
    ensures ToString(Arr([Str("7"), Obj(map["toString" := Str("")])])) == None
  {
    assert IntToString(1) == "1" by { assert NatToString(1) == [DigitChar(1)]; }
    var three := [Num(1), Null, Str("x")];
    var two := [Null, Str("x")];
    var one := [Str("x")];
    assert Join(one) == Some("x");
    assert two[1..] == one;
    assert "" + "," + "x" == ",x";
    assert Join(two) == Some(",x");
    assert three[1..] == two;
    assert ToString(three[0]) == Some("1");
    assert "1" + "," + ",x" == "1,,x";
    assert Join(three) == Some("1,,x");
    var mixed := [Str("7"), Obj(map["toString" := Str("")])];
    assert mixed[1..] == [Obj(map["toString" := Str("")])];
  }

  // -------------------------------------------------------- parseInt(s, 10)

  /** StrWhiteSpaceChar of ECMA-262: WhiteSpace (tab, vertical tab, form feed,
      ZWNBSP and every Zs space) and LineTerminator (LF, CR, LS, PS). */
  predicate IsStrWhiteSpace(c: char) {
    || c == '\t' || c == '\U{B}' || c == '\U{C}' || c == '\U{FEFF}'
    || c == ' ' || c == '\U{A0}' || c == '\U{1680}' || ('\U{2000}' <= c <= '\U{200A}')
    || c == '\U{202F}' || c == '\U{205F}' || c == '\U{3000}'
    || c == '\n' || c == '\r' || c == '\U{2028}' || c == '\U{2029}'
  }

  /** TrimString(s, start): drop leading white space and line terminators. */
  function TrimStart(s: string): string {
    if s != [] && IsStrWhiteSpace(s[0]) then TrimStart(s[1..]) else s
  }

  /** The longest prefix of `s` made of decimal digits. */
  function DigitPrefix(s: string): (z: string)
    ensures AllDigits(z)
  {
    if s != [] && IsDigit(s[0]) then [s[0]] + DigitPrefix(s[1..]) else []
  }

  /** TrimStart removes exactly the leading white space: what it drops is white
      space, and what it keeps is a suffix that does not start with any. */
  lemma {:induction false} TrimStartDropsLeadingSpace(s: string)
    ensures |TrimStart(s)| <= |s| && TrimStart(s) == s[|s| - |TrimStart(s)|..]
    ensures TrimStart(s) == [] || !IsStrWhiteSpace(TrimStart(s)[0])
    ensures forall i :: 0 <= i < |s| - |TrimStart(s)| ==> IsStrWhiteSpace(s[i])
    decreases |s|
  {
    if s != [] && IsStrWhiteSpace(s[0]) {
      TrimStartDropsLeadingSpace(s[1..]);
      var t := TrimStart(s[1..]);
      assert s[1..][|s| - 1 - |t|..] == s[|s| - |t|..];
      forall i | 0 <= i < |s| - |t| ensures IsStrWhiteSpace(s[i]) {
        if i > 0 { assert s[i] == s[1..][i - 1]; }
      }
    }
  }

  /** DigitPrefix is a prefix, and it stops only at the end or at a non-digit. */
  lemma {:induction false} DigitPrefixIsLongest(s: string)
    ensures DigitPrefix(s) <= s
    ensures |DigitPrefix(s)| == |s| || !IsDigit(s[|DigitPrefix(s)|])
    decreases |s|
  {
    if s != [] && IsDigit(s[0]) {
      DigitPrefixIsLongest(s[1..]);
      assert s == [s[0]] + s[1..];
    }
  }

  /** `parseInt(input, 10)`; `None` is NaN. A negative zero is returned as 0. */
  function ParseInt10(input: string): Option<int> {
    ParseSigned(TrimStart(input))
  }

  /** Steps 3 to 4 of parseInt: an optional sign, then the digits. */
  function ParseSigned(s: string): Option<int> {
    if s != [] && s[0] == '-' then
      match ParseDigits(s[1..])
      case None => None
      case Some(m) => Some(-m)
    else if s != [] && s[0] == '+' then ParseDigits(s[1..])
    else ParseDigits(s)
  }

  /** Steps 11 to 16 for radix 10: the value of the longest digit prefix, NaN when it is empty. */
  function ParseDigits(u: string): Option<int> {
    var z := DigitPrefix(u);
    if z == [] then None else Some(DecimalValue(z))
  }

  lemma {:induction false} DigitPrefixStopsAtNonDigit(z: string, rest: string)
    requires AllDigits(z)
    requires rest == [] || !IsDigit(rest[0])
    ensures DigitPrefix(z + rest) == z
    decreases |z|
  {
    if z != [] {
      assert (z + rest)[1..] == z[1..] + rest;
      DigitPrefixStopsAtNonDigit(z[1..], rest);
    } else {
      assert z + rest == rest;
    }
  }

  lemma DigitPrefixOfDigits(z: string)
    requires AllDigits(z)
    ensures DigitPrefix(z) == z
  {
    DigitPrefixStopsAtNonDigit(z, []);
    assert z + [] == z;
  }

  lemma {:induction false} TrimStartSkips(ws: string, s: string)
    requires forall i :: 0 <= i < |ws| ==> IsStrWhiteSpace(ws[i])
    requires s == [] || !IsStrWhiteSpace(s[0])
    ensures TrimStart(ws + s) == s
    decreases |ws|
  {
    if ws == [] {
      assert ws + s == s;
    } else {
      assert (ws + s)[1..] == ws[1..] + s;
      TrimStartSkips(ws[1..], s);
    }
  }

  /** A digit is neither white space nor a sign. */
  lemma DigitIsPlain(c: char)
    requires IsDigit(c)
    ensures !IsStrWhiteSpace(c) && c != '-' && c != '+'
  {
  }

  lemma TrimStartOfPlain(s: string)
    requires s == [] || !IsStrWhiteSpace(s[0])
    ensures TrimStart(s) == s
  {
  }

  /** The digits up to the first non-digit, as a value. */
  lemma ParseDigitsReads(z: string, rest: string)
    requires AllDigits(z) && z != []
    requires rest == [] || !IsDigit(rest[0])
    ensures ParseDigits(z + rest) == Some(DecimalValue(z) as int)
  {
    DigitPrefixStopsAtNonDigit(z, rest);
  }

  /** Without leading white space or sign, parseInt reads the digits up to the first non-digit. */
  lemma ParseIntReadsUnsigned(z: string, rest: string)
    requires AllDigits(z) && z != []
    requires rest == [] || !IsDigit(rest[0])
    ensures ParseInt10(z + rest) == Some(DecimalValue(z) as int)
  {
    var s := z + rest;
    assert s[0] == z[0];
    DigitIsPlain(z[0]);
    TrimStartOfPlain(s);
    assert ParseSigned(s) == ParseDigits(s);
    ParseDigitsReads(z, rest);
  }

  /** After a leading minus sign, parseInt negates the value of the digits that follow. */
  lemma ParseIntReadsNegative(z: string, rest: string)
    requires AllDigits(z) && z != []
    requires rest == [] || !IsDigit(rest[0])
    ensures ParseInt10("-" + z + rest) == Some(-(DecimalValue(z) as int))
  {
    var t := z + rest;
    var m: int := DecimalValue(z);
    ParseDigitsReads(z, rest);
    ParseIntNegates(t, m);
    ConcatAssociates("-", z, rest);
    SameInputSameParse("-" + z + rest, "-" + t);
  }

  lemma SameInputSameParse(a: string, b: string)
    requires a == b
    ensures ParseInt10(a) == ParseInt10(b)
  {
  }

  lemma ConcatAssociates(a: string, b: string, c: string)
    ensures a + b + c == a + (b + c)
  {
  }

  lemma ParseIntNegates(t: string, m: int)
    requires ParseDigits(t) == Some(m)
    ensures ParseInt10("-" + t) == Some(-m)
  {
    var s := "-" + t;
    assert s[0] == '-' && s[1..] == t;
    TrimStartOfPlain(s);
  }

  /** Without leading white space, parseInt reads an optional sign and then the
      digits up to the first non-digit. */
  lemma ParseIntReadsSignedDigits(negative: bool, z: string, rest: string)
    requires AllDigits(z) && z != []
    requires rest == [] || !IsDigit(rest[0])
    ensures ParseInt10((if negative then "-" else "") + z + rest)
            == Some(if negative then -(DecimalValue(z) as int) else DecimalValue(z))
  {
    if negative {
      ParseIntReadsNegative(z, rest);
    } else {
      assert "" + z + rest == z + rest;
      ParseIntReadsUnsigned(z, rest);
    }
  }

  /** parseInt skips leading white space and stops at the first non-digit: on
      `ws + sign + z + rest`, with `z` a digit string, it yields exactly `z`'s value. */
  lemma ParseIntReadsDigitPrefix(ws: string, negative: bool, z: string, rest: string)
    requires forall i :: 0 <= i < |ws| ==> IsStrWhiteSpace(ws[i])
    requires AllDigits(z) && z != []
    requires rest == [] || !IsDigit(rest[0])
    ensures ParseInt10(ws + (if negative then "-" else "") + z + rest)
            == Some(if negative then -(DecimalValue(z) as int) else DecimalValue(z))
  {
    var s := (if negative then "-" else "") + z + rest;
    assert ws + (if negative then "-" else "") + z + rest == ws + s;
    TrimStartSkips(ws, s);
    ParseIntReadsSignedDigits(negative, z, rest);
  }

  /** Round trip: `parseInt(String(n), 10) == n` for every integer `n`. */
  lemma ParseIntOfIntToString(n: int)
    ensures ParseInt10(IntToString(n)) == Some(n)
  {
    var m := if n < 0 then -n else n;
    NatToStringIsNumeral(m);
    ParseIntReadsSignedDigits(n < 0, NatToString(m), []);
    assert (if n < 0 then "-" else "") + NatToString(m) + [] == IntToString(n);
  }

  /** On a numeral parseInt reads back its decimal value. */
  lemma ParseIntOfDigits(z: string)
    requires AllDigits(z) && z != []
    ensures ParseInt10(z) == Some(DecimalValue(z))
  {
    ParseIntReadsSignedDigits(false, z, []);
    assert "" + z + [] == z;
  }

  /** A numeral other than "0" has a positive value. */
  lemma {:induction false} NumeralValuePositive(z: string)
    requires IsNumeral(z) && z != "0"
    ensures DecimalValue(z) >= 1
  {
    if DecimalValue(z) == 0 {
      DigitsOfZero(z);
      assert false;
    }
  }

  /** Every digit of a string whose value is zero is '0'. */
  lemma {:induction false} DigitsOfZero(z: string)
    requires AllDigits(z) && DecimalValue(z) == 0
    ensures forall i :: 0 <= i < |z| ==> z[i] == '0'
    decreases |z|
  {
    if z != [] {
      var p := z[..|z| - 1];
      assert AllDigits(p);
      DigitsOfZero(p);
      forall i | 0 <= i < |z| ensures z[i] == '0' {
        if i < |z| - 1 { assert z[i] == p[i]; }
      }
    }
  }

  /** parseInt reads the leading digits and ignores what follows them. */
  lemma ParseIntTrailingExample()
    ensures ParseInt10("12abc") == Some(12)
  {
    var one := "1";
    var twelve := "12";
    ParseIntReadsUnsigned(twelve, "abc");
    assert twelve + "abc" == "12abc";
    assert twelve[..1] == one && one[..0] == [];
    assert DecimalValue(one) == 1;
    assert DecimalValue(twelve) == 12;
  }

  /** parseInt with radix 10 does not read a hexadecimal prefix. */
  lemma ParseIntHexExample()
    ensures ParseInt10("0x10") == Some(0)
  {
    ParseIntReadsUnsigned("0", "x10");
    assert "0" + "x10" == "0x10";
  }

  /** parseInt does not read an exponent. */
  lemma ParseIntExponentExample()
    ensures ParseInt10("1e3") == Some(1)
  {
    var one := "1";
    ParseIntReadsUnsigned(one, "e3");
    assert one + "e3" == "1e3";
    assert one[..0] == [];
    assert DecimalValue(one) == 1;
  }

  /** A minus sign negates; a string without digits is NaN. */
  lemma ParseIntSignExample()
    ensures ParseInt10("-5") == Some(-5)
    ensures ParseInt10("abc") == None
    ensures ParseInt10("") == None
  {
    ParseIntReadsNegative("5", []);
    assert "-" + "5" + [] == "-5";
    var abc := "abc";
    assert !IsStrWhiteSpace(abc[0]) && !IsDigit(abc[0]);
    assert TrimStart(abc) == abc;
    assert DigitPrefix(abc) == [];
  }

  /** Leading white space (here a space and a line feed) and a plus sign are skipped. */
  lemma ParseIntWhiteSpaceExample()
    ensures ParseInt10(" \n+7") == Some(7)
  {
    var s := "+7";
    assert !IsStrWhiteSpace(s[0]);
    TrimStartSkips(" \n", s);
    assert " \n" + s == " \n+7";
    assert s[1..] == "7";
    DigitPrefixOfDigits("7");
  }

  /** Leading zeros are read as digits: `"05"` parses to 5. */
  lemma ParseIntLeadingZeroExample()
    ensures ParseInt10("05") == Some(5)
  {
    var z := "05";
    assert DecimalValue(z) == 5 by { assert z[..1] == "0"; assert "0"[..0] == []; }
    ParseIntOfDigits(z);
  }

  /** A lone space or `+` before the digits is skipped: `" 5"` and `"+5"` parse to 5. */
  lemma ParseIntSpaceOrPlusExample()
    ensures ParseInt10(" 5") == Some(5)
    ensures ParseInt10("+5") == Some(5)
  {
    var five := "5";
    assert DecimalValue(five) == 5 by { assert five[..0] == []; }
    DigitPrefixOfDigits(five);
    TrimStartSkips(" ", five);
    assert " " + five == " 5";
    var plus := "+5";
    assert !IsStrWhiteSpace(plus[0]);
    TrimStartSkips("", plus);
    assert "" + plus == plus;
    assert plus[1..] == five;
  }
}
