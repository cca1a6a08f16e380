/** The values a request body can hold once Express has decoded it (JSON
    or multipart form fields), and the JavaScript coercions the handlers
    apply to them: truthiness, `String(v)` and `parseInt(v)`. Numbers are
    integers in this model. */
module JsValues {
  import opened Wrappers
  import opened Text

  datatype JsValue =
    | Undefined
    | Null
    | Bool(b: bool)
    | Num(n: int)
    | Str(s: string)
    | Arr(items: seq<JsValue>)
    | Obj(members: seq<Prop>)

  /** One own property of a plain object, in insertion order. */
  datatype Prop = Prop(key: string, value: JsValue)

  /** `if (v)`: the falsy values are `undefined`, `null`, `false`, `0` and `''`. */
  predicate Truthy(v: JsValue) {
    match v
    case Undefined => false
    case Null => false
    case Bool(b) => b
    case Num(n) => n != 0
    case Str(s) => s != []
    case Arr(_) => true
    case Obj(_) => true
  }

  /** `o[key]` on a plain object: the first member with that key, else
      `undefined`. `JSON.parse` keeps the last of duplicate keys, so a
      member list holding one key twice stands for the object with the
      first of them only; the model reads every object that way. */
  function Member(members: seq<Prop>, key: string): (r: JsValue)
    ensures r != Undefined ==> exists i | 0 <= i < |members| :: members[i] == Prop(key, r)
    ensures (forall i | 0 <= i < |members| :: members[i].key != key) ==> r == Undefined
  {
    if members == [] then Undefined
    else if members[0].key == key then members[0].value
    else Member(members[1..], key)
  }

  /** `String(v)`, which is also what a regular expression test and
      `Date.parse` apply to their argument. */
  function ToJsString(v: JsValue): string
    decreases v, 1
  {
    match v
    case Undefined => "undefined"
    case Null => "null"
    case Bool(b) => if b then "true" else "false"
    case Num(n) => IntToString(n)
    case Str(s) => s
    case Arr(items) => JoinElements(items)
    case Obj(_) => "[object Object]"
  }

  /** `items.join(',')`, where `null` and `undefined` elements print as ''. */
  function JoinElements(items: seq<JsValue>): string
    decreases items, 0
  {
    if items == [] then ""
    else
      var head := if items[0].Undefined? || items[0].Null? then "" else ToJsString(items[0]);
      if |items| == 1 then head else head + "," + JoinElements(items[1..])
  }

  /** A string coerces to itself, and a one-element array to its element. */
  lemma ToJsStringOfString(s: string)
    ensures ToJsString(Str(s)) == s
    ensures ToJsString(Arr([Str(s)])) == s
  {
  }

  // ----- parseInt -----

  predicate IsHexDigit(c: char) {
    IsDigit(c) || ('a' <= c <= 'f') || ('A' <= c <= 'F')
  }

  /** A digit of base 16, 8 or 2; any other radix is read as base 10. */
  predicate IsRadixDigit(c: char, radix: nat) {
    if radix == 16 then IsHexDigit(c)
    else if radix == 8 then '0' <= c <= '7'
    else if radix == 2 then c == '0' || c == '1'
    else IsDigit(c)
  }

  function DigitValue(c: char): (d: nat)
    ensures IsDigit(c) ==> d < 10
    ensures IsHexDigit(c) ==> d < 16
  {
    if IsDigit(c) then c as int - '0' as int
    else if 'a' <= c <= 'f' then c as int - 'a' as int + 10
    else if 'A' <= c <= 'F' then c as int - 'A' as int + 10
    else 0
  }

  /** Length of the longest prefix of `s` made of digits of the radix. */
  function DigitRun(s: string, radix: nat): (k: nat)
    ensures k <= |s|
    ensures forall i | 0 <= i < k :: IsRadixDigit(s[i], radix)
    ensures k < |s| ==> !IsRadixDigit(s[k], radix)
  {
    if s != [] && IsRadixDigit(s[0], radix) then 1 + DigitRun(s[1..], radix) else 0
  }

  /** The number a run of digits denotes, most significant digit first. */
  function DigitsValue(s: string, radix: nat): nat {
    if s == [] then 0 else DigitsValue(s[..|s| - 1], radix) * radix + DigitValue(s[|s| - 1])
  }

  /** `parseInt(s)` with no radix: white space, an optional sign, an optional
      `0x` prefix selecting base 16, then the longest run of digits; `None`
      is `NaN`, returned when that run is empty. */
  function ParseInt(s: string): Option<int> {
    ParseSigned(TrimStart(s), true)
  }

  /** `parseFloat(s)` read up to its integer part: white space, an optional
      sign and the longest run of decimal digits (there is no hex prefix). */
  function ParseFloat(s: string): Option<int> {
    ParseSigned(TrimStart(s), false)
  }

  function ParseSigned(t: string, hex: bool): Option<int> {
    if t != [] && t[0] == '-' then
      match ParseUnsigned(t[1..], hex) case None => None case Some(v) => Some(-v)
    else if t != [] && t[0] == '+' then ParseUnsigned(t[1..], hex)
    else ParseUnsigned(t, hex)
  }

  predicate HasHexPrefix(u: string) {
    |u| >= 2 && u[0] == '0' && (u[1] == 'x' || u[1] == 'X')
  }

  function ParseUnsigned(u: string, hex: bool): Option<int> {
    if hex && HasHexPrefix(u) then ParseRun(u[2..], 16) else ParseRun(u, 10)
  }

  function ParseRun(w: string, radix: nat): Option<int> {
    var k := DigitRun(w, radix);
    if k == 0 then None else Some(DigitsValue(w[..k], radix))
  }

  // ----- Number -----

  /** The whole text as a run of digits of the radix, or `NaN` (`None`). */
  function WholeRun(w: string, radix: nat): (r: Option<int>)
    ensures r.Some? ==> w != [] && r.value >= 0
  {
    if w != [] && DigitRun(w, radix) == |w| then Some(DigitsValue(w, radix)) else None
  }

  predicate HasOctalPrefix(u: string) {
    |u| >= 2 && u[0] == '0' && (u[1] == 'o' || u[1] == 'O')
  }

  predicate HasBinaryPrefix(u: string) {
    |u| >= 2 && u[0] == '0' && (u[1] == 'b' || u[1] == 'B')
  }

  /** `Number(s)`: surrounding white space is ignored and the empty text is
      0; otherwise the whole text must be a decimal integer with an optional
      sign, or an unsigned `0x`, `0o` or `0b` integer of base 16, 8 or 2.
      Anything else is `NaN` here, including a fraction, an exponent and
      `Infinity`, which JavaScript reads as numbers. */
  function StringToNumber(s: string): (r: Option<int>)
    ensures Trim(s) == [] ==> r == Some(0)
  {
    var t := Trim(s);
    if t == [] then Some(0)
    else if HasHexPrefix(t) then WholeRun(t[2..], 16)
    else if HasOctalPrefix(t) then WholeRun(t[2..], 8)
    else if HasBinaryPrefix(t) then WholeRun(t[2..], 2)
    else if t[0] == '-' then (match WholeRun(t[1..], 10) case None => None case Some(v) => Some(-v))
    else if t[0] == '+' then WholeRun(t[1..], 10)
    else WholeRun(t, 10)
  }

  /** A numeral has no white space to trim. */
  lemma NumberTextTrimmed(n: int)
    ensures Trim(IntToString(n)) == IntToString(n)
  {
    var t := IntToString(n);
    if n < 0 {
      assert t[0] == '-';
    }
    assert !IsSpace(t[0]) && !IsSpace(t[|t| - 1]);
    TrimOfTrimmed(t);
  }

  /** `Number(String(n))` gives `n` back for every integer. */
  lemma NumberOfIntToString(n: int)
    ensures StringToNumber(IntToString(n)) == Some(n)
  {
    var t := IntToString(n);
    NumberTextTrimmed(n);
    if n < 0 {
      var d := NatToString(-n);
      assert t == "-" + d && t[1..] == d;
      assert !HasHexPrefix(t);
      DigitRunAll(d, 10);
      DigitsValueOfNatToString(-n);
    } else {
      assert t == NatToString(n);
      assert IsDigit(t[0]) && (|t| > 1 ==> IsDigit(t[1]));
      assert !HasHexPrefix(t);
      DigitRunAll(t, 10);
      DigitsValueOfNatToString(n);
    }
  }

  /** `Number("0b11")` is 3: a `0b` prefix selects base 2. */
  lemma BinaryNumber()
    ensures StringToNumber("0b11") == Some(3)
  {
    TrimOfTrimmed("0b11");
    var w := "0b11"[2..];
    assert w == "11" && w[1..] == "1" && w[1..][1..] == [];
    assert DigitRun(w, 2) == 2;
    assert w[..1] == "1" && w[..1][..0] == [];
    assert DigitsValue(w, 2) == 3;
  }

  /** `Number("0o17")` is 15: a `0o` prefix selects base 8. */
  lemma OctalNumber()
    ensures StringToNumber("0o17") == Some(15)
  {
    TrimOfTrimmed("0o17");
    var w := "0o17"[2..];
    assert w == "17" && w[1..] == "7" && w[1..][1..] == [];
    assert DigitRun(w, 8) == 2;
    assert w[..1] == "1" && w[..1][..0] == [];
    assert DigitsValue(w, 8) == 15;
  }

  /** A prefixed numeral takes no sign: `Number("-0b1")` is `NaN`. */
  lemma SignedPrefixIsNaN()
    ensures StringToNumber("-0b1").None?
  {
    var t := "-0b1";
    TrimOfTrimmed(t);
    assert t[0] == '-' && !HasHexPrefix(t) && !HasOctalPrefix(t) && !HasBinaryPrefix(t);
    var w := t[1..];
    assert w == "0b1" && w[1..] == "b1";
    assert DigitRun(w, 10) == 1;
  }

  /** `Number(v)`, the conversion a relational comparison such as `x < 6`
      applies to a value that is not a number: `null` is 0, a Boolean 0 or
      1, a string or an array is read through its text, and `undefined` or a
      plain object is `NaN` (`None`). */
  function ToNumber(v: JsValue): (r: Option<int>)
    ensures v.Num? ==> r == Some(v.n)
    ensures v.Null? || v == Bool(false) || v == Str([]) || v == Arr([]) ==> r == Some(0)
    ensures v.Undefined? || v.Obj? ==> r == None
  {
    match v
    case Undefined => None
    case Null => Some(0)
    case Bool(b) => Some(if b then 1 else 0)
    case Num(n) => Some(n)
    case Str(s) => StringToNumber(s)
    case Arr(_) => StringToNumber(ToJsString(v))
    case Obj(_) => None
  }

  /** `parseInt(v)` coerces its argument with `String` first. */
  function ParseIntValue(v: JsValue): Option<int> {
    ParseInt(ToJsString(v))
  }

  /** `parseFloat(v)` also coerces with `String` first. */
  function ParseFloatValue(v: JsValue): Option<int> {
    ParseFloat(ToJsString(v))
  }

  lemma {:induction false} DigitsValueOfNatToString(n: nat)
    ensures DigitsValue(NatToString(n), 10) == n
  {
    if n >= 10 {
      var p := NatToString(n / 10);
      var r := NatToString(n);
      assert r[..|r| - 1] == p;
      DigitsValueOfNatToString(n / 10);
    }
  }

  /** `parseInt(String(n))` and `parseFloat(String(n))` give `n` back for every integer. */
  lemma ParseIntOfIntToString(n: int)
    ensures ParseInt(IntToString(n)) == Some(n)
    ensures ParseFloat(IntToString(n)) == Some(n)
  {
    var s := IntToString(n);
    assert ParseInt(s) == ParseSigned(s, true) && ParseFloat(s) == ParseSigned(s, false) by {
      NumeralUntrimmed(n);
    }
    if n < 0 {
      assert s == "-" + NatToString(-n);
      NegativeNumeral(-n);
    } else {
      assert s == NatToString(n);
      NaturalNumeral(n);
    }
  }

  /** A numeral starts with no white space. */
  lemma NumeralUntrimmed(n: int)
    ensures TrimStart(IntToString(n)) == IntToString(n)
  {
    var s := IntToString(n);
    if n >= 0 {
      assert IsDigit(s[0]);
    }
    assert LeadingSpaces(s) == 0;
  }

  /** `-` and a numeral read back as the negated number. */
  lemma NegativeNumeral(m: nat)
    ensures ParseSigned("-" + NatToString(m), true) == Some(-(m as int))
    ensures ParseSigned("-" + NatToString(m), false) == Some(-(m as int))
  {
    var d := NatToString(m);
    var t := "-" + d;
    assert t[0] == '-' && t[1..] == d;
    ParseDecimal(d);
    DigitsValueOfNatToString(m);
  }

  /** A numeral reads back as its number. */
  lemma NaturalNumeral(m: nat)
    ensures ParseSigned(NatToString(m), true) == Some(m)
    ensures ParseSigned(NatToString(m), false) == Some(m)
  {
    var d := NatToString(m);
    assert IsDigit(d[0]);
    ParseDecimal(d);
    DigitsValueOfNatToString(m);
  }

  /** A decimal numeral with no leading zero parses to its value. */
  lemma ParseDecimal(d: string)
    requires d != [] && forall i | 0 <= i < |d| :: IsDigit(d[i])
    requires |d| > 1 ==> d[0] != '0'
    ensures ParseUnsigned(d, true) == Some(DigitsValue(d, 10))
    ensures ParseUnsigned(d, false) == Some(DigitsValue(d, 10))
  {
    assert !HasHexPrefix(d);
    DigitRunAll(d, 10);
    assert d[..|d|] == d;
  }

  lemma {:induction false} DigitRunAll(s: string, radix: nat)
    requires forall i | 0 <= i < |s| :: IsRadixDigit(s[i], radix)
    ensures DigitRun(s, radix) == |s|
  {
    if s != [] {
      DigitRunAll(s[1..], radix);
    }
  }
}
