/** `JSON.parse` and `JSON.stringify` over request values. The parser
    follows the grammar of RFC 8259; numbers are limited to integers, so a
    number with a fraction or an exponent is reported as a parse failure. */
module Json {
  import opened Wrappers
  import opened Text
  import opened JsValues

  /** The four white-space characters of RFC 8259, section 2. */
  predicate IsJsonSpace(c: char) {
    c == ' ' || c as int == 9 || c as int == 10 || c as int == 13
  }

  function SkipSpace(s: string): (r: string)
    ensures |r| <= |s|
    ensures r == s[|s| - |r|..]
    ensures r != [] ==> !IsJsonSpace(r[0])
    ensures s != [] && !IsJsonSpace(s[0]) ==> r == s
  {
    if s != [] && IsJsonSpace(s[0]) then SkipSpace(s[1..]) else s
  }

  predicate StartsWith(s: string, p: string) {
    |p| <= |s| && s[..|p|] == p
  }

  // ----- parsing -----

  /** `JSON.parse(s)`: `None` where JavaScript throws a SyntaxError. */
  function Parse(s: string): Option<JsValue> {
    match ParseValue(s)
    case None => None
    case Some((v, rest)) => if SkipSpace(rest) == [] then Some(v) else None
  }

  /** One value after optional white space, and the text after it. */
  function ParseValue(s: string): (r: Option<(JsValue, string)>)
    ensures r.Some? ==> |r.value.1| < |s|
    decreases |s|, 0
  {
    var t := SkipSpace(s);
    if t == [] then None
    else if StartsWith(t, "null") then Some((Null, t[4..]))
    else if StartsWith(t, "true") then Some((Bool(true), t[4..]))
    else if StartsWith(t, "false") then Some((Bool(false), t[5..]))
    else if t[0] == '"' then
      match ParseChars(t[1..], []) case None => None case Some((str, rest)) => Some((Str(str), rest))
    else if t[0] == '[' then ParseArrayBody(t[1..])
    else if t[0] == '{' then ParseObjectBody(t[1..])
    else if t[0] == '-' || IsDigit(t[0]) then ParseNumber(t)
    else None
  }

  /** The elements of an array, after its `[`. */
  function ParseArrayBody(s: string): (r: Option<(JsValue, string)>)
    ensures r.Some? ==> |r.value.1| < |s|
    decreases |s|, 2
  {
    var t := SkipSpace(s);
    if t != [] && t[0] == ']' then Some((Arr([]), t[1..])) else ParseElements(t, [])
  }

  /** One element and what follows it, `,` and more elements or the closing `]`;
      `acc` holds the elements already read. */
  function ParseElements(s: string, acc: seq<JsValue>): (r: Option<(JsValue, string)>)
    ensures r.Some? ==> |r.value.1| < |s|
    decreases |s|, 1
  {
    match ParseValue(s)
    case None => None
    case Some((v, rest)) =>
      var t := SkipSpace(rest);
      if t != [] && t[0] == ',' then ParseElements(t[1..], acc + [v])
      else if t != [] && t[0] == ']' then Some((Arr(acc + [v]), t[1..]))
      else None
  }

  /** The members of an object, after its `{`. */
  function ParseObjectBody(s: string): (r: Option<(JsValue, string)>)
    ensures r.Some? ==> |r.value.1| < |s|
    decreases |s|, 2
  {
    var t := SkipSpace(s);
    if t != [] && t[0] == '}' then Some((Obj([]), t[1..])) else ParseMembers(t, [])
  }

  /** The members that follow, each one `,` or the closing `}` after it;
      `acc` holds the members already read, in order. */
  function ParseMembers(s: string, acc: seq<Prop>): (r: Option<(JsValue, string)>)
    ensures r.Some? ==> |r.value.1| < |s|
    decreases |s|, 1
  {
    match ParseMember(s)
    case None => None
    case Some((m, rest)) =>
      var w := SkipSpace(rest);
      if w != [] && w[0] == ',' then ParseMembers(w[1..], acc + [m])
      else if w != [] && w[0] == '}' then Some((Obj(acc + [m]), w[1..]))
      else None
  }

  /** One `"key": value` member. */
  function ParseMember(s: string): (r: Option<(Prop, string)>)
    ensures r.Some? ==> |r.value.1| < |s|
    decreases |s|, 0
  {
    var t := SkipSpace(s);
    if t == [] || t[0] != '"' then None
    else
      match ParseChars(t[1..], [])
      case None => None
      case Some((key, afterKey)) => ParseMemberValue(key, afterKey)
  }

  /** The `: value` part of a member, after its key. */
  function ParseMemberValue(key: string, s: string): (r: Option<(Prop, string)>)
    ensures r.Some? ==> |r.value.1| < |s|
    decreases |s|, 0
  {
    var u := SkipSpace(s);
    if u == [] || u[0] != ':' then None
    else
      match ParseValue(u[1..])
      case None => None
      case Some((v, rest)) => Some((Prop(key, v), rest))
  }

  /** An integer: `-`, then `0` or a digit run without a leading zero. */
  function ParseNumber(t: string): (r: Option<(JsValue, string)>)
    ensures r.Some? ==> |r.value.1| < |t|
  {
    if t != [] && t[0] == '-' then
      match ParseNatural(t[1..])
      case None => None
      case Some((v, rest)) => Some((Num(-(v as int)), rest))
    else
      match ParseNatural(t)
      case None => None
      case Some((v, rest)) => Some((Num(v), rest))
  }

  function ParseNatural(u: string): (r: Option<(nat, string)>)
    ensures r.Some? ==> |r.value.1| < |u|
  {
    if u == [] || !IsDigit(u[0]) then None
    else
      var k := if u[0] == '0' then 1 else DigitRun(u, 10);
      var rest := u[k..];
      if rest != [] && (rest[0] == '.' || rest[0] == 'e' || rest[0] == 'E') then None
      else Some((DigitsValue(u[..k], 10), rest))
  }

  predicate IsHighSurrogate(u: int) { 0xD800 <= u <= 0xDBFF }
  predicate IsLowSurrogate(u: int) { 0xDC00 <= u <= 0xDFFF }

  /** The code unit written by four hexadecimal digits. */
  function Hex4(s: string): (u: nat)
    requires |s| == 4
    ensures u < 0x10000
  {
    DigitValue(s[0]) % 16 * 0x1000 + DigitValue(s[1]) % 16 * 0x100
    + DigitValue(s[2]) % 16 * 0x10 + DigitValue(s[3]) % 16
  }

  predicate IsUnicodeEscape(s: string) {
    |s| == 6 && s[0] == '\\' && s[1] == 'u' && IsHexDigit(s[2]) && IsHexDigit(s[3])
    && IsHexDigit(s[4]) && IsHexDigit(s[5])
  }

  /** The character a `\uXXXX` escape, or a pair of them forming a surrogate
      pair, stands for, and the length of the escape text; `None` for a
      surrogate that is not part of a pair. */
  function UnicodeEscape(s: string): (r: Option<(char, nat)>)
    ensures r.Some? ==> 6 <= r.value.1 <= |s|
  {
    if |s| < 6 || !IsUnicodeEscape(s[..6]) then None
    else
      var u := Hex4(s[2..6]);
      if IsHighSurrogate(u) then
        if |s| >= 12 && IsUnicodeEscape(s[6..12]) && IsLowSurrogate(Hex4(s[8..12])) then
          var code := 0x10000 + (u - 0xD800) * 0x400 + (Hex4(s[8..12]) - 0xDC00);
          Some((code as char, 12))
        else None
      else if IsLowSurrogate(u) then None
      else Some((u as char, 6))
  }

  /** The character a one-letter escape `\e` stands for. */
  function SimpleEscape(e: char): Option<char> {
    if e == '"' || e == '\\' || e == '/' then Some(e)
    else if e == 'b' then Some(8 as char)
    else if e == 'f' then Some(12 as char)
    else if e == 'n' then Some(10 as char)
    else if e == 'r' then Some(13 as char)
    else if e == 't' then Some(9 as char)
    else None
  }

  /** The characters of a string literal, after its opening quote, up to and
      without the closing quote; `acc` holds the characters already read. */
  function ParseChars(s: string, acc: string): (r: Option<(string, string)>)
    ensures r.Some? ==> |r.value.1| < |s|
    decreases |s|
  {
    if s == [] then None
    else if s[0] == '"' then Some((acc, s[1..]))
    else if s[0] == '\\' then
      if |s| < 2 then None
      else if s[1] == 'u' then
        match UnicodeEscape(s)
        case None => None
        case Some((c, n)) => ParseChars(s[n..], acc + [c])
      else
        match SimpleEscape(s[1])
        case None => None
        case Some(c) => ParseChars(s[2..], acc + [c])
    else if (s[0] as int) < 0x20 then None
    else ParseChars(s[1..], acc + [s[0]])
  }

  // ----- stringifying -----

  function HexLower(d: nat): (c: char)
    requires d < 16
    ensures IsHexDigit(c) && DigitValue(c) == d
  {
    if d < 10 then DigitChar(d) else ('a' as int + d - 10) as char
  }

  /** How `JSON.stringify` writes one character inside a string literal. */
  function EscapeChar(c: char): (e: string)
    ensures e != []
  {
    if c == '"' then "\\\""
    else if c == '\\' then "\\\\"
    else if c as int == 8 then "\\b"
    else if c as int == 12 then "\\f"
    else if c as int == 10 then "\\n"
    else if c as int == 13 then "\\r"
    else if c as int == 9 then "\\t"
    else if (c as int) < 0x20 then "\\u00" + [HexLower(c as int / 16), HexLower(c as int % 16)]
    else [c]
  }

  function EscapeChars(s: string): string {
    if s == [] then "" else EscapeChar(s[0]) + EscapeChars(s[1..])
  }

  function Quote(s: string): string {
    "\"" + EscapeChars(s) + "\""
  }

  /** `JSON.stringify(v)` for a value other than `undefined`: `undefined`
      array elements are written as `null` and `undefined` object members
      are dropped, as JavaScript does. */
  function Stringify(v: JsValue): string
    decreases v, 1
  {
    match v
    case Undefined => "null"
    case Null => "null"
    case Bool(b) => if b then "true" else "false"
    case Num(n) => IntToString(n)
    case Str(s) => Quote(s)
    case Arr(items) => "[" + StringifyElements(items) + "]"
    case Obj(members) => "{" + StringifyMembers(members, true) + "}"
  }

  function StringifyElements(items: seq<JsValue>): string
    decreases items, 0
  {
    if items == [] then ""
    else if |items| == 1 then Stringify(items[0])
    else Stringify(items[0]) + ("," + StringifyElements(items[1..]))
  }

  /** The members after the first written one are preceded by a comma. */
  function StringifyMembers(members: seq<Prop>, first: bool): string
    decreases members, 0
  {
    if members == [] then ""
    else if members[0].value == Undefined then StringifyMembers(members[1..], first)
    else
      var item := Quote(members[0].key) + ":" + Stringify(members[0].value);
      (if first then item else "," + item) + StringifyMembers(members[1..], false)
  }

  /** A value `JSON.stringify` writes faithfully: no `undefined` anywhere. */
  predicate IsJson(v: JsValue)
    decreases v, 1
  {
    match v
    case Undefined => false
    case Arr(items) => AllJson(items)
    case Obj(members) => AllJsonMembers(members)
    case _ => true
  }

  predicate AllJson(items: seq<JsValue>)
    decreases items, 0
  {
    items == [] || (IsJson(items[0]) && AllJson(items[1..]))
  }

  predicate AllJsonMembers(members: seq<Prop>)
    decreases members, 0
  {
    members == [] || (IsJson(members[0].value) && AllJsonMembers(members[1..]))
  }

  // ----- round trip -----

  /** What may follow a value inside a JSON text written by `Stringify`. */
  predicate Delimited(rest: string) {
    rest == [] || rest[0] == ',' || rest[0] == ']' || rest[0] == '}'
  }

  /** Reading back what `JSON.stringify` writes gives the same value. */
  lemma {:induction false} ParseStringify(v: JsValue)
    requires IsJson(v)
    ensures Parse(Stringify(v)) == Some(v)
  {
    ValueRoundTrip(v, "");
    assert Stringify(v) + "" == Stringify(v);
  }

  /** In particular an array of strings, as the forms send `sdgs` and `skills`. */
  lemma {:induction false} ParseStringifyStrings(xs: seq<string>)
    ensures Parse(Stringify(Arr(Strs(xs)))) == Some(Arr(Strs(xs)))
  {
    StrsAreJson(xs);
    ParseStringify(Arr(Strs(xs)));
  }

  function Strs(xs: seq<string>): (r: seq<JsValue>)
    ensures |r| == |xs| && forall i | 0 <= i < |xs| :: r[i] == Str(xs[i])
  {
    seq(|xs|, i requires 0 <= i < |xs| => Str(xs[i]))
  }

  lemma {:induction false} StrsAreJson(xs: seq<string>)
    ensures AllJson(Strs(xs))
  {
    if xs != [] {
      StrsAreJson(xs[1..]);
      assert Strs(xs)[1..] == Strs(xs[1..]);
    }
  }

  lemma {:induction false} StringifyStart(v: JsValue)
    requires IsJson(v)
    ensures Stringify(v) != []
    ensures var c := Stringify(v)[0];
      !IsJsonSpace(c) && c != ']' && c != '}' && c != ','
  {
    match v
    case Num(n) =>
      if n < 0 {
        assert IntToString(n)[0] == '-';
      } else {
        assert IsDigit(NatToString(n)[0]);
      }
    case _ =>
  }

  lemma {:induction false} ValueRoundTrip(v: JsValue, rest: string)
    requires IsJson(v) && Delimited(rest)
    ensures ParseValue(Stringify(v) + rest) == Some((v, rest))
    decreases v, 1
  {
    match v
    case Arr(items) =>
      var x := StringifyElements(items) + "]" + rest;
      assert Stringify(v) + rest == "[" + x;
      DispatchArray(x);
      ArrayRoundTrip(items, rest);
    case Obj(members) =>
      var x := StringifyMembers(members, true) + "}" + rest;
      assert Stringify(v) + rest == "{" + x;
      DispatchObject(x);
      ObjectRoundTrip(members, rest);
    case Str(str) =>
      StrRoundTrip(str, rest);
    case Num(n) =>
      NumRoundTrip(n, rest);
    case _ =>
      LiteralRoundTrip(v, rest);
  }

  lemma {:induction false} LiteralRoundTrip(v: JsValue, rest: string)
    requires v.Null? || v.Bool?
    ensures ParseValue(Stringify(v) + rest) == Some((v, rest))
  {
    var t := Stringify(v) + rest;
    if v.Null? {
      assert t[..4] == "null" && t[4..] == rest;
    } else if v.b {
      assert t[0] == 't';
      assert t[..4] == "true" && t[4..] == rest;
    } else {
      assert t[0] == 'f';
      NotLiteral(t);
      assert t[..5] == "false" && t[5..] == rest;
    }
  }

  lemma {:induction false} StrRoundTrip(str: string, rest: string)
    ensures ParseValue(Stringify(Str(str)) + rest) == Some((Str(str), rest))
  {
    var x := EscapeChars(str) + "\"" + rest;
    assert Stringify(Str(str)) + rest == "\"" + x;
    DispatchString(x);
    StringRoundTrip(str, [], rest);
    assert [] + str == str;
  }

  lemma {:induction false} NumRoundTrip(n: int, rest: string)
    requires Delimited(rest)
    ensures ParseValue(Stringify(Num(n)) + rest) == Some((Num(n), rest))
  {
    var t := IntToString(n) + rest;
    if n < 0 {
      assert t[0] == '-';
    } else {
      assert IsDigit(NatToString(n)[0]) && t[0] == NatToString(n)[0];
    }
    DispatchNumber(t);
    NumberRoundTrip(n, rest);
  }

  lemma {:induction false} ArrayRoundTrip(items: seq<JsValue>, rest: string)
    requires AllJson(items) && Delimited(rest)
    ensures ParseArrayBody(StringifyElements(items) + "]" + rest) == Some((Arr(items), rest))
    decreases items, 1
  {
    var t := StringifyElements(items) + "]" + rest;
    if items == [] {
      assert t == "]" + rest;
      assert t[1..] == rest;
    } else {
      StringifyStart(items[0]);
      assert t[0] == Stringify(items[0])[0];
      assert SkipSpace(t) == t;
      ElementsRoundTrip(items, [], rest);
      assert [] + items == items;
    }
  }

  lemma {:induction false} ObjectRoundTrip(members: seq<Prop>, rest: string)
    requires AllJsonMembers(members) && Delimited(rest)
    ensures ParseObjectBody(StringifyMembers(members, true) + "}" + rest) == Some((Obj(members), rest))
    decreases members, 2
  {
    var t := StringifyMembers(members, true) + "}" + rest;
    if members == [] {
      assert t == "}" + rest;
      assert t[1..] == rest;
    } else {
      assert ParseObjectBody(t) == ParseMembers(t, []) by {
        assert members[0].value != Undefined;
        assert t[0] == '"';
        assert SkipSpace(t) == t;
      }
      assert ParseMembers(t, []) == Some((Obj([] + members), rest)) by {
        MembersRoundTrip(members, [], rest);
      }
      assert [] + members == members;
    }
  }

  /** A text that starts with none of the letters of a literal is not one. */
  lemma {:induction false} NotLiteral(t: string)
    requires t != [] && t[0] != 'n' && t[0] != 't'
    ensures !StartsWith(t, "null") && !StartsWith(t, "true")
  {
    if |t| >= 4 {
      assert t[..4][0] == t[0];
    }
  }

  lemma {:induction false} NotAnyLiteral(t: string)
    requires t != [] && t[0] != 'n' && t[0] != 't' && t[0] != 'f'
    ensures !StartsWith(t, "null") && !StartsWith(t, "true") && !StartsWith(t, "false")
  {
    NotLiteral(t);
    if |t| >= 5 {
      assert t[..5][0] == t[0];
    }
  }

  lemma {:induction false} DispatchNumber(t: string)
    requires t != [] && (t[0] == '-' || IsDigit(t[0]))
    ensures ParseValue(t) == ParseNumber(t)
  {
    NotAnyLiteral(t);
    assert SkipSpace(t) == t;
  }

  lemma {:induction false} DispatchString(x: string)
    ensures ParseValue("\"" + x) == match ParseChars(x, []) case None => None case Some((str, rest)) => Some((Str(str), rest))
  {
    var t := "\"" + x;
    NotAnyLiteral(t);
    assert SkipSpace(t) == t;
    assert t[1..] == x;
  }

  lemma {:induction false} DispatchArray(x: string)
    ensures ParseValue("[" + x) == ParseArrayBody(x)
  {
    var t := "[" + x;
    NotAnyLiteral(t);
    assert SkipSpace(t) == t;
    assert t[1..] == x;
  }

  lemma {:induction false} DispatchObject(x: string)
    ensures ParseValue("{" + x) == ParseObjectBody(x)
  {
    var t := "{" + x;
    NotAnyLiteral(t);
    assert SkipSpace(t) == t;
    assert t[1..] == x;
  }

  lemma {:induction false} ElementsRoundTrip(items: seq<JsValue>, acc: seq<JsValue>, rest: string)
    requires items != [] && AllJson(items) && Delimited(rest)
    ensures ParseElements(StringifyElements(items) + "]" + rest, acc) == Some((Arr(acc + items), rest))
    decreases items, 0
  {
    var v := items[0];
    if |items| == 1 {
      var x := Stringify(v) + ("]" + rest);
      assert ParseElements(x, acc) == Some((Arr(acc + [v]), rest)) by {
        ValueRoundTrip(v, "]" + rest);
        var t := "]" + rest;
        assert t[0] == ']' && t[1..] == rest;
        LastElement(x, acc, v, t, rest);
      }
      assert StringifyElements(items) + "]" + rest == x by {
        ElementsText(items, rest);
      }
      assert acc + [v] == acc + items;
    } else {
      var tail := StringifyElements(items[1..]) + "]" + rest;
      var x := Stringify(v) + ("," + tail);
      assert ParseElements(x, acc) == ParseElements(tail, acc + [v]) by {
        ValueRoundTrip(v, "," + tail);
        var t := "," + tail;
        assert t[0] == ',' && t[1..] == tail;
        NextElement(x, acc, v, t, tail);
      }
      assert ParseElements(tail, acc + [v]) == Some((Arr(acc + [v] + items[1..]), rest)) by {
        ElementsRoundTrip(items[1..], acc + [v], rest);
      }
      assert StringifyElements(items) + "]" + rest == x by {
        ElementsText(items, rest);
      }
      ShiftHead(acc, items);
    }
  }

  lemma {:induction false} ShiftHead<T>(acc: seq<T>, items: seq<T>)
    requires items != []
    ensures acc + [items[0]] + items[1..] == acc + items
  {
  }

  /** How the text of a non-empty element list splits after its first element. */
  lemma {:induction false} ElementsText(items: seq<JsValue>, rest: string)
    requires items != []
    ensures |items| == 1 ==> StringifyElements(items) + "]" + rest == Stringify(items[0]) + ("]" + rest)
    ensures |items| > 1 ==>
      StringifyElements(items) + "]" + rest == Stringify(items[0]) + ("," + (StringifyElements(items[1..]) + "]" + rest))
  {
    if |items| == 1 {
      Assoc(Stringify(items[0]), "]", rest);
    } else {
      var tl := StringifyElements(items[1..]);
      Regroup(Stringify(items[0]), "," + tl, "]", rest);
      Regroup(",", tl, "]", rest);
    }
  }

  lemma {:induction false} LastElement(x: string, acc: seq<JsValue>, v: JsValue, t: string, rest: string)
    requires t != [] && t[0] == ']' && t[1..] == rest
    requires ParseValue(x) == Some((v, t))
    ensures ParseElements(x, acc) == Some((Arr(acc + [v]), rest))
  {
    assert SkipSpace(t) == t;
  }

  lemma {:induction false} NextElement(x: string, acc: seq<JsValue>, v: JsValue, t: string, tail: string)
    requires t != [] && t[0] == ',' && t[1..] == tail
    requires ParseValue(x) == Some((v, t))
    ensures ParseElements(x, acc) == ParseElements(tail, acc + [v])
  {
    assert SkipSpace(t) == t;
  }

  /** With no `undefined` member, every member after the first is written
      behind a comma. */
  lemma {:induction false} CommaMembers(members: seq<Prop>)
    requires AllJsonMembers(members)
    ensures StringifyMembers(members, false)
      == if members == [] then "" else "," + StringifyMembers(members, true)
  {
    if members != [] {
      var m := members[0];
      assert m.value != Undefined;
      Assoc(",", Quote(m.key) + ":" + Stringify(m.value), StringifyMembers(members[1..], false));
    }
  }

  lemma {:induction false} MembersRoundTrip(members: seq<Prop>, acc: seq<Prop>, rest: string)
    requires members != [] && AllJsonMembers(members) && Delimited(rest)
    ensures ParseMembers(StringifyMembers(members, true) + "}" + rest, acc) == Some((Obj(acc + members), rest))
    decreases members, 1
  {
    if |members| == 1 {
      assert members == [members[0]];
      OneMemberRoundTrip(members[0], acc, rest);
    } else {
      ManyMembersRoundTrip(members, acc, rest);
    }
  }

  lemma {:induction false} OneMemberRoundTrip(m: Prop, acc: seq<Prop>, rest: string)
    requires IsJson(m.value)
    ensures ParseMembers(StringifyMembers([m], true) + "}" + rest, acc) == Some((Obj(acc + [m]), rest))
    decreases m, 1
  {
    var x := Quote(m.key) + ":" + Stringify(m.value) + ("}" + rest);
    assert ParseMembers(x, acc) == Some((Obj(acc + [m]), rest)) by {
      var t := "}" + rest;
      assert t[0] == '}' && t[1..] == rest;
      MemberRoundTrip(m, t);
      LastMember(x, acc, m, t, rest);
    }
    MembersTextOne(m, rest);
  }

  lemma {:induction false} ManyMembersRoundTrip(members: seq<Prop>, acc: seq<Prop>, rest: string)
    requires |members| > 1 && AllJsonMembers(members) && Delimited(rest)
    ensures ParseMembers(StringifyMembers(members, true) + "}" + rest, acc) == Some((Obj(acc + members), rest))
    decreases members, 0
  {
    var m := members[0];
    var tail := StringifyMembers(members[1..], true) + "}" + rest;
    var x := Quote(m.key) + ":" + Stringify(m.value) + ("," + tail);
    assert ParseMembers(x, acc) == ParseMembers(tail, acc + [m]) by {
      assert IsJson(m.value);
      MemberRoundTrip(m, "," + tail);
      var t := "," + tail;
      assert t[0] == ',' && t[1..] == tail;
      NextMember(x, acc, m, t, tail);
    }
    assert ParseMembers(tail, acc + [m]) == Some((Obj(acc + [m] + members[1..]), rest)) by {
      assert AllJsonMembers(members[1..]);
      MembersRoundTrip(members[1..], acc + [m], rest);
    }
    assert StringifyMembers(members, true) + "}" + rest == x by {
      MembersTextMany(members, rest);
    }
    ShiftHead(acc, members);
  }

  lemma {:induction false} MembersTextOne(m: Prop, rest: string)
    requires IsJson(m.value)
    ensures StringifyMembers([m], true) + "}" + rest == Quote(m.key) + ":" + Stringify(m.value) + ("}" + rest)
  {
    var h := Quote(m.key) + ":" + Stringify(m.value);
    assert StringifyMembers([m], true) == h by {
      assert [m][1..] == [];
      assert h + "" == h;
    }
    Assoc(h, "}", rest);
  }

  /** The text of a member list splits after its first member, at a comma. */
  lemma {:induction false} MembersTextMany(members: seq<Prop>, rest: string)
    requires |members| > 1 && AllJsonMembers(members)
    ensures StringifyMembers(members, true) + "}" + rest
      == Quote(members[0].key) + ":" + Stringify(members[0].value)
         + ("," + (StringifyMembers(members[1..], true) + "}" + rest))
  {
    var m := members[0];
    var h := Quote(m.key) + ":" + Stringify(m.value);
    var tl := StringifyMembers(members[1..], true);
    assert StringifyMembers(members, true) == h + ("," + tl) by {
      assert m.value != Undefined;
      CommaMembers(members[1..]);
    }
    Regroup(h, "," + tl, "}", rest);
    Regroup(",", tl, "}", rest);
  }

  /** Concatenation is associative. */
  lemma {:induction false} Assoc(a: string, b: string, c: string)
    ensures a + b + c == a + (b + c)
  {
  }

  /** Concatenation regrouped to the right. */
  lemma {:induction false} Regroup(h: string, mid: string, close: string, rest: string)
    ensures h + mid + close + rest == h + (mid + close + rest)
  {
  }

  lemma {:induction false} LastMember(x: string, acc: seq<Prop>, m: Prop, t: string, rest: string)
    requires t != [] && t[0] == '}' && t[1..] == rest
    requires ParseMember(x) == Some((m, t))
    ensures ParseMembers(x, acc) == Some((Obj(acc + [m]), rest))
  {
    assert SkipSpace(t) == t;
  }

  lemma {:induction false} NextMember(x: string, acc: seq<Prop>, m: Prop, t: string, tail: string)
    requires t != [] && t[0] == ',' && t[1..] == tail
    requires ParseMember(x) == Some((m, t))
    ensures ParseMembers(x, acc) == ParseMembers(tail, acc + [m])
  {
    assert SkipSpace(t) == t;
  }

  lemma {:induction false} MemberRoundTrip(m: Prop, after: string)
    requires IsJson(m.value)
    requires after != [] && (after[0] == ',' || after[0] == '}')
    ensures ParseMember(Quote(m.key) + ":" + Stringify(m.value) + after) == Some((m, after))
    decreases m, 0
  {
    var y := Stringify(m.value) + after;
    var x := EscapeChars(m.key) + "\"" + (":" + y);
    assert Quote(m.key) + ":" + Stringify(m.value) + after == "\"" + x;
    StringRoundTrip(m.key, [], ":" + y);
    assert [] + m.key == m.key;
    ValueRoundTrip(m.value, after);
    MemberStep(x, m.key, y, m.value, after);
  }

  lemma {:induction false} MemberStep(x: string, key: string, y: string, v: JsValue, after: string)
    requires ParseChars(x, []) == Some((key, ":" + y))
    requires ParseValue(y) == Some((v, after))
    ensures ParseMember("\"" + x) == Some((Prop(key, v), after))
  {
    var t, u := "\"" + x, ":" + y;
    assert t[0] == '"' && t[1..] == x;
    assert u[0] == ':' && u[1..] == y;
    KeyStep(t, x, key, u);
    ColonStep(u, key, y, v, after);
  }

  /** A text opening with a quote: the member's key is read first. */
  lemma {:induction false} KeyStep(t: string, x: string, key: string, afterKey: string)
    requires t != [] && t[0] == '"' && t[1..] == x
    requires ParseChars(x, []) == Some((key, afterKey))
    ensures ParseMember(t) == ParseMemberValue(key, afterKey)
  {
    assert SkipSpace(t) == t;
  }

  /** A text opening with a colon: the member's value follows. */
  lemma {:induction false} ColonStep(u: string, key: string, y: string, v: JsValue, after: string)
    requires u != [] && u[0] == ':' && u[1..] == y
    requires ParseValue(y) == Some((v, after))
    ensures ParseMemberValue(key, u) == Some((Prop(key, v), after))
  {
    assert SkipSpace(u) == u;
  }

  /** An integer written by `String(n)` reads back as `n`. */
  lemma {:induction false} NumberRoundTrip(n: int, rest: string)
    requires Delimited(rest)
    ensures ParseNumber(IntToString(n) + rest) == Some((Num(n), rest))
  {
    if n < 0 {
      NegativeRoundTrip(-n, rest);
      assert IntToString(n) == "-" + NatToString(-n);
    } else {
      NaturalRoundTrip(n, rest);
      assert IntToString(n) == NatToString(n);
      assert IsDigit(NatToString(n)[0]);
    }
  }

  lemma {:induction false} NegativeRoundTrip(m: nat, rest: string)
    requires Delimited(rest)
    ensures ParseNumber("-" + NatToString(m) + rest) == Some((Num(-(m as int)), rest))
  {
    var t := "-" + NatToString(m) + rest;
    assert t[0] == '-' && t[1..] == NatToString(m) + rest;
    NaturalRoundTrip(m, rest);
  }

  lemma {:induction false} NaturalRoundTrip(m: nat, rest: string)
    requires Delimited(rest)
    ensures ParseNatural(NatToString(m) + rest) == Some((m, rest))
  {
    var d := NatToString(m);
    var u := d + rest;
    assert u[0] == d[0];
    DigitRunPrefix(d, rest);
    assert u[..|d|] == d && u[|d|..] == rest;
    DigitsValueOfNatToString(m);
  }

  lemma {:induction false} DigitRunPrefix(d: string, rest: string)
    requires forall i | 0 <= i < |d| :: IsDigit(d[i])
    requires rest == [] || !IsDigit(rest[0])
    ensures DigitRun(d + rest, 10) == |d|
  {
    if d != [] {
      assert (d + rest)[1..] == d[1..] + rest;
      DigitRunPrefix(d[1..], rest);
    } else {
      assert d + rest == rest;
    }
  }

  /** Reading back an escaped string literal gives the string, and reading
      stops right after the closing quote. */
  lemma {:induction false} StringRoundTrip(s: string, acc: string, rest: string)
    ensures ParseChars(EscapeChars(s) + "\"" + rest, acc) == Some((acc + s, rest))
  {
    if s == [] {
      var t := EscapeChars(s) + "\"" + rest;
      assert t == "\"" + rest;
      assert t[0] == '"' && t[1..] == rest;
      assert acc + s == acc;
    } else {
      var x := EscapeChars(s[1..]) + "\"" + rest;
      Regroup(EscapeChar(s[0]), EscapeChars(s[1..]), "\"", rest);
      EscapeStep(s[0], x, acc);
      StringRoundTrip(s[1..], acc + [s[0]], rest);
      ShiftHead(acc, s);
    }
  }

  /** One escaped character reads back as that character. */
  lemma {:induction false} EscapeStep(c: char, x: string, acc: string)
    ensures ParseChars(EscapeChar(c) + x, acc) == ParseChars(x, acc + [c])
  {
    var e := EscapeChar(c);
    var t := e + x;
    if c == '"' || c == '\\' || (c as int) in {8, 9, 10, 12, 13} {
      assert t[0] == '\\' && t[1] == e[1] && t[2..] == x;
    } else if (c as int) < 0x20 {
      var h1, h2 := HexLower(c as int / 16), HexLower(c as int % 16);
      assert t[..6] == "\\u00" + [h1, h2];
      assert t[2..6] == "00" + [h1, h2];
      assert Hex4(t[2..6]) == c as int;
      assert t[6..] == x;
    } else {
      assert t[0] == c && t[1..] == x;
    }
  }
}
