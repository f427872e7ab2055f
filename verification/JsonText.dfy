/** JSON texts: the guest's hand-written string printer
    (kafig-runtime/src/error.rs) and a decoder that follows the grammar of
    RFC 8259 with the choices of Go's encoding/json. A char is a Unicode scalar
    value, as in Rust. */
module JsonText {
  import opened Rpc

  // ---------------------------------------------------------------- printing strings

  function HexDigit(d: nat): char
    requires d < 16
  {
    if d < 10 then ('0' as int + d) as char else ('a' as int + (d - 10)) as char
  }

  /** `{:04x}` */
  function Hex4(n: nat): string
    requires n < 0x1_0000
  {
    [HexDigit(n / 0x1000), HexDigit(n / 0x100 % 0x10), HexDigit(n / 0x10 % 0x10), HexDigit(n % 0x10)]
  }

  function EscapeChar(c: char): string {
    if c == '"' then "\\\""
    else if c == '\\' then "\\\\"
    else if c == '\n' then "\\n"
    else if c == '\r' then "\\r"
    else if c == '\t' then "\\t"
    else if c as int < 0x20 then "\\u" + Hex4(c as int)
    else [c]
  }

  function EscapeBody(s: string): string {
    if s == "" then "" else EscapeChar(s[0]) + EscapeBody(s[1..])
  }

  function Quoted(s: string): string {
    "\"" + EscapeBody(s) + "\""
  }

  /** json_escape_string, as the loop over characters that it is. */
  method JsonEscapeString(s: string) returns (out: string)
    ensures out == Quoted(s)
  {
    out := "\"";
    var i := 0;
    while i < |s|
      invariant i <= |s| && out + EscapeBody(s[i..]) == "\"" + EscapeBody(s)
    {
      assert s[i..][1..] == s[i + 1..];
      assert out + (EscapeChar(s[i]) + EscapeBody(s[i + 1..])) == (out + EscapeChar(s[i])) + EscapeBody(s[i + 1..]);
      out := out + EscapeChar(s[i]);
      i := i + 1;
    }
    assert out + EscapeBody(s[i..]) == out;
    out := out + "\"";
  }

  // ---------------------------------------------------------------- decoding strings (section 7)

  function HexValue(c: char): Option<nat> {
    if '0' <= c <= '9' then Some(c as int - '0' as int)
    else if 'a' <= c <= 'f' then Some(c as int - 'a' as int + 10)
    else if 'A' <= c <= 'F' then Some(c as int - 'A' as int + 10)
    else None
  }

  /** Four hexadecimal digits at the front of t. */
  function Unhex4(t: string): Option<nat>
    ensures Unhex4(t).Some? ==> |t| >= 4 && Unhex4(t).value < 0x1_0000
  {
    if |t| < 4 then None
    else
      var a, b, c, d := HexValue(t[0]), HexValue(t[1]), HexValue(t[2]), HexValue(t[3]);
      if a.Some? && b.Some? && c.Some? && d.Some? then
        Some(0x1000 * a.value + 0x100 * b.value + 0x10 * c.value + d.value)
      else None
  }

  /** The character of a \u escape whose digits start at t, and how much of t it
      takes: a surrogate pair is one character, a lone surrogate U+FFFD. */
  function UnicodeEscape(t: string): (r: Option<(char, nat)>)
    ensures r.Some? ==> 4 <= r.value.1 <= |t|
  {
    var u := Unhex4(t);
    if u.None? then None
    else if !(0xD800 <= u.value < 0xE000) then Some((u.value as char, 4))
    else if u.value < 0xDC00 && |t| >= 6 && t[4] == '\\' && t[5] == 'u'
            && Unhex4(t[6..]).Some? && 0xDC00 <= Unhex4(t[6..]).value < 0xE000
    then Some(((0x1_0000 + 0x400 * (u.value - 0xD800) + (Unhex4(t[6..]).value - 0xDC00)) as char, 10))
    else Some(('\U{FFFD}', 4))
  }

  /** The characters up to the closing quote, and what follows it. */
  function DecodeString(t: string): (r: Option<(string, string)>)
    ensures r.Some? ==> |r.value.1| < |t|
    decreases |t|
  {
    if t == "" then None
    else if t[0] == '"' then Some(("", t[1..]))
    else if t[0] as int < 0x20 then None
    else if t[0] != '\\' then Prepend(t[0], DecodeString(t[1..]))
    else if |t| < 2 then None
    else match t[1]
      case '"' => Prepend('"', DecodeString(t[2..]))
      case '\\' => Prepend('\\', DecodeString(t[2..]))
      case '/' => Prepend('/', DecodeString(t[2..]))
      case 'b' => Prepend('\U{0008}', DecodeString(t[2..]))
      case 'f' => Prepend('\U{000C}', DecodeString(t[2..]))
      case 'n' => Prepend('\n', DecodeString(t[2..]))
      case 'r' => Prepend('\r', DecodeString(t[2..]))
      case 't' => Prepend('\t', DecodeString(t[2..]))
      case 'u' =>
        var e := UnicodeEscape(t[2..]);
        if e.None? then None else Prepend(e.value.0, DecodeString(t[2 + e.value.1..]))
      case _ => None
  }

  function Prepend(c: char, r: Option<(string, string)>): Option<(string, string)> {
    if r.None? then None else Some(([c] + r.value.0, r.value.1))
  }

  lemma DecodeEscapedChar(c: char, t: string)
    ensures DecodeString(EscapeChar(c) + t) == Prepend(c, DecodeString(t))
  {
    var e := EscapeChar(c);
    if |e| == 1 {
      assert (e + t)[1..] == t;
    } else if |e| == 2 {
      assert (e + t)[2..] == t;
    } else {
      var n := c as int;
      assert e + t == "\\u" + (Hex4(n) + t);
      assert (e + t)[2..] == Hex4(n) + t;
      UnhexHex(n, t);
      assert (e + t)[6..] == t;
    }
  }

  lemma HexDigitValue(d: nat)
    requires d < 16
    ensures HexValue(HexDigit(d)) == Some(d)
  {
  }

  lemma HexDigits(n: nat)
    requires n < 0x1_0000
    ensures n == 0x1000 * (n / 0x1000) + 0x100 * (n / 0x100 % 0x10) + 0x10 * (n / 0x10 % 0x10) + n % 0x10
  {
    Nibble(n, 0x1000, n / 0x1000, n / 0x100, 0x100);
    Nibble(n, 0x100, n / 0x100, n / 0x10, 0x10);
  }

  /** The last hexadecimal digit of n / unit, n / (16 * unit) being known. */
  lemma Nibble(n: nat, wide: nat, high: nat, low: nat, unit: nat)
    requires wide == 16 * unit && (unit == 0x10 || unit == 0x100)
    requires wide * high <= n < wide * high + wide && unit * low <= n < unit * low + unit
    ensures low % 0x10 == low - 16 * high
  {
    assert 16 * high <= low < 16 * high + 16;
  }

  lemma UnhexHex(n: nat, t: string)
    requires n < 0x1_0000
    ensures Unhex4(Hex4(n) + t) == Some(n)
  {
    hide HexDigit, HexValue;
    HexDigitValue(n / 0x1000);
    HexDigitValue(n / 0x100 % 0x10);
    HexDigitValue(n / 0x10 % 0x10);
    HexDigitValue(n % 0x10);
    HexDigits(n);
  }

  /** The printer's inverse, with any text behind it: the decoder returns the
      string and stops exactly after the closing quote. */
  lemma {:induction false} DecodeEscaped(s: string, rest: string)
    ensures DecodeString(EscapeBody(s) + ("\"" + rest)) == Some((s, rest))
  {
    hide EscapeChar;
    var tail := "\"" + rest;
    if s == "" {
      assert EscapeBody(s) + tail == tail;
      assert tail[1..] == rest;
    } else {
      DecodeEscaped(s[1..], rest);
      DecodeEscapedChar(s[0], EscapeBody(s[1..]) + tail);
      assert EscapeBody(s) + tail == EscapeChar(s[0]) + (EscapeBody(s[1..]) + tail);
      assert s == [s[0]] + s[1..];
    }
  }

  const LOWER_HEX := "0123456789abcdef"
  const UPPER_HEX := "0123456789ABCDEF"

  /** What each character is printed as: the five short forms, four lower-case
      hexadecimal digits for the other control characters, itself otherwise. */
  lemma EscapeTable(c: char)
    ensures EscapeChar('"') == "\\\"" && EscapeChar('\\') == "\\\\"
    ensures EscapeChar('\n') == "\\n" && EscapeChar('\r') == "\\r" && EscapeChar('\t') == "\\t"
    ensures c as int < 0x20 && c !in {'\n', '\r', '\t'} ==>
      EscapeChar(c) == "\\u00" + [LOWER_HEX[c as int / 16]] + [LOWER_HEX[c as int % 16]]
    ensures c as int >= 0x20 && c !in {'"', '\\'} ==> EscapeChar(c) == [c]
  {
    if c as int < 0x20 {
      var n := c as int;
      assert n / 0x1000 == 0 && n / 0x100 == 0 && n / 0x10 < 2 && n / 0x10 % 0x10 == n / 16;
      HexIsLower(n / 16);
      HexIsLower(n % 16);
    }
  }

  lemma HexIsLower(d: nat)
    requires d < 16
    ensures HexDigit(d) == LOWER_HEX[d]
    ensures HexValue(LOWER_HEX[d]) == Some(d) && HexValue(UPPER_HEX[d]) == Some(d)
  {
    assert LOWER_HEX[d] in LOWER_HEX;
  }

  /** What the short escapes of section 7 stand for. */
  const SHORT_ESCAPES: map<char, char> := map[
    '"' := '\U{0022}', '\\' := '\U{005C}', '/' := '\U{002F}', 'b' := '\U{0008}', 'f' := '\U{000C}',
    'n' := '\U{000A}', 'r' := '\U{000D}', 't' := '\U{0009}']

  /** The decoder on an escape: a short one stands for its character, and any other
      letter but u is refused. */
  lemma DecodesEscapes(x: char, t: string)
    ensures x in SHORT_ESCAPES ==> DecodeString(['\\', x] + t) == Prepend(SHORT_ESCAPES[x], DecodeString(t))
    ensures x !in SHORT_ESCAPES && x != 'u' ==> DecodeString(['\\', x] + t) == None
  {
    hide UnicodeEscape;
    var e := ['\\', x] + t;
    assert e[2..] == t && e[0] == '\\' && e[1] == x && |e| >= 2;
  }

  /** And on anything else: a quote ends the string, a control character and the end
      of the text are errors, every other character is itself. */
  lemma DecodesOthers(c: char, t: string)
    ensures c == '"' ==> DecodeString([c] + t) == Some(("", t))
    ensures c as int < 0x20 ==> DecodeString([c] + t) == None
    ensures c as int >= 0x20 && c != '"' && c != '\\' ==> DecodeString([c] + t) == Prepend(c, DecodeString(t))
    ensures DecodeString("") == None && DecodeString("\\") == None
  {
    hide UnicodeEscape;
    assert ([c] + t)[1..] == t;
  }

  /** A \\u escape of a code unit outside the surrogates is that character. */
  lemma UnicodeUnit(n: nat, t: string)
    requires n < 0x1_0000 && !(0xD800 <= n < 0xE000)
    ensures DecodeString("\\u" + (Hex4(n) + t)) == Prepend(n as char, DecodeString(t))
  {
    UnhexHex(n, t);
    hide Hex4, Unhex4;
    assert ("\\u" + (Hex4(n) + t))[2..] == Hex4(n) + t;
    assert |Hex4(n)| == 4 by { HexLength(n); }
    assert ("\\u" + (Hex4(n) + t))[6..] == t;
  }

  lemma HexLength(n: nat)
    requires n < 0x1_0000
    ensures |Hex4(n)| == 4
  {
  }

  /** Every other character is the pair of its surrogates (UTF-16). */
  lemma SurrogatePair(c: char, t: string)
    requires c as int >= 0x1_0000
    ensures var high, low := 0xD800 + (c as int - 0x1_0000) / 0x400, 0xDC00 + (c as int - 0x1_0000) % 0x400;
      DecodeString("\\u" + (Hex4(high) + ("\\u" + (Hex4(low) + t)))) == Prepend(c, DecodeString(t))
  {
    var high, low := 0xD800 + (c as int - 0x1_0000) / 0x400, 0xDC00 + (c as int - 0x1_0000) % 0x400;
    var rest := "\\u" + (Hex4(low) + t);
    PairEscape(high, low, t);
    HexLength(high);
    HexLength(low);
    hide Hex4, UnicodeEscape;
    assert ("\\u" + (Hex4(high) + rest))[2..] == Hex4(high) + rest;
    assert ("\\u" + (Hex4(high) + rest))[12..] == t;
  }

  lemma PairEscape(high: nat, low: nat, t: string)
    requires 0xD800 <= high < 0xDC00 <= low < 0xE000
    ensures UnicodeEscape(Hex4(high) + ("\\u" + (Hex4(low) + t))) ==
      Some(((0x1_0000 + 0x400 * (high - 0xD800) + (low - 0xDC00)) as char, 10))
  {
    var rest := "\\u" + (Hex4(low) + t);
    UnhexHex(high, rest);
    UnhexHex(low, t);
    HexLength(high);
    hide Hex4, Unhex4;
    assert (Hex4(high) + rest)[6..] == Hex4(low) + t;
    assert (Hex4(high) + rest)[4] == '\\' && (Hex4(high) + rest)[5] == 'u';
  }

  /** A surrogate that is not half of a pair is read as U+FFFD. */
  lemma LoneSurrogate(n: nat, t: string)
    requires 0xD800 <= n < 0xE000 && (n < 0xDC00 ==> !("\\u" <= t))
    ensures DecodeString("\\u" + (Hex4(n) + t)) == Prepend('\U{FFFD}', DecodeString(t))
  {
    UnhexHex(n, t);
    HexLength(n);
    hide Hex4, Unhex4;
    var e := Hex4(n) + t;
    assert e[4..] == t;
    if |t| >= 2 { assert e[4] == t[0] && e[5] == t[1] && t[..2] == [t[0], t[1]]; }
    assert ("\\u" + e)[2..] == e;
    assert ("\\u" + e)[6..] == t;
  }

  /** Number of backslashes at the end of t. */
  function TrailingBackslashes(t: string): nat {
    if t == "" || t[|t| - 1] != '\\' then 0 else 1 + TrailingBackslashes(t[..|t| - 1])
  }

  lemma TwoMore(b: string)
    ensures TrailingBackslashes(b + "\\\\") == TrailingBackslashes(b) + 2
  {
    assert (b + "\\\\")[..|b| + 1] == b + "\\";
    assert (b + "\\")[..|b|] == b;
  }

  lemma NoneTrailing(b: string, e: string)
    requires e != "" && e[|e| - 1] != '\\'
    ensures TrailingBackslashes(b + e) == 0
  {
    assert (b + e)[|b + e| - 1] == e[|e| - 1];
  }

  lemma EscapeCharShape(c: char, j: nat)
    requires j < |EscapeChar(c)|
    ensures EscapeChar(c)[j] as int >= 0x20
    ensures EscapeChar(c)[j] == '"' ==> c == '"' && j == 1
    ensures c != '\\' && j == |EscapeChar(c)| - 1 ==> EscapeChar(c)[j] != '\\'
  {
  }

  lemma EscapeEndsEven(b: string, c: char)
    requires TrailingBackslashes(b) % 2 == 0
    ensures TrailingBackslashes(b + EscapeChar(c)) % 2 == 0
  {
    var e := EscapeChar(c);
    if c == '\\' {
      TwoMore(b);
    } else {
      EscapeCharShape(c, |e| - 1);
      hide EscapeChar;
      NoneTrailing(b, e);
    }
  }

  /** An escaped body ends no escape early: an even number of backslashes. */
  lemma {:induction false} BodyEndsEven(s: string)
    ensures TrailingBackslashes(EscapeBody(s)) % 2 == 0
  {
    if s != "" {
      hide EscapeBody, EscapeChar, TrailingBackslashes;
      LastEscape(s);
      BodyEndsEven(s[..|s| - 1]);
      EscapeEndsEven(EscapeBody(s[..|s| - 1]), s[|s| - 1]);
    }
  }

  lemma LastEscape(s: string)
    requires s != ""
    ensures EscapeBody(s) == EscapeBody(s[..|s| - 1]) + EscapeChar(s[|s| - 1])
  {
    hide EscapeChar, EscapeBody;
    var front, last := s[..|s| - 1], s[|s| - 1];
    assert s == front + [last];
    BodySplits(front, [last]);
    SingleBody(last);
  }

  lemma SingleBody(c: char)
    ensures EscapeBody([c]) == EscapeChar(c)
  {
    hide EscapeChar;
    assert [c][1..] == "";
    assert EscapeChar(c) + "" == EscapeChar(c);
  }

  lemma {:induction false} BodySplits(a: string, b: string)
    ensures EscapeBody(a + b) == EscapeBody(a) + EscapeBody(b)
  {
    hide EscapeChar;
    if a == "" {
      assert a + b == b;
    } else {
      BodySplits(a[1..], b);
      assert (a + b)[1..] == a[1..] + b;
      assert EscapeChar(a[0]) + (EscapeBody(a[1..]) + EscapeBody(b)) == EscapeBody(a) + EscapeBody(b);
    }
  }

  /** No bare quote and no control character inside: every quote of an escaped
      body has an odd number of backslashes before it. */
  lemma {:induction false} BodyIsClean(s: string, i: nat)
    requires i < |EscapeBody(s)|
    ensures EscapeBody(s)[i] as int >= 0x20
    ensures EscapeBody(s)[i] == '"' ==> TrailingBackslashes(EscapeBody(s)[..i]) % 2 == 1
    decreases |s|
  {
    hide EscapeChar;
    var front, last := s[..|s| - 1], s[|s| - 1];
    var b, e := EscapeBody(front), EscapeChar(last);
    LastEscape(s);
    if i < |b| {
      BodyIsClean(front, i);
      assert EscapeBody(s)[..i] == b[..i];
    } else {
      EscapeCharShape(last, i - |b|);
      BodyEndsEven(front);
      QuoteAfter(b, e, i, last);
    }
  }

  lemma QuoteAfter(b: string, e: string, i: nat, c: char)
    requires e == EscapeChar(c) && |b| <= i < |b| + |e| && TrailingBackslashes(b) % 2 == 0
    ensures (b + e)[i] == '"' ==> TrailingBackslashes((b + e)[..i]) % 2 == 1
  {
    if (b + e)[i] == '"' {
      EscapeCharShape(c, i - |b|);
      assert (b + e)[..i] == b + "\\";
      assert (b + "\\")[..|b|] == b;
    }
  }

  // ---------------------------------------------------------------- decoding values

  /** A JSON value; numbers, booleans and arrays are not told apart. */
  datatype Value = Null | Str(s: string) | Obj(members: seq<(string, Value)>) | Other

  predicate IsSpace(c: char) {
    c == ' ' || c == '\t' || c == '\n' || c == '\r'
  }

  function SkipSpace(t: string): (r: string)
    ensures |r| <= |t|
  {
    if t != "" && IsSpace(t[0]) then SkipSpace(t[1..]) else t
  }

  function SkipDigits(t: string): (r: string)
    ensures |r| <= |t|
  {
    if t != "" && '0' <= t[0] <= '9' then SkipDigits(t[1..]) else t
  }

  function Digits1(t: string): (r: Option<string>)
    ensures r.Some? ==> |r.value| < |t|
  {
    if t != "" && '0' <= t[0] <= '9' then Some(SkipDigits(t)) else None
  }

  /** What follows a number (section 6 of RFC 8259). */
  function SkipNumber(t: string): (r: Option<string>)
    ensures r.Some? ==> |r.value| < |t|
  {
    var a := if t != "" && t[0] == '-' then t[1..] else t;
    var b := if a != "" && a[0] == '0' then Some(a[1..]) else Digits1(a);
    if b.None? then None
    else
      var c := if b.value != "" && b.value[0] == '.' then Digits1(b.value[1..]) else b;
      if c.None? then None
      else if c.value != "" && (c.value[0] == 'e' || c.value[0] == 'E') then
        var d := c.value[1..];
        Digits1(if d != "" && (d[0] == '+' || d[0] == '-') then d[1..] else d)
      else c
  }

  function ParseValue(t0: string): (r: Option<(Value, string)>)
    ensures r.Some? ==> |r.value.1| < |t0|
    decreases |t0|, 0
  {
    var t := SkipSpace(t0);
    if t == "" then None
    else if t[0] == '"' then
      var s := DecodeString(t[1..]);
      if s.None? then None else Some((Str(s.value.0), s.value.1))
    else if t[0] == '{' then
      var u := SkipSpace(t[1..]);
      if u != "" && u[0] == '}' then Some((Obj([]), u[1..]))
      else
        var m := ParseMembers(u);
        if m.None? then None else Some((Obj(m.value.0), m.value.1))
    else if t[0] == '[' then
      var u := SkipSpace(t[1..]);
      if u != "" && u[0] == ']' then Some((Other, u[1..]))
      else
        var e := SkipElements(u);
        if e.None? then None else Some((Other, e.value))
    else if "null" <= t then Some((Null, t[4..]))
    else if "true" <= t then Some((Other, t[4..]))
    else if "false" <= t then Some((Other, t[5..]))
    else
      var n := SkipNumber(t);
      if n.None? then None else Some((Other, n.value))
  }

  /** The members of an object up to and including its closing brace. */
  function ParseMembers(t0: string): (r: Option<(seq<(string, Value)>, string)>)
    ensures r.Some? ==> |r.value.1| < |t0|
    decreases |t0|, 1
  {
    var t := SkipSpace(t0);
    if t == "" || t[0] != '"' then None
    else
      var k := DecodeString(t[1..]);
      if k.None? then None
      else
        var u := SkipSpace(k.value.1);
        if u == "" || u[0] != ':' then None
        else
          var v := ParseValue(u[1..]);
          if v.None? then None
          else
            var w := SkipSpace(v.value.1);
            if w == "" then None
            else if w[0] == '}' then Some(([(k.value.0, v.value.0)], w[1..]))
            else if w[0] == ',' then
              var m := ParseMembers(w[1..]);
              if m.None? then None else Some(([(k.value.0, v.value.0)] + m.value.0, m.value.1))
            else None
  }

  function SkipElements(t: string): (r: Option<string>)
    ensures r.Some? ==> |r.value| < |t|
    decreases |t|, 1
  {
    var v := ParseValue(t);
    if v.None? then None
    else
      var w := SkipSpace(v.value.1);
      if w == "" then None
      else if w[0] == ']' then Some(w[1..])
      else if w[0] == ',' then SkipElements(w[1..])
      else None
  }

  /** A whole text: one value with only white space around it. */
  function ParseDocument(t: string): Option<Value> {
    var v := ParseValue(t);
    if v.Some? && SkipSpace(v.value.1) == "" then Some(v.value.0) else None
  }

  // ---------------------------------------------------------------- flat objects

  predicate Flat(ms: seq<(string, Value)>) {
    forall m :: m in ms ==> m.1.Null? || m.1.Str?
  }

  function PrintScalar(v: Value): string {
    if v.Str? then Quoted(v.s) else "null"
  }

  function PrintMember(m: (string, Value)): string {
    Quoted(m.0) + (":" + PrintScalar(m.1))
  }

  /** Members separated by commas, the closing brace included. */
  function PrintMembers(ms: seq<(string, Value)>): string
    requires ms != []
  {
    if |ms| == 1 then PrintMember(ms[0]) + "}" else PrintMember(ms[0]) + ("," + PrintMembers(ms[1..]))
  }

  lemma ParseScalar(v: Value, rest: string)
    requires v.Null? || v.Str?
    ensures ParseValue(PrintScalar(v) + rest) == Some((v, rest))
  {
    hide ParseMembers, SkipElements, SkipNumber, EscapeBody, DecodeString;
    if v.Str? {
      DecodeEscaped(v.s, rest);
      assert Quoted(v.s) + rest == "\"" + (EscapeBody(v.s) + ("\"" + rest));
      assert (Quoted(v.s) + rest)[1..] == EscapeBody(v.s) + ("\"" + rest);
    } else {
      assert "null" <= "null" + rest && ("null" + rest)[4..] == rest;
    }
  }

  /** Reading back the key of a printed member leaves its value and the rest. */
  lemma MemberHead(m: (string, Value), rest: string)
    ensures var t := PrintMember(m) + rest;
      t != "" && t[0] == '"' && DecodeString(t[1..]) == Some((m.0, ":" + (PrintScalar(m.1) + rest)))
  {
    var after := ":" + (PrintScalar(m.1) + rest);
    var t := PrintMember(m) + rest;
    assert t == "\"" + (EscapeBody(m.0) + ("\"" + after));
    assert t[1..] == EscapeBody(m.0) + ("\"" + after);
    DecodeEscaped(m.0, after);
  }

  /** ParseMembers on a text that starts with a printed member. */
  lemma ParseHead(m: (string, Value), rest: string)
    requires (m.1.Null? || m.1.Str?) && rest != "" && !IsSpace(rest[0])
    ensures ParseMembers(PrintMember(m) + rest) ==
      if rest[0] == '}' then Some(([m], rest[1..]))
      else if rest[0] == ',' then
        var r := ParseMembers(rest[1..]);
        if r.None? then None else Some(([m] + r.value.0, r.value.1))
      else None
  {
    var t := PrintMember(m) + rest;
    var after := ":" + (PrintScalar(m.1) + rest);
    MemberHead(m, rest);
    assert SkipSpace(t) == t && SkipSpace(after) == after;
    assert after[1..] == PrintScalar(m.1) + rest;
    ParseScalar(m.1, rest);
    assert SkipSpace(rest) == rest;
  }

  /** Printer and parser are inverse on objects of strings and nulls, whatever
      the keys and values contain. */
  lemma {:induction false} ParsePrinted(ms: seq<(string, Value)>, rest: string)
    requires ms != [] && Flat(ms)
    ensures ParseMembers(PrintMembers(ms) + rest) == Some((ms, rest))
    decreases |ms|
  {
    hide PrintMember, ParseMembers;
    assert ms[0] in ms;
    if |ms| == 1 {
      var tail := "}" + rest;
      assert PrintMembers(ms) + rest == PrintMember(ms[0]) + tail;
      ParseHead(ms[0], tail);
      assert tail[1..] == rest;
      assert ms == [ms[0]];
    } else {
      var tail := "," + (PrintMembers(ms[1..]) + rest);
      assert PrintMembers(ms) + rest == PrintMember(ms[0]) + tail;
      ParseHead(ms[0], tail);
      assert tail[1..] == PrintMembers(ms[1..]) + rest;
      ParsePrinted(ms[1..], rest);
      assert ms == [ms[0]] + ms[1..];
    }
  }

  lemma ParsePrintedDocument(ms: seq<(string, Value)>)
    requires ms != [] && Flat(ms)
    ensures ParseDocument("{" + PrintMembers(ms)) == Some(Obj(ms))
  {
    var t := PrintMembers(ms);
    ParsePrinted(ms, "");
    assert t + "" == t;
    assert ("{" + t)[1..] == t;
    assert t[0] == '"';
  }

  predicate AllSpace(w: string) {
    forall c :: c in w ==> IsSpace(c)
  }

  lemma {:induction false} SkipsSpace(w: string, t: string)
    requires AllSpace(w)
    ensures SkipSpace(w + t) == SkipSpace(t)
    decreases |w|
  {
    if w == "" {
      assert w + t == t;
    } else {
      assert (w + t)[1..] == w[1..] + t;
      SkipsSpace(w[1..], t);
    }
  }

  lemma SpaceBefore(w: string, t: string)
    requires AllSpace(w)
    ensures ParseValue(w + t) == ParseValue(t)
  {
    SkipsSpace(w, t);
    hide SkipSpace, ParseMembers, SkipElements, SkipNumber, DecodeString;
  }

  lemma ParseObject(ms: seq<(string, Value)>, rest: string)
    requires ms != [] && Flat(ms)
    ensures ParseValue("{" + (PrintMembers(ms) + rest)) == Some((Obj(ms), rest))
  {
    var t := PrintMembers(ms) + rest;
    ParsePrinted(ms, rest);
    FirstIsQuote(ms);
    hide PrintMembers, ParseMembers, SkipElements, SkipNumber, DecodeString;
    assert ("{" + t)[1..] == t;
    assert t[0] == '"';
    assert SkipSpace("{" + t) == "{" + t && SkipSpace(t) == t;
  }

  /** White space around a document makes no difference (section 2). */
  lemma SpaceAround(before: string, ms: seq<(string, Value)>, after: string)
    requires ms != [] && Flat(ms) && AllSpace(before) && AllSpace(after)
    ensures ParseDocument(before + ("{" + (PrintMembers(ms) + after))) == Some(Obj(ms))
  {
    ParseObject(ms, after);
    SpaceBefore(before, "{" + (PrintMembers(ms) + after));
    SkipsSpace(after, "");
    assert after + "" == after;
    hide ParseValue, PrintMembers;
  }

  lemma FirstIsQuote(ms: seq<(string, Value)>)
    requires ms != []
    ensures PrintMembers(ms) != "" && PrintMembers(ms)[0] == '"'
  {
  }
}
