/** The error payloads of the guest (kafig-runtime/src/error.rs, result.rs) and
    how the host reads them (kafig-go/errors.go). */
module ErrorWire {
  import opened Rpc
  import opened JsonText

  const CPU_LIMIT := "cpu_limit_exceeded"
  const MEMORY_LIMIT := "memory_limit_exceeded"
  const STACK_OVERFLOW := "stack_overflow"
  const RUNTIME_ERROR := "runtime_error"

  /** *JsError or *RuntimeError. */
  datatype HostError =
    | JsError(name: string, message: string, stack: Option<string>)
    | RuntimeError(code: string, message: string)

  predicate Contains(s: string, sub: string) {
    exists i | 0 <= i <= |s| :: sub <= s[i..]
  }

  /** classify_error_code and classifyErrorCode: the same tests in the same order. */
  function Classify(msg: string): string {
    if msg == "interrupted" then CPU_LIMIT
    else if Contains(msg, "out of memory") then MEMORY_LIMIT
    else if Contains(msg, "stack") then STACK_OVERFLOW
    else RUNTIME_ERROR
  }

  // ---------------------------------------------------------------- guest side

  function KindMember(kind: string): string {
    "\"kind\":\"" + kind + "\""
  }

  function Braces3(a: string, b: string, c: string): string {
    "{" + a + "," + b + "," + c + "}"
  }

  function Braces4(a: string, b: string, c: string, d: string): string {
    "{" + a + "," + b + "," + c + "," + d + "}"
  }

  /** build_js_error_json: the format string, cut at its commas. */
  function BuildJsErrorJson(name: string, msg: string, stack: Option<string>): string {
    Braces4(KindMember("js_error"), "\"name\":" + Quoted(name), "\"message\":" + Quoted(msg),
            "\"stack\":" + (if stack.Some? then Quoted(stack.value) else "null"))
  }

  /** What send_runtime_error sends. */
  function RuntimeErrorJson(code: string, msg: string): string {
    Braces3(KindMember("runtime_error"), "\"code\":\"" + code + "\"", "\"message\":" + Quoted(msg))
  }

  /** send_exception */
  function ExceptionJson(name: string, msg: string, stack: Option<string>): string {
    var code := Classify(msg);
    if code != RUNTIME_ERROR then RuntimeErrorJson(code, msg) else BuildJsErrorJson(name, msg, stack)
  }

  /** promise_reject_cb once it has read the reason's properties. */
  function RejectionJson(name: string, msg: string, stack: string): string {
    var code := Classify(msg);
    if code != RUNTIME_ERROR then RuntimeErrorJson(code, msg)
    else BuildJsErrorJson(name, msg, if stack == "" then None else Some(stack))
  }

  // ---------------------------------------------------------------- host side

  /** Case folding of object keys in encoding/json, for ASCII field names. */
  function Fold(c: char): char {
    if 'A' <= c <= 'Z' then (c as int + 32) as char
    else if c == '\U{017F}' then 's'
    else if c == '\U{212A}' then 'k'
    else c
  }

  predicate SameKey(key: string, field: string) {
    |key| == |field| && forall i :: 0 <= i < |key| ==> Fold(key[i]) == field[i]
  }

  /** Unmarshalling into a string field: the last member wins, null leaves it
      alone, a value of another kind is an error (None). */
  function StringField(ms: seq<(string, Value)>, field: string, current: string): Option<string> {
    if ms == [] then Some(current)
    else if !SameKey(ms[0].0, field) || ms[0].1.Null? then StringField(ms[1..], field, current)
    else if ms[0].1.Str? then StringField(ms[1..], field, ms[0].1.s)
    else None
  }

  /** Unmarshalling into a *string field, which null sets to nil. */
  function PointerField(ms: seq<(string, Value)>, field: string, current: Option<string>): Option<Option<string>> {
    if ms == [] then Some(current)
    else if !SameKey(ms[0].0, field) then PointerField(ms[1..], field, current)
    else if ms[0].1.Null? then PointerField(ms[1..], field, None)
    else if ms[0].1.Str? then PointerField(ms[1..], field, Some(ms[0].1.s))
    else None
  }

  /** parseErrorJSON */
  function ParseErrorJson(data: string): HostError {
    var raw := RuntimeError(RUNTIME_ERROR, data);
    var doc := ParseDocument(data);
    if doc.None? || !doc.value.Obj? then raw
    else
      var ms := doc.value.members;
      var kind := StringField(ms, "kind", "");
      if kind == Some("js_error") then
        var name, message, stack := StringField(ms, "name", ""), StringField(ms, "message", ""), PointerField(ms, "stack", None);
        if name.None? || message.None? || stack.None? then raw
        else JsError(name.value, message.value, stack.value)
      else if kind == Some("runtime_error") then
        var code, message := StringField(ms, "code", ""), StringField(ms, "message", "");
        if code.None? || message.None? then raw
        else
          var reclassified := Classify(message.value);
          if code.value == "" || (code.value == RUNTIME_ERROR && reclassified != RUNTIME_ERROR)
          then RuntimeError(reclassified, message.value)
          else RuntimeError(code.value, message.value)
      else raw
  }

  // ---------------------------------------------------------------- what is printed is an object

  function JsMembers(name: string, msg: string, stack: Option<string>): seq<(string, Value)> {
    [("kind", Str("js_error")), ("name", Str(name)), ("message", Str(msg)),
     ("stack", if stack.Some? then Str(stack.value) else Null)]
  }

  function RuntimeMembers(code: string, msg: string): seq<(string, Value)> {
    [("kind", Str("runtime_error")), ("code", Str(code)), ("message", Str(msg))]
  }

  predicate IsCode(code: string) {
    code in {CPU_LIMIT, MEMORY_LIMIT, STACK_OVERFLOW, RUNTIME_ERROR}
  }

  predicate PlainChar(c: char) {
    'a' <= c <= 'z' || c == '_'
  }

  /** Names made of small letters and underscores are quoted as they are. */
  lemma {:induction false} PlainBody(s: string)
    requires forall i :: 0 <= i < |s| ==> PlainChar(s[i])
    ensures EscapeBody(s) == s
  {
    if s != "" {
      PlainBody(s[1..]);
      assert PlainChar(s[0]) && EscapeChar(s[0]) == [s[0]];
      assert s == [s[0]] + s[1..];
    }
  }

  lemma PlainKeys()
    ensures EscapeBody("kind") == "kind" && EscapeBody("name") == "name" && EscapeBody("message") == "message"
    ensures EscapeBody("stack") == "stack" && EscapeBody("code") == "code"
  {
    hide EscapeBody;
    PlainBody("kind");
    PlainBody("name");
    PlainBody("message");
    PlainBody("stack");
    PlainBody("code");
  }

  lemma PlainKinds()
    ensures EscapeBody("js_error") == "js_error" && EscapeBody("runtime_error") == "runtime_error"
  {
    hide EscapeBody;
    PlainBody("js_error");
    PlainBody("runtime_error");
  }

  lemma PlainCode(code: string)
    requires IsCode(code)
    ensures EscapeBody(code) == code
  {
    hide EscapeBody;
    PlainBody(code);
  }

  lemma PrintMember1(m: (string, Value))
    ensures PrintMembers([m]) == PrintMember(m) + "}"
  {
  }

  lemma PrintMemberMore(m: (string, Value), ms: seq<(string, Value)>)
    requires ms != []
    ensures PrintMembers([m] + ms) == PrintMember(m) + ("," + PrintMembers(ms))
  {
    assert ([m] + ms)[1..] == ms;
  }

  lemma Join4(p0: string, p1: string, p2: string, p3: string)
    ensures "{" + (p0 + ("," + (p1 + ("," + (p2 + ("," + (p3 + "}"))))))) == Braces4(p0, p1, p2, p3)
  {
  }

  lemma Print3(a: (string, Value), b: (string, Value), c: (string, Value))
    ensures "{" + PrintMembers([a, b, c]) == Braces3(PrintMember(a), PrintMember(b), PrintMember(c))
  {
    hide PrintMember, PrintMembers, Braces3;
    PrintMember1(c);
    PrintMemberMore(b, [c]);
    PrintMemberMore(a, [b] + [c]);
    Join3(PrintMember(a), PrintMember(b), PrintMember(c));
    assert [a, b, c] == [a] + ([b] + [c]);
  }

  lemma Join3(p0: string, p1: string, p2: string)
    ensures "{" + (p0 + ("," + (p1 + ("," + (p2 + "}"))))) == Braces3(p0, p1, p2)
  {
  }

  lemma Print4(a: (string, Value), b: (string, Value), c: (string, Value), d: (string, Value))
    ensures "{" + PrintMembers([a, b, c, d]) == Braces4(PrintMember(a), PrintMember(b), PrintMember(c), PrintMember(d))
  {
    hide PrintMember, PrintMembers, Braces4;
    PrintMember1(d);
    PrintMemberMore(c, [d]);
    PrintMemberMore(b, [c] + [d]);
    PrintMemberMore(a, [b] + ([c] + [d]));
    Join4(PrintMember(a), PrintMember(b), PrintMember(c), PrintMember(d));
    assert [a, b, c, d] == [a] + ([b] + ([c] + [d]));
  }

  lemma PrintsKind(kind: string)
    requires kind == "js_error" || kind == "runtime_error"
    ensures PrintMember(("kind", Str(kind))) == KindMember(kind)
  {
    PlainKeys();
    PlainKinds();
    hide EscapeBody;
    assert Quoted("kind") == "\"kind\"";
    assert Quoted(kind) == "\"" + kind + "\"";
  }

  lemma PrintsNames(v: Value)
    requires v.Null? || v.Str?
    ensures PrintMember(("name", v)) == "\"name\":" + PrintScalar(v)
    ensures PrintMember(("stack", v)) == "\"stack\":" + PrintScalar(v)
  {
    PlainKeys();
    hide EscapeBody, PrintScalar;
    assert Quoted("name") == "\"name\"" && Quoted("stack") == "\"stack\"";
  }

  lemma PrintsMessage(v: Value)
    requires v.Null? || v.Str?
    ensures PrintMember(("message", v)) == "\"message\":" + PrintScalar(v)
    ensures PrintMember(("code", v)) == "\"code\":" + PrintScalar(v)
  {
    PlainKeys();
    hide EscapeBody, PrintScalar;
    assert Quoted("message") == "\"message\"" && Quoted("code") == "\"code\"";
  }

  lemma JsErrorIsPrinted(name: string, msg: string, stack: Option<string>)
    ensures BuildJsErrorJson(name, msg, stack) == "{" + PrintMembers(JsMembers(name, msg, stack))
  {
    var m1, m2 := ("name", Str(name)), ("message", Str(msg));
    var m3 := ("stack", if stack.Some? then Str(stack.value) else Null);
    PrintsKind("js_error");
    PrintsNames(m1.1);
    PrintsNames(m3.1);
    PrintsMessage(m2.1);
    Print4(("kind", Str("js_error")), m1, m2, m3);
    hide Quoted, PrintMembers, PrintMember, Braces4, KindMember;
  }

  lemma RuntimeErrorIsPrinted(code: string, msg: string)
    requires IsCode(code)
    ensures RuntimeErrorJson(code, msg) == "{" + PrintMembers(RuntimeMembers(code, msg))
  {
    var m1, m2 := ("code", Str(code)), ("message", Str(msg));
    PrintsKind("runtime_error");
    PrintsMessage(m1.1);
    PrintsMessage(m2.1);
    PlainCode(code);
    CodeText(code);
    Print3(("kind", Str("runtime_error")), m1, m2);
    hide Quoted, PrintMembers, PrintMember, IsCode, Braces3, KindMember;
  }

  lemma CodeText(code: string)
    requires EscapeBody(code) == code
    ensures "\"code\":" + Quoted(code) == "\"code\":\"" + code + "\""
  {
    hide EscapeBody;
  }

  // ---------------------------------------------------------------- the round trips

  /** A js_error payload, in particular every rejection reported to the
      unhandled-rejection callback, decodes to exactly the strings that went in. */
  lemma JsErrorRoundTrip(name: string, msg: string, stack: Option<string>)
    ensures ParseErrorJson(BuildJsErrorJson(name, msg, stack)) == JsError(name, msg, stack)
  {
    hide Classify, BuildJsErrorJson, StringField, PointerField, ParseDocument, PrintMembers;
    var ms := JsMembers(name, msg, stack);
    JsErrorIsPrinted(name, msg, stack);
    ParsePrintedDocument(ms);
    JsFields(ms, name, msg, stack);
  }

  /** A field that one member alone names takes that member's string. */
  lemma {:induction false} SoleField(ms: seq<(string, Value)>, field: string, current: string, k: nat)
    requires k < |ms| && SameKey(ms[k].0, field) && ms[k].1.Str?
    requires forall i :: 0 <= i < |ms| && i != k ==> !SameKey(ms[i].0, field)
    ensures StringField(ms, field, current) == Some(ms[k].1.s)
    decreases k
  {
    if k > 0 {
      SoleField(ms[1..], field, current, k - 1);
    } else {
      NoField(ms[1..], field, ms[0].1.s);
    }
  }

  lemma {:induction false} NoField(ms: seq<(string, Value)>, field: string, current: string)
    requires forall i :: 0 <= i < |ms| ==> !SameKey(ms[i].0, field)
    ensures StringField(ms, field, current) == Some(current)
    decreases |ms|
  {
    if ms != [] { NoField(ms[1..], field, current); }
  }

  lemma KeysAreDistinct()
    ensures SameKey("kind", "kind") && SameKey("name", "name") && SameKey("code", "code")
    ensures SameKey("message", "message") && SameKey("stack", "stack")
    ensures !SameKey("kind", "name") && !SameKey("name", "kind") && !SameKey("code", "kind") && !SameKey("kind", "code")
  {
    assert Fold("kind"[0]) != "name"[0] && Fold("name"[0]) != "kind"[0];
    assert Fold("code"[0]) != "kind"[0] && Fold("kind"[0]) != "code"[0];
  }

  lemma JsFields(ms: seq<(string, Value)>, name: string, msg: string, stack: Option<string>)
    requires ms == JsMembers(name, msg, stack)
    ensures StringField(ms, "kind", "") == Some("js_error")
    ensures StringField(ms, "name", "") == Some(name) && StringField(ms, "message", "") == Some(msg)
    ensures PointerField(ms, "stack", None) == Some(stack)
  {
    KeysAreDistinct();
    hide StringField;
    SoleField(ms, "kind", "", 0);
    SoleField(ms, "name", "", 1);
    SoleField(ms, "message", "", 2);
    var t1, t2, t3 := ms[1..], ms[1..][1..], ms[1..][1..][1..];
    assert t3[1..] == [];
    assert PointerField(t3, "stack", None) == Some(stack);
    assert PointerField(t2, "stack", None) == PointerField(t3, "stack", None);
    assert PointerField(t1, "stack", None) == PointerField(t2, "stack", None);
  }

  lemma RuntimeFields(ms: seq<(string, Value)>, code: string, msg: string)
    requires ms == RuntimeMembers(code, msg)
    ensures StringField(ms, "kind", "") == Some("runtime_error")
    ensures StringField(ms, "code", "") == Some(code) && StringField(ms, "message", "") == Some(msg)
  {
    KeysAreDistinct();
    hide StringField;
    SoleField(ms, "kind", "", 0);
    SoleField(ms, "code", "", 1);
    SoleField(ms, "message", "", 2);
  }

  /** Every runtime error the guest sends, classified there or not, reaches the
      caller with the code of its message. */
  lemma RuntimeErrorRoundTrip(code: string, msg: string)
    requires code == Classify(msg) || code == RUNTIME_ERROR
    ensures ParseErrorJson(RuntimeErrorJson(code, msg)) == RuntimeError(Classify(msg), msg)
  {
    var ms := RuntimeMembers(code, msg);
    CodesAreCodes(msg);
    hide Classify, RuntimeErrorJson, StringField, IsCode, ParseDocument, PrintMembers;
    RuntimeErrorIsPrinted(code, msg);
    ParsePrintedDocument(ms);
    RuntimeFields(ms, code, msg);
  }

  lemma CodesAreCodes(msg: string)
    ensures IsCode(Classify(msg)) && IsCode(RUNTIME_ERROR) && Classify(msg) != ""
    ensures "js_error" != "runtime_error" && RUNTIME_ERROR != ""
  {
    assert |"js_error"| != |"runtime_error"|;
  }

  /** End to end: whatever the name, message and stack contain, a thrown exception
      arrives as the runtime error its message stands for or, if it stands for
      none, as the JavaScript error it was. */
  lemma ExceptionRoundTrip(name: string, msg: string, stack: Option<string>)
    ensures ParseErrorJson(ExceptionJson(name, msg, stack)) ==
      if Classify(msg) != RUNTIME_ERROR then RuntimeError(Classify(msg), msg) else JsError(name, msg, stack)
  {
    if Classify(msg) != RUNTIME_ERROR {
      RuntimeErrorRoundTrip(Classify(msg), msg);
    } else {
      JsErrorRoundTrip(name, msg, stack);
    }
  }

  /** The same for a rejected promise, whose empty stack is reported as none. */
  lemma RejectionRoundTrip(name: string, msg: string, stack: string)
    ensures ParseErrorJson(RejectionJson(name, msg, stack)) ==
      if Classify(msg) != RUNTIME_ERROR then RuntimeError(Classify(msg), msg)
      else JsError(name, msg, if stack == "" then None else Some(stack))
  {
    ExceptionRoundTrip(name, msg, if stack == "" then None else Some(stack));
  }

  /** The payload is one-to-one: no two exceptions that classify as none of the
      special codes are ever reported alike. */
  lemma ExceptionsAreToldApart(n1: string, m1: string, s1: Option<string>, n2: string, m2: string, s2: Option<string>)
    requires ExceptionJson(n1, m1, s1) == ExceptionJson(n2, m2, s2)
    ensures m1 == m2 && (Classify(m1) == RUNTIME_ERROR ==> n1 == n2 && s1 == s2)
  {
    ExceptionRoundTrip(n1, m1, s1);
    ExceptionRoundTrip(n2, m2, s2);
  }

  // ---------------------------------------------------------------- classification, by what the message says

  lemma OccursIff(m: string, sub: string)
    ensures Contains(m, sub) <==> exists a: string, b: string :: m == a + sub + b
  {
    if Contains(m, sub) {
      var i :| 0 <= i <= |m| && sub <= m[i..];
      assert m == m[..i] + sub + m[i..][|sub|..];
    }
    if a: string, b: string :| m == a + sub + b {
      assert sub <= m[|a|..];
    }
  }

  lemma CodeOf(m: string)
    ensures Classify(m) ==
      if m == "interrupted" then "cpu_limit_exceeded"
      else if exists a: string, b: string :: m == a + "out of memory" + b then "memory_limit_exceeded"
      else if exists a: string, b: string :: m == a + "stack" + b then "stack_overflow"
      else "runtime_error"
  {
    OccursIff(m, "out of memory");
    OccursIff(m, "stack");
  }

  lemma CodesDiffer()
    ensures "cpu_limit_exceeded" != "runtime_error" && "memory_limit_exceeded" != "runtime_error"
    ensures "stack_overflow" != "runtime_error"
  {
    assert |"cpu_limit_exceeded"| != |"runtime_error"|;
    assert |"memory_limit_exceeded"| != |"runtime_error"|;
    assert |"stack_overflow"| != |"runtime_error"|;
  }

  /** What an exception is reported as, in every case and by its message alone. */
  lemma ExceptionArrivesAs(n: string, m: string, s: Option<string>)
    ensures ParseErrorJson(ExceptionJson(n, m, s)) ==
      if m == "interrupted" then RuntimeError("cpu_limit_exceeded", m)
      else if exists a: string, b: string :: m == a + "out of memory" + b then RuntimeError("memory_limit_exceeded", m)
      else if exists a: string, b: string :: m == a + "stack" + b then RuntimeError("stack_overflow", m)
      else JsError(n, m, s)
  {
    ExceptionRoundTrip(n, m, s);
    CodeOf(m);
    CodesDiffer();
    hide Classify, ParseErrorJson, ExceptionJson;
  }

  /** The same for a rejected result promise. */
  lemma RejectionArrivesAs(n: string, m: string, s: string)
    ensures ParseErrorJson(RejectionJson(n, m, s)) ==
      if m == "interrupted" then RuntimeError("cpu_limit_exceeded", m)
      else if exists a: string, b: string :: m == a + "out of memory" + b then RuntimeError("memory_limit_exceeded", m)
      else if exists a: string, b: string :: m == a + "stack" + b then RuntimeError("stack_overflow", m)
      else JsError(n, m, if s == "" then None else Some(s))
  {
    RejectionRoundTrip(n, m, s);
    CodeOf(m);
    CodesDiffer();
    hide Classify, ParseErrorJson, RejectionJson;
  }

  /** The same for a runtime error that the guest sends as plain "runtime_error". */
  lemma UnclassifiedArrivesAs(m: string)
    ensures ParseErrorJson(RuntimeErrorJson("runtime_error", m)) == RuntimeError(
      if m == "interrupted" then "cpu_limit_exceeded"
      else if exists a: string, b: string :: m == a + "out of memory" + b then "memory_limit_exceeded"
      else if exists a: string, b: string :: m == a + "stack" + b then "stack_overflow"
      else "runtime_error", m)
  {
    RuntimeErrorRoundTrip("runtime_error", m);
    CodeOf(m);
    hide Classify, ParseErrorJson, RuntimeErrorJson;
  }

  // ---------------------------------------------------------------- the wire itself

  /** A js_error payload as any reader of RFC 8259 sees it. */
  lemma JsErrorOnTheWire(n: string, m: string, s: Option<string>)
    ensures ParseDocument(BuildJsErrorJson(n, m, s)) == Some(Obj([
      ("kind", Str("js_error")), ("name", Str(n)), ("message", Str(m)),
      ("stack", if s.Some? then Str(s.value) else Null)]))
  {
    JsErrorIsPrinted(n, m, s);
    ParsePrintedDocument(JsMembers(n, m, s));
    hide BuildJsErrorJson, ParseDocument, PrintMembers;
  }

  lemma RuntimeErrorOnTheWire(code: string, m: string)
    requires IsCode(code)
    ensures ParseDocument(RuntimeErrorJson(code, m)) == Some(Obj([
      ("kind", Str("runtime_error")), ("code", Str(code)), ("message", Str(m))]))
  {
    RuntimeErrorIsPrinted(code, m);
    ParsePrintedDocument(RuntimeMembers(code, m));
    hide RuntimeErrorJson, ParseDocument, PrintMembers;
  }

  /** What the guest puts on the wire for an exception: a coded runtime error or the
      whole JavaScript error, by its message alone. */
  lemma ExceptionOnTheWire(n: string, m: string, s: Option<string>)
    ensures ParseDocument(ExceptionJson(n, m, s)) == Some(Obj(
      if m == "interrupted"
      then [("kind", Str("runtime_error")), ("code", Str("cpu_limit_exceeded")), ("message", Str(m))]
      else if exists a: string, b: string :: m == a + "out of memory" + b
      then [("kind", Str("runtime_error")), ("code", Str("memory_limit_exceeded")), ("message", Str(m))]
      else if exists a: string, b: string :: m == a + "stack" + b
      then [("kind", Str("runtime_error")), ("code", Str("stack_overflow")), ("message", Str(m))]
      else [("kind", Str("js_error")), ("name", Str(n)), ("message", Str(m)),
            ("stack", if s.Some? then Str(s.value) else Null)]))
  {
    CodeOf(m);
    CodesDiffer();
    CodesAreCodes(m);
    hide Classify, ParseDocument, BuildJsErrorJson, RuntimeErrorJson, IsCode;
    if Classify(m) != RUNTIME_ERROR {
      RuntimeErrorOnTheWire(Classify(m), m);
    } else {
      JsErrorOnTheWire(n, m, s);
    }
  }

  // ---------------------------------------------------------------- the host's reading of any text

  /** Of several members with a field's name the last decides, null leaves a string
      as it was, and a value of another kind is an error. */
  lemma {:induction false} LastMemberDecides(ms: seq<(string, Value)>, k: string, v: Value, field: string, current: string)
    ensures var before := StringField(ms, field, current);
      StringField(ms + [(k, v)], field, current) ==
        if !SameKey(k, field) || v.Null? then before
        else if v.Str? && before.Some? then Some(v.s)
        else None
    decreases |ms|
  {
    hide SameKey;
    if ms == [] {
      assert [(k, v)][1..] == [] && ms + [(k, v)] == [(k, v)];
    } else {
      assert (ms + [(k, v)])[1..] == ms[1..] + [(k, v)];
      LastMemberDecides(ms[1..], k, v, field, current);
      if ms[0].1.Str? { LastMemberDecides(ms[1..], k, v, field, ms[0].1.s); }
    }
  }

  /** The same for the stack, which null clears. */
  lemma {:induction false} LastStackDecides(ms: seq<(string, Value)>, k: string, v: Value, field: string, current: Option<string>)
    ensures var before := PointerField(ms, field, current);
      PointerField(ms + [(k, v)], field, current) ==
        if !SameKey(k, field) then before
        else if before.None? || !(v.Null? || v.Str?) then None
        else Some(if v.Str? then Some(v.s) else None)
    decreases |ms|
  {
    hide SameKey;
    if ms == [] {
      assert [(k, v)][1..] == [] && ms + [(k, v)] == [(k, v)];
    } else {
      assert (ms + [(k, v)])[1..] == ms[1..] + [(k, v)];
      LastStackDecides(ms[1..], k, v, field, current);
      LastStackDecides(ms[1..], k, v, field, None);
      if ms[0].1.Str? { LastStackDecides(ms[1..], k, v, field, Some(ms[0].1.s)); }
    }
  }

  /** Which keys name a field of small letters: those that differ from it in case
      only, where the long s and the Kelvin sign are cases of s and k. */
  lemma KeysFold(key: string, field: string)
    requires forall i :: 0 <= i < |field| ==> 'a' <= field[i] <= 'z'
    ensures SameKey(key, field) <==>
      |key| == |field| && forall i :: 0 <= i < |key| ==>
        || key[i] == field[i]
        || key[i] as int + 32 == field[i] as int
        || (key[i] == '\U{017F}' && field[i] == 's')
        || (key[i] == '\U{212A}' && field[i] == 'k')
  {
    if |key| == |field| {
      forall i | 0 <= i < |key|
        ensures Fold(key[i]) == field[i] <==>
          || key[i] == field[i]
          || key[i] as int + 32 == field[i] as int
          || (key[i] == '\U{017F}' && field[i] == 's')
          || (key[i] == '\U{212A}' && field[i] == 'k')
      {
        assert 'a' <= field[i] <= 'z';
      }
    }
  }

  /** How any text is read: anything but an object of a known kind with strings where
      strings belong is kept whole as a runtime error; an error without a code of its
      own gets that of its message. */
  lemma AnyTextIsRead(data: string)
    ensures
      var doc := ParseDocument(data);
      var ms := if doc.Some? && doc.value.Obj? then doc.value.members else [];
      var kind, message := StringField(ms, "kind", ""), StringField(ms, "message", "");
      var name, stack, code := StringField(ms, "name", ""), PointerField(ms, "stack", None), StringField(ms, "code", "");
      ParseErrorJson(data) ==
        if kind == Some("js_error") && name.Some? && message.Some? && stack.Some?
        then JsError(name.value, message.value, stack.value)
        else if kind == Some("runtime_error") && code.Some? && message.Some?
        then RuntimeError(if code.value in {"", "runtime_error"} then Classify(message.value) else code.value, message.value)
        else RuntimeError("runtime_error", data)
  {
    assert |"js_error"| != |"runtime_error"| && |""| != |"js_error"|;
    hide Classify, ParseDocument, PointerField;
  }
}
