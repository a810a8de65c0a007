/**
  The canonical cache key of internal/cache/redis.go: `RequestHash` hashes the JSON encoding of
  every request field except Stream.  A decoder shows that the encoding loses nothing, for message
  lists and strings of any length.
 */
module CacheKey {
  import opened Models

  // ---------------------------------------------------------------- the encoder of encoding/json

  function HexDigit(n: nat): char
    requires n < 16
  {
    "0123456789abcdef"[n]
  }

  /** One character of a JSON string with HTML escaping on (section 7 of RFC 8259). */
  function EscapeChar(c: char): string {
    if c == '"' then "\\\"" else if c == '\\' then "\\\\"
    else if c == '\n' then "\\n" else if c == '\r' then "\\r" else if c == '\t' then "\\t"
    else if c as int == 8 then "\\b" else if c as int == 12 then "\\f"
    else if c as int < 32 || c == '<' || c == '>' || c == '&' then
      ['\\', 'u', '0', '0', HexDigit(c as int / 16), HexDigit(c as int % 16)]
    else if c as int == 0x2028 then "\\u2028" else if c as int == 0x2029 then "\\u2029"
    else [c]
  }

  function Escape(s: string): string {
    if s == "" then "" else EscapeChar(s[0]) + Escape(s[1..])
  }

  /** The rest of a JSON string whose opening quote is written, followed by `next`. */
  function Text(s: string, next: string): string {
    Escape(s) + ("\"" + next)
  }

  function Digits(n: nat): string {
    if n < 10 then [HexDigit(n)] else Digits(n / 10) + [HexDigit(n % 10)]
  }

  function Decimal(n: int): string {
    if n < 0 then "-" + Digits(-n) else Digits(n)
  }

  const PROVIDER := "{\"provider\":\""
  const MODEL := ",\"model\":\""
  const SYSTEM := "\"system_prompt\":\""
  const MESSAGES := "\"messages\":["
  const ROLE := "{\"role\":\""
  const CONTENT := ",\"content\":\""
  const MAX_TOKENS := "],\"max_tokens\":"
  const TEMPERATURE := ",\"temperature\":"

  function EncodeMessage(m: Message, next: string): string {
    ROLE + Text(m.role, CONTENT + Text(m.content, "}" + next))
  }

  function EncodeMessages(ms: seq<Message>, next: string): string
    requires ms != []
  {
    EncodeMessage(ms[0], if |ms| == 1 then next else "," + EncodeMessages(ms[1..], next))
  }

  function EncodeTail(r: GatewayRequest, format: Float64 -> string): string
    requires r.messages != []
  {
    MESSAGES + EncodeMessages(r.messages,
      MAX_TOKENS + (Decimal(r.maxTokens) + (TEMPERATURE + (format(r.temperature) + "}"))))
  }

  /** The marshalled struct; the caller has validated that there are messages. */
  function Encode(r: GatewayRequest, format: Float64 -> string): string
    requires r.messages != []
  {
    PROVIDER + Text(r.provider, MODEL + Text(r.model, "," +
      (if r.systemPrompt == "" then EncodeTail(r, format)
       else SYSTEM + Text(r.systemPrompt, "," + EncodeTail(r, format)))))
  }

  /** json.Marshal refuses infinities and NaNs; the ignored error leaves no data to hash. */
  function RequestHash(sha256: string -> string, format: Float64 -> string, r: GatewayRequest): string
    requires r.messages != []
  {
    "cache:" + sha256(if Finite(r.temperature) then Encode(r, format) else "")
  }

  /** A character that stands for itself in a JSON string. */
  predicate Plain(c: char) {
    32 <= c as int && c != '"' && c != '\\' && c != '<' && c != '>' && c != '&' &&
    c as int != 0x2028 && c as int != 0x2029
  }

  predicate PlainText(s: string) { forall c | c in s :: Plain(c) }

  /** Whatever a string holds, its encoding is plain but for backslashes and quotes, and quotes follow a backslash. */
  lemma EscapedIsSafe(c: char)
    ensures Plain(c) ==> EscapeChar(c) == [c]
    ensures !Plain(c) ==> |EscapeChar(c)| in {2, 6} && EscapeChar(c)[0] == '\\'
    ensures forall i :: 0 < i < |EscapeChar(c)| ==> Plain(EscapeChar(c)[i]) || (i == 1 && EscapeChar(c)[i] == c)
  {
  }

  lemma {:induction false} PlainStands(s: string)
    requires PlainText(s)
    ensures Escape(s) == s
  {
    if s != "" {
      assert s[0] in s && s == [s[0]] + s[1..];
      PlainStands(s[1..]);
    }
  }

  function Flat(parts: seq<string>): string {
    if parts == [] then "" else parts[0] + Flat(parts[1..])
  }

  lemma FlatCons(part: string, rest: seq<string>)
    ensures Flat([part] + rest) == part + Flat(rest)
  {
  }

  function MessageParts(m: Message): seq<string> {
    ["{\"role\":\"", m.role, "\"", ",\"content\":\"", m.content, "\"", "}"]
  }

  function ListParts(ms: seq<Message>): seq<string>
    requires ms != []
  {
    MessageParts(ms[0]) + if |ms| == 1 then [] else [","] + ListParts(ms[1..])
  }

  function SystemParts(system: string): seq<string> {
    if system == "" then [] else ["\"system_prompt\":\"", system, "\"", ","]
  }

  function TailParts(r: GatewayRequest, format: Float64 -> string): seq<string> {
    ["],\"max_tokens\":", Decimal(r.maxTokens), ",\"temperature\":", format(r.temperature), "}"]
  }

  lemma FlatOfFour(a: string, b: string, c: string, d: string, rest: seq<string>)
    ensures Flat([a, b, c, d] + rest) == a + (b + (c + (d + Flat(rest))))
  {
    FlatCons(d, rest);
    FlatCons(c, [d] + rest);
    FlatCons(b, [c] + ([d] + rest));
    FlatCons(a, [b] + ([c] + ([d] + rest)));
    assert [a, b, c, d] + rest == [a] + ([b] + ([c] + ([d] + rest)));
  }

  lemma FlatOfSeven(a: string, b: string, c: string, d: string, e: string, f: string, g: string, rest: seq<string>)
    ensures Flat([a, b, c, d, e, f, g] + rest) == a + (b + (c + (d + (e + (f + (g + Flat(rest)))))))
  {
    FlatCons(g, rest);
    FlatCons(f, [g] + rest);
    FlatCons(e, [f] + ([g] + rest));
    FlatOfFour(a, b, c, d, [e] + ([f] + ([g] + rest)));
    assert [a, b, c, d, e, f, g] + rest == [a, b, c, d] + ([e] + ([f] + ([g] + rest)));
  }

  lemma PlainMessage(m: Message, rest: seq<string>)
    requires PlainText(m.role) && PlainText(m.content)
    ensures Flat(MessageParts(m) + rest) == EncodeMessage(m, Flat(rest))
  {
    PlainStands(m.role);
    PlainStands(m.content);
    FlatOfSeven(ROLE, m.role, "\"", CONTENT, m.content, "\"", "}", rest);
  }

  lemma Regroup(a: seq<string>, b: seq<string>, c: seq<string>, d: seq<string>)
    ensures (a + (b + c)) + d == a + (b + (c + d))
  {
  }

  lemma {:induction false} PlainMessages(ms: seq<Message>, rest: seq<string>)
    requires ms != [] && forall m | m in ms :: PlainText(m.role) && PlainText(m.content)
    ensures Flat(ListParts(ms) + rest) == EncodeMessages(ms, Flat(rest))
  {
    assert ms[0] in ms;
    if |ms| == 1 {
      assert ListParts(ms) + rest == MessageParts(ms[0]) + rest;
      PlainMessage(ms[0], rest);
    } else {
      var first, others := MessageParts(ms[0]), ListParts(ms[1..]);
      PlainMessages(ms[1..], rest);
      FlatCons(",", others + rest);
      PlainMessage(ms[0], [","] + (others + rest));
      Regroup(first, [","], others, rest);
    }
  }

  predicate PlainRequest(r: GatewayRequest) {
    && PlainText(r.provider) && PlainText(r.model) && PlainText(r.systemPrompt)
    && forall m | m in r.messages :: PlainText(m.role) && PlainText(m.content)
  }

  lemma PlainTail(r: GatewayRequest, format: Float64 -> string)
    requires r.messages != [] && PlainRequest(r)
    ensures Flat(["\"messages\":["] + (ListParts(r.messages) + TailParts(r, format))) == EncodeTail(r, format)
  {
    var p := TailParts(r, format);
    FlatOfFour(p[0], p[1], p[2], p[3], [p[4]]);
    FlatCons(p[4], []);
    assert p == [p[0], p[1], p[2], p[3]] + [p[4]] && [p[4]] + [] == [p[4]] && p[4] + "" == p[4];
    PlainMessages(r.messages, p);
    FlatCons("\"messages\":[", ListParts(r.messages) + p);
  }

  lemma PlainSystem(r: GatewayRequest, format: Float64 -> string, rest: seq<string>)
    requires r.messages != [] && PlainText(r.systemPrompt) && Flat(rest) == EncodeTail(r, format)
    ensures Flat(SystemParts(r.systemPrompt) + rest) ==
            if r.systemPrompt == "" then EncodeTail(r, format)
            else SYSTEM + Text(r.systemPrompt, "," + EncodeTail(r, format))
  {
    PlainStands(r.systemPrompt);
    if r.systemPrompt == "" {
      assert [] + rest == rest;
    } else {
      FlatOfFour(SYSTEM, r.systemPrompt, "\"", ",", rest);
    }
  }

  /** The key of a request in which nothing is escaped, with the JSON text written out. */
  lemma PlainKey(sha256: string -> string, format: Float64 -> string, r: GatewayRequest)
    requires r.messages != [] && PlainRequest(r) && Finite(r.temperature)
    ensures var tail := SystemParts(r.systemPrompt) +
                        (["\"messages\":["] + (ListParts(r.messages) + TailParts(r, format)));
            RequestHash(sha256, format, r) ==
            "cache:" + sha256(Flat(["{\"provider\":\"", r.provider, "\"", ",\"model\":\""] +
                                   ([r.model] + (["\""] + ([","] + tail)))))
  {
    var rest := ["\"messages\":["] + (ListParts(r.messages) + TailParts(r, format));
    var tail := SystemParts(r.systemPrompt) + rest;
    PlainStands(r.provider);
    PlainStands(r.model);
    PlainTail(r, format);
    PlainSystem(r, format, rest);
    FlatCons(",", tail);
    FlatCons("\"", [","] + tail);
    FlatCons(r.model, ["\""] + ([","] + tail));
    FlatOfFour(PROVIDER, r.provider, "\"", MODEL, [r.model] + (["\""] + ([","] + tail)));
  }

  // ---------------------------------------------------------------- a decoder

  datatype Parsed<+T> = Failed | Parsed(value: T, rest: string) {
    predicate IsFailure() { Failed? }
    function PropagateFailure<U>(): Parsed<U> requires Failed? { Failed }
    function Extract(): (T, string) requires Parsed? { (value, rest) }
  }

  function Skip(literal: string, t: string): (p: Parsed<()>)
    ensures p.Parsed? ==> |p.rest| + |literal| == |t|
  {
    if literal <= t then Parsed((), t[|literal|..]) else Failed
  }

  function HexValue(c: char): nat
    ensures HexValue(c) < 16
  {
    if '0' <= c <= '9' then c as int - '0' as int
    else if 'a' <= c <= 'f' then c as int - 'a' as int + 10
    else 0
  }

  function ParseEscape(t: string): (p: Parsed<char>)
    ensures p.Parsed? ==> |p.rest| < |t|
  {
    if t == "" then Failed
    else if t[0] == 'n' then Parsed('\n', t[1..])
    else if t[0] == 'r' then Parsed('\r', t[1..])
    else if t[0] == 't' then Parsed('\t', t[1..])
    else if t[0] == 'b' then Parsed(8 as char, t[1..])
    else if t[0] == 'f' then Parsed(12 as char, t[1..])
    else if t[0] == 'u' then
      if |t| < 5 then Failed
      else
        var code := HexValue(t[1]) * 4096 + HexValue(t[2]) * 256 + HexValue(t[3]) * 16 + HexValue(t[4]);
        if code < 0xD800 then Parsed(code as char, t[5..]) else Failed
    else Parsed(t[0], t[1..])
  }

  function ParseChar(t: string): (p: Parsed<char>)
    ensures p.Parsed? ==> |p.rest| < |t|
  {
    if t == "" then Failed
    else if t[0] == '\\' then ParseEscape(t[1..])
    else Parsed(t[0], t[1..])
  }

  function ParseText(t: string): (p: Parsed<string>)
    ensures p.Parsed? ==> |p.rest| < |t|
    decreases |t|
  {
    if t == "" then Failed
    else if t[0] == '"' then Parsed("", t[1..])
    else
      var (c, t1) :- ParseChar(t);
      var (s, t2) :- ParseText(t1);
      Parsed([c] + s, t2)
  }

  predicate IsDigit(c: char) { '0' <= c <= '9' }

  function ParseDigits(t: string, acc: nat): (nat, string) {
    if t == "" || !IsDigit(t[0]) then (acc, t) else ParseDigits(t[1..], acc * 10 + HexValue(t[0]))
  }

  function ParseDecimal(t: string): Parsed<int> {
    var negative := t != "" && t[0] == '-';
    var (n, rest) := ParseDigits(if negative then t[1..] else t, 0);
    var size: int := n;
    Parsed(if negative then -size else size, rest)
  }

  function ParseMessage(t: string): (p: Parsed<Message>)
    ensures p.Parsed? ==> |p.rest| < |t|
  {
    var (_, t1) :- Skip(ROLE, t);
    var (role, t2) :- ParseText(t1);
    var (_, t3) :- Skip(CONTENT, t2);
    var (content, t4) :- ParseText(t3);
    var (_, t5) :- Skip("}", t4);
    Parsed(Message(role, content), t5)
  }

  function ParseMessages(t: string): (p: Parsed<seq<Message>>)
    ensures p.Parsed? ==> |p.rest| < |t|
    decreases |t|
  {
    var (m, t1) :- ParseMessage(t);
    if t1 != "" && t1[0] == ',' then
      var (ms, t2) :- ParseMessages(t1[1..]);
      Parsed([m] + ms, t2)
    else Parsed([m], t1)
  }

  function ParseSystem(t: string): Parsed<string> {
    match Skip(SYSTEM, t)
    case Failed => Parsed("", t)
    case Parsed(_, t1) =>
      var (s, t2) :- ParseText(t1);
      var (_, t3) :- Skip(",", t2);
      Parsed(s, t3)
  }

  /** The fields that went into a key; the temperature stays in its printed form. */
  datatype Fields = Fields(provider: string, model: string, systemPrompt: string, messages: seq<Message>,
                           maxTokens: int, temperature: string)

  function Decode(t: string): Parsed<Fields> {
    var (_, t1) :- Skip(PROVIDER, t);
    var (provider, t2) :- ParseText(t1);
    var (_, t3) :- Skip(MODEL, t2);
    var (model, t4) :- ParseText(t3);
    var (_, t5) :- Skip(",", t4);
    var (system, t6) :- ParseSystem(t5);
    var (_, t7) :- Skip(MESSAGES, t6);
    var (messages, t8) :- ParseMessages(t7);
    var (_, t9) :- Skip(MAX_TOKENS, t8);
    var (maxTokens, t10) :- ParseDecimal(t9);
    var (_, t11) :- Skip(TEMPERATURE, t10);
    if t11 == "" then Failed
    else Parsed(Fields(provider, model, system, messages, maxTokens, t11[..|t11| - 1]), "")
  }

  // ---------------------------------------------------------------- round trip

  lemma SkipLiteral(literal: string, next: string)
    ensures Skip(literal, literal + next) == Parsed((), next)
  {
  }

  lemma HexRoundTrip(n: nat)
    requires n < 16
    ensures HexValue(HexDigit(n)) == n && HexDigit(n) != '"' && HexDigit(n) != '-'
    ensures n < 10 ==> IsDigit(HexDigit(n))
  {
  }

  lemma ControlRoundTrip(c: char, next: string)
    requires c as int < 128
    ensures ParseChar(['\\', 'u', '0', '0', HexDigit(c as int / 16), HexDigit(c as int % 16)] + next) ==
            Parsed(c, next)
  {
    var e := ['\\', 'u', '0', '0', HexDigit(c as int / 16), HexDigit(c as int % 16)];
    HexRoundTrip(c as int / 16);
    HexRoundTrip(c as int % 16);
    assert (e + next)[1..] == e[1..] + next;
    assert (e[1..] + next)[5..] == next;
    assert c as int / 16 * 16 + c as int % 16 == c as int;
  }

  lemma ShortEscapeRoundTrip(e: string, c: char, next: string)
    requires |e| == 2 && e[0] == '\\' && e[1] != 'u' && ParseEscape([e[1]]) == Parsed(c, "")
    ensures ParseChar(e + next) == Parsed(c, next)
  {
  }

  lemma SeparatorRoundTrip(c: char, next: string)
    requires c as int == 0x2028 || c as int == 0x2029
    ensures ParseChar(EscapeChar(c) + next) == Parsed(c, next)
  {
  }

  lemma CharRoundTrip(c: char, next: string)
    ensures ParseChar(EscapeChar(c) + next) == Parsed(c, next)
    ensures EscapeChar(c) != "" && EscapeChar(c)[0] != '"'
  {
    var e := EscapeChar(c);
    if |e| == 1 {
      assert (e + next)[1..] == next;
    } else if |e| == 2 {
      assert ParseEscape([e[1]]).Parsed?;
      ShortEscapeRoundTrip(e, c, next);
    } else if c as int < 128 {
      ControlRoundTrip(c, next);
    } else {
      SeparatorRoundTrip(c, next);
    }
  }

  lemma TextStep(e: string, c: char, s: string, rest: string, next: string)
    requires e != "" && e[0] != '"' && ParseChar(e + rest) == Parsed(c, rest) && ParseText(rest) == Parsed(s, next)
    ensures ParseText(e + rest) == Parsed([c] + s, next)
  {
  }

  lemma TextUnfolds(s: string, next: string)
    requires s != ""
    ensures Text(s, next) == EscapeChar(s[0]) + Text(s[1..], next)
  {
  }

  lemma {:induction false} TextRoundTrip(s: string, next: string)
    ensures ParseText(Text(s, next)) == Parsed(s, next)
  {
    if s == "" {
      assert Text(s, next) == "\"" + next;
      assert ("\"" + next)[1..] == next;
    } else {
      CharRoundTrip(s[0], Text(s[1..], next));
      TextUnfolds(s, next);
      TextRoundTrip(s[1..], next);
      TextStep(EscapeChar(s[0]), s[0], s[1..], Text(s[1..], next), next);
      assert [s[0]] + s[1..] == s;
    }
  }

  lemma {:induction false} DigitsRoundTrip(n: nat, next: string)
    ensures ParseDigits(Digits(n) + next, 0) == ParseDigits(next, n)
    ensures Digits(n) != "" && IsDigit(Digits(n)[0])
  {
    var d := [HexDigit(n % 10)];
    HexRoundTrip(n % 10);
    assert (d + next)[1..] == next;
    if n >= 10 {
      DigitsRoundTrip(n / 10, d + next);
      assert Digits(n) + next == Digits(n / 10) + (d + next);
    }
  }

  lemma DecimalRoundTrip(n: int, next: string)
    requires next != "" && !IsDigit(next[0])
    ensures ParseDecimal(Decimal(n) + next) == Parsed(n, next)
  {
    var digits := Digits(if n < 0 then -n else n);
    DigitsRoundTrip(if n < 0 then -n else n, next);
    if n < 0 {
      assert Decimal(n) + next == "-" + (digits + next);
      assert ("-" + (digits + next))[1..] == digits + next;
    } else {
      assert (digits + next)[0] == digits[0];
    }
  }

  lemma MessageRoundTrip(m: Message, next: string)
    ensures ParseMessage(EncodeMessage(m, next)) == Parsed(m, next)
  {
    var t4 := "}" + next;
    var t3 := Text(m.content, t4);
    var t2 := CONTENT + t3;
    var t1 := Text(m.role, t2);
    SkipLiteral(ROLE, t1);
    TextRoundTrip(m.role, t2);
    SkipLiteral(CONTENT, t3);
    TextRoundTrip(m.content, t4);
    SkipLiteral("}", next);
  }

  lemma {:induction false} MessagesRoundTrip(ms: seq<Message>, next: string)
    requires ms != [] && next != "" && next[0] != ','
    ensures ParseMessages(EncodeMessages(ms, next)) == Parsed(ms, next)
  {
    if |ms| == 1 {
      MessageRoundTrip(ms[0], next);
      assert [ms[0]] == ms;
    } else {
      var more := EncodeMessages(ms[1..], next);
      MessageRoundTrip(ms[0], "," + more);
      MessagesRoundTrip(ms[1..], next);
      assert ("," + more)[1..] == more;
      assert [ms[0]] + ms[1..] == ms;
    }
  }

  lemma SystemRoundTrip(system: string, tail: string)
    ensures system == "" && MESSAGES <= tail ==> ParseSystem(tail) == Parsed("", tail)
    ensures ParseSystem(SYSTEM + Text(system, "," + tail)) == Parsed(system, tail)
  {
    if MESSAGES <= tail {
      assert tail[1] == MESSAGES[1] != SYSTEM[1];
    }
    SkipLiteral(SYSTEM, Text(system, "," + tail));
    TextRoundTrip(system, "," + tail);
    SkipLiteral(",", tail);
  }

  function Described(r: GatewayRequest, format: Float64 -> string): Fields {
    Fields(r.provider, r.model, r.systemPrompt, r.messages, r.maxTokens, format(r.temperature))
  }

  /** The decoder recovers every field from the encoding. */
  lemma KeyRoundTrip(r: GatewayRequest, format: Float64 -> string)
    requires r.messages != []
    ensures Decode(Encode(r, format)) == Parsed(Described(r, format), "")
  {
    var t11 := format(r.temperature) + "}";
    var t10 := TEMPERATURE + t11;
    var t9 := Decimal(r.maxTokens) + t10;
    var t8 := MAX_TOKENS + t9;
    var t7 := EncodeMessages(r.messages, t8);
    var t6 := MESSAGES + t7;
    var t5 := if r.systemPrompt == "" then t6 else SYSTEM + Text(r.systemPrompt, "," + t6);
    var t4 := "," + t5;
    var t3 := Text(r.model, t4);
    var t2 := MODEL + t3;
    SkipLiteral(PROVIDER, Text(r.provider, t2));
    TextRoundTrip(r.provider, t2);
    SkipLiteral(MODEL, t3);
    TextRoundTrip(r.model, t4);
    SkipLiteral(",", t5);
    SystemRoundTrip(r.systemPrompt, t6);
    SkipLiteral(MESSAGES, t7);
    MessagesRoundTrip(r.messages, t8);
    SkipLiteral(MAX_TOKENS, t9);
    DecimalRoundTrip(r.maxTokens, t10);
    SkipLiteral(TEMPERATURE, t11);
    assert t11[..|t11| - 1] == format(r.temperature);
  }

  // ---------------------------------------------------------------- the key

  ghost predicate InjectiveHash(f: string -> string) {
    forall x, y :: f(x) == f(y) ==> x == y
  }

  ghost predicate InjectiveFormat(f: Float64 -> string) {
    forall x: Float64, y: Float64 :: Finite(x) && Finite(y) && f(x) == f(y) ==> x == y
  }

  /** The encodings of two requests are equal exactly when the requests agree on every field except Stream. */
  lemma EncodingsEqualIff(format: Float64 -> string, r1: GatewayRequest, r2: GatewayRequest)
    requires InjectiveFormat(format)
    requires r1.messages != [] && r2.messages != [] && Finite(r1.temperature) && Finite(r2.temperature)
    ensures Encode(r1, format) == Encode(r2, format) <==> r1.(stream := false) == r2.(stream := false)
  {
    KeyRoundTrip(r1, format);
    KeyRoundTrip(r2, format);
  }

  /** A temperature that JSON cannot carry leaves nothing to hash: all such requests share one key, with no other. */
  lemma NonFiniteKeysCollide(sha256: string -> string, format: Float64 -> string, r1: GatewayRequest,
                             r2: GatewayRequest)
    requires InjectiveHash(sha256)
    requires r1.messages != [] && r2.messages != [] && !Finite(r1.temperature)
    ensures RequestHash(sha256, format, r1) == RequestHash(sha256, format, r2) <==> !Finite(r2.temperature)
  {
    var k1, k2 := RequestHash(sha256, format, r1), RequestHash(sha256, format, r2);
    assert k1 == "cache:" + sha256("") && k1[6..] == sha256("");
    if Finite(r2.temperature) {
      assert k2[6..] == sha256(Encode(r2, format));
      assert |Encode(r2, format)| >= |PROVIDER|;
    }
  }

  /** So are the cache keys, if the digest is injective. */
  lemma KeysEqualIff(sha256: string -> string, format: Float64 -> string, r1: GatewayRequest, r2: GatewayRequest)
    requires InjectiveHash(sha256) && InjectiveFormat(format)
    requires r1.messages != [] && r2.messages != [] && Finite(r1.temperature) && Finite(r2.temperature)
    ensures RequestHash(sha256, format, r1) == RequestHash(sha256, format, r2) <==>
            r1.(stream := false) == r2.(stream := false)
  {
    EncodingsEqualIff(format, r1, r2);
    var e1, e2 := Encode(r1, format), Encode(r2, format);
    var k1, k2 := "cache:" + sha256(e1), "cache:" + sha256(e2);
    assert k1[6..] == sha256(e1) && k2[6..] == sha256(e2);
  }
}
