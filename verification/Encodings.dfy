/**
  The message encodings of internal/proxy/groq.go and internal/proxy/gemini.go, compared through
  the conversation a request means: its system texts and its dialogue turns.
 */
module Encodings {
  import opened Models
  import CacheKey

  /** System texts in order, the top-level prompt first, and the remaining turns in order. */
  datatype Conversation = Conversation(system: seq<string>, turns: seq<Message>)

  function TopPrompt(r: GatewayRequest): seq<string> {
    if r.systemPrompt == "" then [] else [r.systemPrompt]
  }

  function SystemTexts(ms: seq<Message>): seq<string> {
    if ms == [] then [] else
    SystemTexts(ms[..|ms| - 1]) + if ms[|ms| - 1].role == "system" then [ms[|ms| - 1].content] else []
  }

  function Turns(ms: seq<Message>): seq<Message> {
    if ms == [] then [] else
    Turns(ms[..|ms| - 1]) + if ms[|ms| - 1].role == "system" then [] else [ms[|ms| - 1]]
  }

  function Meaning(r: GatewayRequest): Conversation {
    Conversation(TopPrompt(r) + SystemTexts(r.messages), Turns(r.messages))
  }

  /** Every message is either a system text or a turn, never both and never neither. */
  lemma {:induction false} NothingLostOrDuplicated(ms: seq<Message>)
    ensures |SystemTexts(ms)| + |Turns(ms)| == |ms|
    ensures multiset(Turns(ms)) + multiset(seq(|SystemTexts(ms)|, i requires 0 <= i < |SystemTexts(ms)| =>
              Message("system", SystemTexts(ms)[i]))) == multiset(ms)
  {
    if ms != [] {
      var before, m := ms[..|ms| - 1], ms[|ms| - 1];
      NothingLostOrDuplicated(before);
      var old' := seq(|SystemTexts(before)|, i requires 0 <= i < |SystemTexts(before)| =>
                        Message("system", SystemTexts(before)[i]));
      var new' := seq(|SystemTexts(ms)|, i requires 0 <= i < |SystemTexts(ms)| =>
                        Message("system", SystemTexts(ms)[i]));
      assert ms == before + [m];
      assert new' == old' + if m.role == "system" then [m] else [];
    }
  }

  // ---------------------------------------------------------------- Groq

  function EncodeGroq(r: GatewayRequest): seq<Message> {
    seq(|TopPrompt(r)|, _ => Message("system", r.systemPrompt)) + r.messages
  }

  method GroqMessages(r: GatewayRequest) returns (msgs: seq<Message>)
    ensures msgs == EncodeGroq(r)
  {
    msgs := [];
    if r.systemPrompt != "" {
      msgs := msgs + [Message("system", r.systemPrompt)];
    }
    ghost var top := msgs;
    for i := 0 to |r.messages|
      invariant msgs == top + r.messages[..i]
    {
      var m := r.messages[i];
      msgs := msgs + [Message(m.role, m.content)];
    }
    assert r.messages[..|r.messages|] == r.messages;
  }

  function DecodeGroq(msgs: seq<Message>): Conversation {
    Conversation(SystemTexts(msgs), Turns(msgs))
  }

  lemma {:induction false} SplitAppend(a: seq<Message>, b: seq<Message>)
    ensures SystemTexts(a + b) == SystemTexts(a) + SystemTexts(b)
    ensures Turns(a + b) == Turns(a) + Turns(b)
  {
    if b == [] {
      assert a + b == a;
    } else {
      assert (a + b)[..|a + b| - 1] == a + b[..|b| - 1];
      SplitAppend(a, b[..|b| - 1]);
    }
  }

  /** The Groq encoding keeps the conversation of every request. */
  lemma GroqKeepsConversation(r: GatewayRequest)
    ensures DecodeGroq(EncodeGroq(r)) == Meaning(r)
  {
    var top := seq(|TopPrompt(r)|, _ => Message("system", r.systemPrompt));
    SplitAppend(top, r.messages);
    if r.systemPrompt != "" {
      assert top == [Message("system", r.systemPrompt)] && top[..0] == [];
    }
  }

  // ---------------------------------------------------------------- Gemini

  datatype Content = Content(role: string, parts: seq<string>)

  datatype SystemInstruction = Absent | Present(parts: seq<string>)

  /** The URL names the model; the body carries neither max_tokens nor temperature. */
  datatype GeminiRequest = GeminiRequest(model: string, contents: seq<Content>, system: SystemInstruction)

  function GeminiRole(role: string): string { if role == "assistant" then "model" else role }

  function GeminiContents(turns: seq<Message>): seq<Content> {
    seq(|turns|, i requires 0 <= i < |turns| => Content(GeminiRole(turns[i].role), [turns[i].content]))
  }

  function EncodeGemini(r: GatewayRequest): GeminiRequest {
    var system := Meaning(r).system;
    GeminiRequest(r.model, GeminiContents(Meaning(r).turns), if system == [] then Absent else Present(system))
  }

  lemma OneMoreMessage(ms: seq<Message>, i: nat)
    requires i < |ms|
    ensures SystemTexts(ms[..i + 1]) == SystemTexts(ms[..i]) + if ms[i].role == "system" then [ms[i].content] else []
    ensures GeminiContents(Turns(ms[..i + 1])) == GeminiContents(Turns(ms[..i])) +
            if ms[i].role == "system" then [] else [Content(GeminiRole(ms[i].role), [ms[i].content])]
  {
    assert ms[..i + 1][..i] == ms[..i];
  }

  method BuildGemini(r: GatewayRequest) returns (request: GeminiRequest)
    ensures request == EncodeGemini(r)
  {
    var contents: seq<Content> := [];
    var systemParts: seq<string> := [];
    if r.systemPrompt != "" {
      systemParts := systemParts + [r.systemPrompt];
    }
    for i := 0 to |r.messages|
      invariant systemParts == TopPrompt(r) + SystemTexts(r.messages[..i])
      invariant contents == GeminiContents(Turns(r.messages[..i]))
    {
      var m := r.messages[i];
      OneMoreMessage(r.messages, i);
      if m.role == "system" {
        systemParts := systemParts + [m.content];
        continue;
      }
      var role := m.role;
      if role == "assistant" {
        role := "model";
      }
      contents := contents + [Content(role, [m.content])];
    }
    assert r.messages[..|r.messages|] == r.messages;
    request := GeminiRequest(r.model, contents, if |systemParts| > 0 then Present(systemParts) else Absent);
  }

  function Join(parts: seq<string>): string {
    if parts == [] then "" else parts[0] + Join(parts[1..])
  }

  function DecodeContent(c: Content): Message {
    Message(if c.role == "model" then "assistant" else c.role, Join(c.parts))
  }

  function DecodeGemini(g: GeminiRequest): Conversation {
    Conversation(if g.system.Absent? then [] else g.system.parts,
                 seq(|g.contents|, i requires 0 <= i < |g.contents| => DecodeContent(g.contents[i])))
  }

  /** Gemini knows neither "assistant" nor "system" as a role: its own word for the former is "model". */
  lemma GeminiRoles(r: GatewayRequest)
    ensures forall c | c in EncodeGemini(r).contents :: c.role != "assistant" && c.role != "system"
  {
    TurnsAreMessages(r.messages);
    forall c | c in EncodeGemini(r).contents ensures c.role != "assistant" && c.role != "system" {
      var turns := Turns(r.messages);
      var i :| 0 <= i < |turns| && c == Content(GeminiRole(turns[i].role), [turns[i].content]);
      assert turns[i] in turns;
      assert |"model"| != |"assistant"| && |"model"| != |"system"|;
    }
  }

  /** Without a system prompt Groq gets the messages as they are, and without any system text Gemini no instruction. */
  lemma NothingAdded(r: GatewayRequest)
    ensures r.systemPrompt == "" ==> EncodeGroq(r) == r.messages
    ensures EncodeGemini(r).system.Absent? <==>
            r.systemPrompt == "" && forall m | m in r.messages :: m.role != "system"
  {
    SystemTextsEmpty(r.messages);
  }

  lemma {:induction false} SystemTextsEmpty(ms: seq<Message>)
    ensures SystemTexts(ms) == [] <==> forall m | m in ms :: m.role != "system"
  {
    if ms != [] {
      SystemTextsEmpty(ms[..|ms| - 1]);
      assert ms == ms[..|ms| - 1] + [ms[|ms| - 1]];
    }
  }

  /** What Gemini is asked: the model it names, and the conversation. */
  lemma GeminiNamesModel(r: GatewayRequest, r': GatewayRequest)
    ensures EncodeGemini(r).model == r.model
    ensures !SaysModel(r) && !SaysModel(r') ==>
              (EncodeGemini(r) == EncodeGemini(r') <==> r.model == r'.model && Meaning(r) == Meaning(r'))
  {
    GeminiKeepsConversation(r);
    GeminiKeepsConversation(r');
  }

  predicate SaysModel(r: GatewayRequest) { exists m :: m in r.messages && m.role == "model" }

  lemma {:induction false} TurnsAreMessages(ms: seq<Message>)
    ensures forall m :: m in Turns(ms) <==> m in ms && m.role != "system"
  {
    if ms != [] {
      TurnsAreMessages(ms[..|ms| - 1]);
      assert ms == ms[..|ms| - 1] + [ms[|ms| - 1]];
    }
  }

  lemma TurnRoundTrip(m: Message)
    ensures DecodeContent(Content(GeminiRole(m.role), [m.content])) == m <==> m.role != "model"
  {
    assert Join([m.content]) == m.content + Join([]);
    assert "model" != "assistant" by {
      assert |"model"| != |"assistant"|;
    }
  }

  /** The Gemini encoding keeps the conversation exactly of the requests that do not use the role "model" themselves. */
  lemma GeminiKeepsConversation(r: GatewayRequest)
    ensures DecodeGemini(EncodeGemini(r)) == Meaning(r) <==> !SaysModel(r)
  {
    var turns := Turns(r.messages);
    var decoded := DecodeGemini(EncodeGemini(r)).turns;
    TurnsAreMessages(r.messages);
    forall i | 0 <= i < |turns|
      ensures decoded[i] == turns[i] <==> turns[i].role != "model"
    {
      TurnRoundTrip(turns[i]);
    }
    if SaysModel(r) {
      var m :| m in r.messages && m.role == "model";
      assert m.role != "system" by {
        assert |"model"| != |"system"|;
      }
      assert m in turns;
      var i :| 0 <= i < |turns| && turns[i] == m;
      assert decoded[i] != turns[i];
    } else {
      assert decoded == turns;
    }
  }

  /** For roles system, user and assistant the two encodings say the same; in general iff no role is "model". */
  lemma EncodingsAgree(r: GatewayRequest)
    ensures DecodeGroq(EncodeGroq(r)) == DecodeGemini(EncodeGemini(r)) <==> !SaysModel(r)
  {
    GroqKeepsConversation(r);
    GeminiKeepsConversation(r);
  }

  /**
    Gemini drops the sampling parameters: requests that differ only there have different cache keys
    and yet the same Gemini request.
   */
  lemma GeminiDropsSampling(sha256: string -> string, format: Float64 -> string, r: GatewayRequest,
                            maxTokens: int, temperature: Float64)
    requires CacheKey.InjectiveHash(sha256) && CacheKey.InjectiveFormat(format)
    requires r.messages != [] && Finite(r.temperature) && Finite(temperature)
    ensures var r' := r.(maxTokens := maxTokens, temperature := temperature);
            && EncodeGemini(r') == EncodeGemini(r)
            && (CacheKey.RequestHash(sha256, format, r') == CacheKey.RequestHash(sha256, format, r) <==>
                maxTokens == r.maxTokens && temperature == r.temperature)
  {
    CacheKey.KeysEqualIff(sha256, format, r.(maxTokens := maxTokens, temperature := temperature), r);
  }
}
