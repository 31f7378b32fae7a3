/**
 * Building the body sent upstream. The chat route forwards the caller's fields with
 * destructuring defaults (which replace only `undefined`) and spreads each optional
 * sampling field in only when it is defined; the FAQ route builds a fixed two-message
 * conversation, replacing any falsy `question` or `model`. A payload is the key-value
 * map `JSON.stringify` serialises; no key holds `undefined`, so none is dropped.
 */
module Shaper {
  import opened Js

  type Payload = map<string, Value>

  const ChatTemperature: real := 0.7
  const FaqTemperature: real := 0.2
  const SystemPrompt := "You are a concise, helpful cybersecurity assistant for anti-scam FAQs."
  const DefaultQuestion := "H\U{1B0}\U{1EDB}ng d\U{1EAB}n an to\U{E0}n t\U{E0}i kho\U{1EA3}n ng\U{E2}n h\U{E0}ng?"

  /** The fields every chat payload has. */
  const BaseKeys: set<string> := {"model", "messages", "temperature"}
  /** The order in which the chat route spreads the optional sampling fields. */
  const SamplingOrder: seq<string> := ["max_tokens", "top_p", "presence_penalty", "frequency_penalty", "stop"]
  /** The optional sampling fields, forwarded only when the caller gave them. */
  const SamplingKeys: set<string> := set k | k in SamplingOrder

  /** A destructuring default `{ key = d }`: it replaces `undefined` and nothing else. */
  function OrIfUndefined(v: Value, d: Value): Value {
    if v.Undefined? then d else v
  }

  /** No key of `m` holds `undefined`. */
  ghost predicate AllDefined(m: map<string, Value>) {
    forall k | k in m :: !m[k].Undefined?
  }

  /** `...(v !== undefined ? { key: v } : {})`. */
  function SpreadIfDefined(key: string, v: Value): map<string, Value> {
    if v.Undefined? then map[] else map[key := v]
  }

  /** The spreads for `keys`, one after another, each taking its value from the body. */
  function SpreadAll(body: Value, keys: seq<string>): (m: map<string, Value>)
    ensures m.Keys == (set k | k in keys && !Destructure(body, k).Undefined?)
    ensures forall k | k in m :: m[k] == Destructure(body, k)
    ensures AllDefined(m)
  {
    if keys == [] then map[]
    else
      var last := keys[|keys| - 1];
      SpreadAll(body, keys[..|keys| - 1]) + SpreadIfDefined(last, Destructure(body, last))
  }


  /** The body of a `/api/chat` call forwarded upstream. */
  function ChatPayload(defaultModel: string, body: Value): (p: Payload)
    ensures "model" in p && "messages" in p && "temperature" in p
    ensures AllDefined(p)
  {
    var base := map[
      "model" := OrIfUndefined(Destructure(body, "model"), Str(defaultModel)),
      "messages" := OrIfUndefined(Destructure(body, "messages"), Arr([])),
      "temperature" := OrIfUndefined(Destructure(body, "temperature"), Num(ChatTemperature))];
    assert AllDefined(base);
    base + SpreadAll(body, SamplingOrder)
  }

  lemma SamplingOrderKeys()
    ensures forall k :: k in SamplingOrder <==> k in SamplingKeys
    ensures BaseKeys !! SamplingKeys
  {
  }

  /** The payload has the three base fields and exactly the sampling fields the caller defined. */
  lemma ChatPayloadKeys(defaultModel: string, body: Value)
    ensures ChatPayload(defaultModel, body).Keys
         == BaseKeys + (set k | k in SamplingKeys && !Destructure(body, k).Undefined?)
  {
    SamplingOrderKeys();
  }

  /** Every field the caller defined and the payload carries is forwarded as it came; none is `undefined`. */
  lemma ChatForwardsDefinedFields(defaultModel: string, body: Value)
    ensures AllDefined(ChatPayload(defaultModel, body))
    ensures forall k | k in ChatPayload(defaultModel, body) && !Destructure(body, k).Undefined?
      :: ChatPayload(defaultModel, body)[k] == Destructure(body, k)
  {
    SamplingOrderKeys();
  }

  /** The defaults of the base fields replace `undefined` only. */
  lemma ChatDefaults(defaultModel: string, body: Value)
    ensures Destructure(body, "model").Undefined? ==> ChatPayload(defaultModel, body)["model"] == Str(defaultModel)
    ensures Destructure(body, "messages").Undefined? ==> ChatPayload(defaultModel, body)["messages"] == Arr([])
    ensures Destructure(body, "temperature").Undefined?
      ==> ChatPayload(defaultModel, body)["temperature"] == Num(ChatTemperature)
  {
    SamplingOrderKeys();
  }

  /**
   * Only the eight recognised fields reach upstream: two bodies that agree on them
   * give the same payload, whatever else they carry.
   */
  lemma ChatIgnoresOtherFields(defaultModel: string, b1: Value, b2: Value)
    requires forall k | k in BaseKeys + SamplingKeys :: Destructure(b1, k) == Destructure(b2, k)
    ensures ChatPayload(defaultModel, b1) == ChatPayload(defaultModel, b2)
  {
    SamplingOrderKeys();
    SpreadAllAgrees(b1, b2, SamplingOrder);
    assert "model" in BaseKeys && "messages" in BaseKeys && "temperature" in BaseKeys;
  }

  lemma {:induction false} SpreadAllAgrees(b1: Value, b2: Value, keys: seq<string>)
    requires forall k | k in keys :: Destructure(b1, k) == Destructure(b2, k)
    ensures SpreadAll(b1, keys) == SpreadAll(b2, keys)
  {
    if keys != [] {
      assert keys[|keys| - 1] in keys;
      SpreadAllAgrees(b1, b2, keys[..|keys| - 1]);
    }
  }

  /** Presence, not truthiness: a sampling field sent as `0` is forwarded as `0`. */
  lemma ZeroSamplingValueIsKept(defaultModel: string, body: Value, key: string)
    requires key in SamplingKeys && Destructure(body, key) == Num(0.0)
    ensures key in ChatPayload(defaultModel, body)
    ensures ChatPayload(defaultModel, body)[key] == Num(0.0)
  {
  }

  /** A body with only `messages` yields the model default, those messages and 0.7, and nothing else. */
  lemma MessagesOnlyChat(defaultModel: string, messages: Value)
    requires !messages.Undefined?
    ensures ChatPayload(defaultModel, Obj(map["messages" := messages]))
         == map["model" := Str(defaultModel), "messages" := messages, "temperature" := Num(ChatTemperature)]
  {
    var body := Obj(map["messages" := messages]);
    var p := ChatPayload(defaultModel, body);
    forall k | k in SamplingKeys ensures Destructure(body, k).Undefined? {
      assert k != "messages";
    }
    assert Destructure(body, "model").Undefined? && Destructure(body, "temperature").Undefined?;
    assert p.Keys == BaseKeys;
  }

  /** One message of the conversation: `{ role, content }`. */
  function Message(role: string, content: Value): Value {
    Obj(map["role" := Str(role), "content" := content])
  }

  /** The body of an `/api/ai-faq` call forwarded upstream. */
  function FaqPayload(defaultModel: string, body: Value): (p: Payload)
    ensures p.Keys == BaseKeys
    ensures p["temperature"] == Num(FaqTemperature)
    ensures Truthy(Destructure(body, "model")) ==> p["model"] == Destructure(body, "model")
    ensures !Truthy(Destructure(body, "model")) ==> p["model"] == Str(defaultModel)
    ensures p["messages"].Arr? && |p["messages"].items| == 2
    ensures p["messages"].items[0] == Message("system", Str(SystemPrompt))
    ensures Truthy(Destructure(body, "question"))
      ==> p["messages"].items[1] == Message("user", Destructure(body, "question"))
    ensures !Truthy(Destructure(body, "question"))
      ==> p["messages"].items[1] == Message("user", Str(DefaultQuestion))
  {
    var question := Destructure(body, "question");
    var usedModel := Or(Destructure(body, "model"), Str(defaultModel));
    map[
      "model" := usedModel,
      "messages" := Arr([
        Message("system", Str(SystemPrompt)),
        Message("user", Or(question, Str(DefaultQuestion)))]),
      "temperature" := Num(FaqTemperature)]
  }

  /** The FAQ payload depends on `question` and `model` alone. */
  lemma FaqIgnoresOtherFields(defaultModel: string, b1: Value, b2: Value)
    requires Destructure(b1, "question") == Destructure(b2, "question")
    requires Destructure(b1, "model") == Destructure(b2, "model")
    ensures FaqPayload(defaultModel, b1) == FaqPayload(defaultModel, b2)
  {
  }

  /**
   * The two routes default differently: an empty `model` string reaches upstream
   * unchanged from the chat route but is replaced by the default on the FAQ route.
   */
  lemma EmptyModelDefaultsOnlyOnFaq(defaultModel: string, body: Value)
    requires Destructure(body, "model") == Str("")
    ensures ChatPayload(defaultModel, body)["model"] == Str("")
    ensures FaqPayload(defaultModel, body)["model"] == Str(defaultModel)
  {
  }
}
