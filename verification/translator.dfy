/**
 * Turning what came back from upstream into the relay's answer: any 2xx status
 * becomes 200, any other status is passed on, the body is the parsed JSON or the raw
 * text under `raw`, and a failure of the call (an abort by the timer, a network
 * error) becomes 500 with the error message.
 */
module Translator {
  import opened Wrappers
  import opened Js

  /** What awaiting the upstream call produced: a status and body text, or a thrown error. */
  datatype Reply = Answered(status: int, text: string) | Failed(message: string)

  /** `r.ok` of a fetch response. */
  predicate IsOk(status: int) {
    200 <= status <= 299
  }

  /** `{ raw }`: unparseable text kept under a fallback field. */
  function RawWrapper(text: string): Value {
    Obj(map["raw" := Str(text)])
  }

  /** `JSON.parse(raw)`, or `{ raw }` when it throws; the parser is a parameter. */
  function ParseOrWrap(text: string, parse: string -> Option<Value>): (data: Value)
    ensures parse(text).Some? ==> data == parse(text).value
    ensures parse(text).None? ==> data.Obj? && data.fields.Keys == {"raw"} && data.fields["raw"] == Str(text)
  {
    match parse(text)
    case Some(v) => v
    case None => RawWrapper(text)
  }

  /** The status and JSON body the relay answers with. */
  function Translate(reply: Reply, parse: string -> Option<Value>): (r: (int, Value))
    ensures reply.Failed? ==> r == (500, ErrorObject(reply.message))
    ensures reply.Answered? ==> r.1 == ParseOrWrap(reply.text, parse)
    ensures reply.Answered? ==> (IsOk(r.0) <==> IsOk(reply.status))
    ensures reply.Answered? && r.0 != reply.status ==> IsOk(reply.status) && r.0 == 200
    ensures reply.Answered? && IsOk(reply.status) ==> r.0 == 200
  {
    match reply
    case Failed(message) => (500, ErrorObject(message))
    case Answered(status, text) => (if IsOk(status) then 200 else status, ParseOrWrap(text, parse))
  }

  /** An upstream error such as 429 reaches the caller with its status and its own body. */
  lemma UpstreamErrorPassesThrough(status: int, text: string, v: Value, parse: string -> Option<Value>)
    requires !IsOk(status) && parse(text) == Some(v)
    ensures Translate(Answered(status, text), parse) == (status, v)
  {
  }
}
