/** The function-call interpreter: decides whether one generated response is
    a structured call or a plain reply (app.py:115-118). */
module Interpreter {
  import opened Wrappers
  import opened JsonValue

  const FunctionNameKey: string := "function_name"
  const ArgumentsKey: string := "arguments"

  /** A structured call as extracted from the decoded response. Both fields
      are arbitrary JSON values: nothing checks their shape at this point. */
  datatype Call = Call(name: Json, arguments: Json)

  /** A decoded value counts as a call when it is a mapping holding both keys. */
  predicate IsCallShaped(v: Json) {
    v.JObj? && FunctionNameKey in v.fields && ArgumentsKey in v.fields
  }

  /** Classifies the outcome of decoding a response (None stands for a
      decoding failure). A call is returned exactly for a call-shaped mapping,
      and it carries the two fields of that mapping unchanged. */
  function Classify(parsed: Option<Json>): (r: Option<Call>)
    ensures r.Some? <==> parsed.Some? && IsCallShaped(parsed.value)
    ensures r.Some? ==> r.value.name == parsed.value.fields[FunctionNameKey]
    ensures r.Some? ==> r.value.arguments == parsed.value.fields[ArgumentsKey]
  {
    match parsed
    case Some(JObj(fields)) =>
      if FunctionNameKey in fields && ArgumentsKey in fields then
        Some(Call(fields[FunctionNameKey], fields[ArgumentsKey]))
      else
        None
    case _ => None
  }

  /** The mapping a model emits for a call, possibly with further keys
      besides the two the interpreter looks at. */
  function Render(c: Call, extra: map<string, Json>): (v: Json)
    ensures v.JObj? && v.fields.Keys == extra.Keys + {FunctionNameKey, ArgumentsKey}
  {
    JObj(extra[FunctionNameKey := c.name][ArgumentsKey := c.arguments])
  }

  /** Round trip: whatever else the mapping holds, the interpreter recovers
      exactly the rendered name and arguments. */
  lemma ClassifyRender(c: Call, extra: map<string, Json>)
    ensures Classify(Some(Render(c, extra))) == Some(c)
  {
  }

  /** A decoding failure, a scalar, a list, or a mapping that lacks either
      key is a plain reply. */
  lemma PlainReplies(parsed: Option<Json>)
    requires parsed.None? || !parsed.value.JObj?
          || FunctionNameKey !in parsed.value.fields
          || ArgumentsKey !in parsed.value.fields
    ensures Classify(parsed) == None
  {
  }
}
