# Movies bot: function-call orchestration loop

This project models the core of a chat agent that answers movie questions
(`app.py`). Each user message starts a *turn*. In a turn the language model's
response is read as either a **structured call** or a **plain reply**. A
structured call is a JSON mapping with a `function_name` and an `arguments`
key. It is dispatched by name to one of four movie capabilities:
`get_now_playing_movies`, `get_showtimes`, `get_reviews` and `buy_ticket`.
The capability's text result is appended to the conversation history as a
`system` message. The model's next response is then appended as an
`assistant` message and classified in turn. The first response that is not a
call ends the turn.

Modules, leaf first:

- `Wrappers` (`wrappers.dfy`): `Option` and `Result`.
- `JsonValue` (`json.dfy`): the decoded JSON value.
- `Interpreter` (`interpreter.dfy`): `Classify`, the test of whether a decoded
  response is a call, and its round trip with `Render`.
- `Registry` (`registry.dfy`): `Dispatch`, the choice of capability by name
  with argument defaults, and `Run`, which invokes the capability.
- `Orchestration` (`orchestration.dfy`): messages and the session's initial
  history (`OnChatStart`). It holds the turn as a specification function
  (`TurnOf`, built on `Loop`) and as the imperative loop the source runs
  (`OnMessage`, a `while` loop proved equal to `TurnOf`). It also holds the
  lemmas that give the turn's shape.

The collaborators the loop calls are parameters, collected in
`Orchestration.Env`:

- `parse` stands for JSON decoding. `None` means a decoding error.
- `show` stands for the host's text rendering of a function name that is not
  a string. It is used in the unknown-function message.
- `caps` are the four capabilities, as uninterpreted functions returning text.

The language model is a finite oracle. It is the list of responses the model
generates in this turn, in order. The loop is deterministic, so for any
generator this list is well defined. Quantifying over all lists therefore
covers every generator. When the model keeps calling after the list is used
up, the turn ends with `OracleExhausted`. This stands for the source going
on to generate, since it has no iteration cap.

Three behaviours of the code are easy to miss:

- **A first plain reply is not recorded.** The code never appends the first
  response (app.py:109, app.py:157-160). Each follow-up response is appended
  as `assistant` right after it is generated, before it is classified
  (app.py:149-156). So a reply is in the history exactly when at least one
  call came before it (`ReplyRecordedOnlyAfterCall`).
- **Non-mapping arguments crash the turn.** In the code, `get_showtimes`,
  `get_reviews` and `buy_ticket` call `.get` on `arguments`. That raises an attribute error
  for any non-mapping. The handler catches only decoding errors
  (app.py:158), so the error ends the turn. This is `Failed`. The history
  keeps what was appended before the error.
- **Argument values are passed through unchanged.** Capabilities receive them
  as decoded JSON values, not strings. The default `""` applies only to
  missing keys.

## Model

| member | source | states |
|---|---|---|
| `Interpreter.Classify` | app.py:115-118 | a decoded response is a call exactly when it is a mapping holding both `function_name` and `arguments`; the call carries those two values unchanged |
| `Interpreter.Render` | app.py:59-63 | the call mapping the model is told to emit holds both keys, plus any extra keys |
| `Interpreter.ClassifyRender` | app.py:115-118 | round trip: classifying a rendered call recovers exactly its name and arguments, whatever extra keys the mapping has |
| `Interpreter.PlainReplies` | app.py:115-116 | a decoding failure, a scalar, a list or a mapping missing either key is a plain reply |
| `Registry.Arg` | app.py:127-128 | a named argument is the mapping's value when present and the empty string when missing |
| `Registry.Dispatch` | app.py:124-141 | the name alone selects the capability; an unrecognised name gives `Unknown` with that name for any arguments; the three argument readers fail with an attribute error exactly when the arguments are not a mapping |
| `Registry.UnknownText` | app.py:140-141 | the unknown-function text starts with `Unknown function: ` and, for a string name, is that prefix followed by the name |
| `Registry.Request` | app.py:49-57 | the call for a known capability names a known function; for an unknown one it carries the given name |
| `Registry.DispatchRequest` | app.py:124-141 | round trip: dispatching the call built from a capability's named parameters selects that capability with the same argument values |
| `Registry.NowPlayingIgnoresArguments` | app.py:124-125 | `get_now_playing_movies` is selected whatever `arguments` holds, mapping or not |
| `Registry.UnknownInvokesNoCapability` | app.py:140-141 | an unrecognised name yields a result that does not depend on any capability and starts with `Unknown function: ` |
| `Registry.CapabilityInvocation` | app.py:124-141 | each known name invokes its own capability: `get_now_playing_movies()`, `get_showtimes(title, location)`, `get_reviews(movie_id)`, `buy_ticket(theater, movie, showtime)`, each argument taken from the mapping or `""` when missing |
| `Registry.ArgumentDefaults` | app.py:126-139 | `get_showtimes(title, location)`, `get_reviews(movie_id)` and `buy_ticket(theater, movie, showtime)` select capabilities whose fields come from the mapping, or are `""` when missing |
| `Orchestration.OnChatStart` | app.py:83-87 | a new session's history is exactly one `system` message holding the system prompt |
| `Orchestration.StepOf` | app.py:113-141 | a response is a reply exactly when it does not classify as a call, and a crash exactly when it is a call whose dispatch fails; a dispatched step carries the capability `Dispatch` selected, a crash the error it raised |
| `Orchestration.Loop` | app.py:113-160 | the loop only appends: the history it starts from is an unchanged prefix of the one it leaves |
| `Orchestration.TurnOf` | app.py:105-109 | a turn keeps the earlier history unchanged and puts exactly one `user` message with the incoming content right after it |
| `Orchestration.LeadingCalls` | app.py:113-156 | counts the leading responses that are dispatched calls; the response after them, if any, is not one |
| `Orchestration.LoopAppends` | app.py:113-160 | the loop leaves its starting history followed by the appended exchanges, and ends as the first response that is not a dispatched call decides |
| `Orchestration.TurnAppends` | app.py:105-160 | a turn's history is the old history, the user's message, then the appended exchanges |
| `Orchestration.AppendedLength` | app.py:146-155 | k dispatched calls append exactly 2k messages, one fewer when the oracle ends right after the last call |
| `Orchestration.AppendedAt` | app.py:146-155 | each dispatch appends, in order, `system` with the capability's result, then `assistant` with the next response |
| `Orchestration.TurnShape` | app.py:105-160 | in the whole turn, the j-th call's result sits at offset 1 + 2j after the old history and the next response at offset 2 + 2j |
| `Orchestration.TurnLength` | app.py:105-160 | with k leading calls followed by a non-call, the history grows by exactly 1 + 2k messages |
| `Orchestration.TurnOutcome` | app.py:113-160 | the turn ends with the first non-call response as reply, with the dispatch error, or with the oracle used up when every response was a call |
| `Orchestration.AppendedPrefix` | app.py:113-160 | the exchanges appended depend only on the responses up to the first non-call |
| `Orchestration.LaterResponsesUnused` | app.py:113-160 | the turn ends after k + 1 classifications: later responses change nothing |
| `Orchestration.FirstReplyAddsOnlyUser` | app.py:107-160 | a first response that is not a call adds only the `user` message and becomes the reply |
| `Orchestration.OneCallThenReply` | app.py:107-157 | one call then a plain reply adds exactly `user`, `system(result)`, `assistant(reply)`, in that order |
| `Orchestration.ReplyRecordedOnlyAfterCall` | app.py:146-160 | the final reply is the last history entry exactly when at least one call preceded it |
| `Orchestration.ShowtimesExchange` | app.py:83-160 | a showtimes call for zip 10001 followed by a summary leaves exactly system prompt, user, system(result), assistant(summary), with the summary as the reply |
| `Orchestration.OnMessage` | app.py:103-162 | the in-place loop over the oracle's responses computes exactly `TurnOf` |
| `Orchestration.SessionStartsWithSystemPrompt` | app.py:83-162 | `Session` starts from `OnChatStart` and feeds each turn's history into the next turn, whether that turn ended `Replied`, `Failed` or `OracleExhausted`; after any number of turns the history still starts with the system prompt and holds at least one message per turn besides it |

## Left out

- The chat UI and session plumbing are left out: creating, sending, streaming and updating messages, and the session store's get and set (app.py:87, app.py:91-99, app.py:154, app.py:162). The session store is the history passed into and returned from a turn. The model does not capture that every generated response, call text included, is shown to the user.
- The streaming model completion and the tracing decorators are network and foreign calls. The model replaces them with the oracle list of responses.
- The capability implementations are not part of this model. They are uninterpreted functions from JSON values to text. Any state they keep between calls, such as a booking, is not modelled.
- JSON decoding is the `parse` parameter. Only a decoding error is caught; any other exception it might raise is not modelled.
- Python's text rendering of a non-string function name is the `show` parameter. Only the rendering of a string name is fixed.
- The prose of the system prompt is left out. `SystemPrompt` is an opaque constant.
- Loading environment settings and the generation settings (model, temperature, token limit) are left out. Debug printing is left out too, although it can end a turn (next line).
- Strings holding lone surrogates (a decoded `"\ud800"`) cannot be represented, because a Dafny `string` cannot hold them. Printing such a function name (app.py:122) or an unknown-function text built from it (app.py:142) raises an encoding error. Nothing catches that error, so the turn ends before the `system` append (app.py:146) and skips the session write (app.py:162), the way `Failed` does. The model has no outcome for this case.
- Exceptions raised by a capability itself, and model-completion failures, are not modelled. A decoding error raised inside a capability would be caught (app.py:158), so the turn would end by `break` with the session write still done (app.py:162), not as `Failed`. A model-completion failure at app.py:149 would end the turn after the capability's `system` result had been appended (app.py:146), whereas `Failed` keeps the history from before the failing dispatch.
- Floats are exact reals: binary float rounding (`0.1` and `0.10000000000000001` decode to the same float), `NaN`, `Infinity`, `-Infinity` and overflow to infinity are not modelled. They only pass through to `show` and the capabilities.
- The order of a mapping's keys is not modelled: `JObj` is a map, so two responses that differ only in key order are the same value to `parse`, `show` and the capabilities.
- When a turn fails, the code skips the final session write (app.py:162). Appends already made still persist, because the list is shared with the session store. The exception is when the store had no history and the default empty list was used. This case is not modelled separately.
- No iteration cap: the iteration bound comes from the finite oracle. A model that never stops calling, on which the source loops forever, appears as `OracleExhausted` at the end of the oracle.
