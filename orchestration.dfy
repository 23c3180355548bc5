/** The orchestration loop of one chat turn (app.py:103-162) and the session
    initialiser (app.py:83-87). The conversation history is a sequence of
    messages that the loop only ever extends at its end. */
module Orchestration {
  import opened Wrappers
  import opened JsonValue
  import opened Interpreter
  import opened Registry

  datatype Role = System | User | Assistant

  datatype Message = Message(role: Role, content: string)

  /** The instruction text the session starts with; its prose is not modelled. */
  const SystemPrompt: string

  /** The collaborators the loop calls but that are not modelled:
      `parse` is JSON decoding (None stands for a decoding error),
      `show` is the host's rendering of a non-string function name,
      `caps` are the movie capabilities. */
  datatype Env = Env(parse: string -> Option<Json>, show: Json -> string, caps: Capabilities)

  /** A new session's history holds exactly the system instruction. */
  function OnChatStart(): (h: seq<Message>)
    ensures |h| == 1 && h[0].role == System && h[0].content == SystemPrompt
  {
    [Message(System, SystemPrompt)]
  }

  /** What the loop does with one generated response. */
  datatype Step = Reply | Crash(error: DispatchError) | Dispatched(cap: Cap)

  function StepOf(env: Env, response: string): (s: Step)
    ensures s.Reply? <==> Classify(env.parse(response)).None?
    ensures s.Crash? <==> Classify(env.parse(response)).Some? && Dispatch(Classify(env.parse(response)).value).Err?
    ensures s.Dispatched? ==> Dispatch(Classify(env.parse(response)).value) == Ok(s.cap)
    ensures s.Crash? ==> Dispatch(Classify(env.parse(response)).value) == Err(s.error)
  {
    match Classify(env.parse(response))
    case None => Reply
    case Some(call) =>
      match Dispatch(call)
      case Err(e) => Crash(e)
      case Ok(cap) => Dispatched(cap)
  }

  /** How a turn ends: with a plain reply, with the uncaught attribute error,
      or with the response oracle used up while the model is still calling
      capabilities (the source would go on generating). */
  datatype Outcome = Replied(reply: string) | Failed(error: DispatchError) | OracleExhausted

  datatype Turn = Turn(history: seq<Message>, outcome: Outcome)

  /** The loop, from the point where `response` has just been generated and
      `rest` are the responses the model will generate afterwards. It only
      ever appends: the history it starts from is left as it was. */
  function Loop(env: Env, h: seq<Message>, response: string, rest: seq<string>): (t: Turn)
    ensures |h| <= |t.history| && t.history[..|h|] == h
    decreases |rest|
  {
    match StepOf(env, response)
    case Reply => Turn(h, Replied(response))
    case Crash(e) => Turn(h, Failed(e))
    case Dispatched(cap) =>
      var h' := h + [Message(System, Run(env.caps, env.show, cap))];
      if rest == [] then Turn(h', OracleExhausted)
      else
        var h2 := h' + [Message(Assistant, rest[0])];
        var t := Loop(env, h2, rest[0], rest[1..]);
        assert t.history[..|h|] == t.history[..|h2|][..|h|];
        t
  }

  /** One turn: the user's message is appended after the existing history,
      then the loop runs over the responses the model generates in this turn,
      in order. */
  function TurnOf(env: Env, history: seq<Message>, content: string, responses: seq<string>): (t: Turn)
    ensures |history| < |t.history| && t.history[..|history|] == history
    ensures t.history[|history|] == Message(User, content)
  {
    var h := history + [Message(User, content)];
    if responses == [] then Turn(h, OracleExhausted)
    else
      var t := Loop(env, h, responses[0], responses[1..]);
      assert t.history[..|history|] == t.history[..|h|][..|history|];
      assert t.history[|history|] == t.history[..|h|][|history|];
      t
  }

  /** The text a dispatched response's capability returns. */
  function ResultOf(env: Env, response: string): string
    requires StepOf(env, response).Dispatched?
  {
    Run(env.caps, env.show, StepOf(env, response).cap)
  }

  /** The number of leading responses that are dispatched calls. */
  function LeadingCalls(env: Env, rs: seq<string>): (k: nat)
    ensures k <= |rs|
    ensures forall j :: 0 <= j < k ==> StepOf(env, rs[j]).Dispatched?
    ensures k < |rs| ==> !StepOf(env, rs[k]).Dispatched?
    decreases |rs|
  {
    if rs == [] || !StepOf(env, rs[0]).Dispatched? then 0 else 1 + LeadingCalls(env, rs[1..])
  }

  /** The outcome decided by the first response that is not a dispatched call. */
  function EndOf(env: Env, rs: seq<string>, k: nat): Outcome
    requires k <= |rs|
  {
    if k == |rs| then OracleExhausted
    else match StepOf(env, rs[k])
      case Reply => Replied(rs[k])
      case Crash(e) => Failed(e)
      case Dispatched(_) => OracleExhausted
  }

  /** The messages a turn adds after the user's message, given the responses
      the model generates: each leading call contributes its result as a
      system message and, when there is one, the next response as an
      assistant message. */
  function Appended(env: Env, rs: seq<string>): seq<Message>
    decreases |rs|
  {
    if rs == [] || !StepOf(env, rs[0]).Dispatched? then []
    else if |rs| == 1 then [Message(System, ResultOf(env, rs[0]))]
    else [Message(System, ResultOf(env, rs[0])), Message(Assistant, rs[1])] + Appended(env, rs[1..])
  }

  lemma {:induction false} LoopAppends(env: Env, h: seq<Message>, response: string, rest: seq<string>)
    ensures Loop(env, h, response, rest) == Turn(
      h + Appended(env, [response] + rest),
      EndOf(env, [response] + rest, LeadingCalls(env, [response] + rest)))
    decreases |rest|
  {
    var rs := [response] + rest;
    assert rs[0] == response && rs[1..] == rest;
    if StepOf(env, response).Dispatched? && rest != [] {
      var h2 := h + [Message(System, ResultOf(env, response)), Message(Assistant, rest[0])];
      LoopAppends(env, h2, rest[0], rest[1..]);
      assert [rest[0]] + rest[1..] == rest;
      var k := LeadingCalls(env, rs);
      assert LeadingCalls(env, rest) == k - 1;
      assert EndOf(env, rest, k - 1) == EndOf(env, rs, k) by {
        if k < |rs| { assert rs[k] == rest[k - 1]; }
      }
      assert h + [Message(System, ResultOf(env, response))] + [Message(Assistant, rest[0])] == h2;
      assert h2 + Appended(env, rest) == h + Appended(env, rs);
    }
  }

  /** A turn is its user's message followed by the appended exchanges, and
      ends as the first response that is not a dispatched call decides. */
  lemma TurnAppends(env: Env, history: seq<Message>, content: string, responses: seq<string>)
    ensures TurnOf(env, history, content, responses) == Turn(
      history + [Message(User, content)] + Appended(env, responses),
      EndOf(env, responses, LeadingCalls(env, responses)))
  {
    if responses != [] {
      LoopAppends(env, history + [Message(User, content)], responses[0], responses[1..]);
      assert [responses[0]] + responses[1..] == responses;
    }
  }

  /** k leading calls append 2k messages, one fewer when the oracle runs out
      right after the last call. */
  lemma {:induction false} AppendedLength(env: Env, rs: seq<string>)
    ensures var k := LeadingCalls(env, rs);
      |Appended(env, rs)| == 2 * k - (if 0 < k == |rs| then 1 else 0)
    decreases |rs|
  {
    if rs != [] && StepOf(env, rs[0]).Dispatched? && |rs| > 1 {
      AppendedLength(env, rs[1..]);
    }
  }

  /** Position 2j of the appended messages is the system result of the j-th
      call, and position 2j + 1 is the response generated after it. */
  lemma {:induction false} AppendedAt(env: Env, rs: seq<string>, j: nat)
    requires j < LeadingCalls(env, rs)
    ensures 2 * j < |Appended(env, rs)|
    ensures Appended(env, rs)[2 * j] == Message(System, ResultOf(env, rs[j]))
    ensures j + 1 < |rs| ==>
      (2 * j + 1 < |Appended(env, rs)| && Appended(env, rs)[2 * j + 1] == Message(Assistant, rs[j + 1]))
    decreases |rs|
  {
    if j > 0 {
      AppendedAt(env, rs[1..], j - 1);
      assert rs[1..][j - 1] == rs[j];
    }
  }

  /** The shape of a whole turn, by the number k of leading calls among the
      responses: after the user's message come k system results, each
      followed by the next response as an assistant message; the turn adds
      1 + 2k messages, one fewer when the oracle ran out after a call. */
  lemma TurnShape(env: Env, history: seq<Message>, content: string, responses: seq<string>, j: nat)
    requires j < LeadingCalls(env, responses)
    ensures var k := LeadingCalls(env, responses);
      var t := TurnOf(env, history, content, responses);
      && |t.history| == |history| + 1 + 2 * k - (if 0 < k == |responses| then 1 else 0)
      && t.history[|history| + 1 + 2 * j] == Message(System, ResultOf(env, responses[j]))
      && (j + 1 < |responses| ==> t.history[|history| + 2 + 2 * j] == Message(Assistant, responses[j + 1]))
  {
    TurnAppends(env, history, content, responses);
    AppendedLength(env, responses);
    AppendedAt(env, responses, j);
  }

  lemma TurnLength(env: Env, history: seq<Message>, content: string, responses: seq<string>)
    ensures var k := LeadingCalls(env, responses);
      |TurnOf(env, history, content, responses).history|
        == |history| + 1 + 2 * k - (if 0 < k == |responses| then 1 else 0)
  {
    TurnAppends(env, history, content, responses);
    AppendedLength(env, responses);
  }

  /** How the turn ends: with the first response that is not a dispatched
      call (a plain reply or a failed dispatch), or with the oracle used up. */
  lemma TurnOutcome(env: Env, history: seq<Message>, content: string, responses: seq<string>)
    ensures var k := LeadingCalls(env, responses);
      var o := TurnOf(env, history, content, responses).outcome;
      && (k == |responses| ==> o == OracleExhausted)
      && (k < |responses| && StepOf(env, responses[k]).Reply? ==> o == Replied(responses[k]))
      && (k < |responses| && StepOf(env, responses[k]).Crash? ==> o == Failed(StepOf(env, responses[k]).error))
  {
    TurnAppends(env, history, content, responses);
  }

  /** Responses after the first one that is not a dispatched call are never
      consulted: the turn has ended after k + 1 classifications. */
  lemma {:induction false} AppendedPrefix(env: Env, rs: seq<string>, n: nat)
    requires LeadingCalls(env, rs) < n <= |rs|
    ensures Appended(env, rs) == Appended(env, rs[..n])
    ensures LeadingCalls(env, rs) == LeadingCalls(env, rs[..n])
    decreases |rs|
  {
    assert rs[..n][0] == rs[0];
    if StepOf(env, rs[0]).Dispatched? {
      assert rs[..n][1..] == rs[1..][..n - 1];
      AppendedPrefix(env, rs[1..], n - 1);
      if n > 1 { assert rs[..n][1] == rs[1]; }
    }
  }

  lemma LaterResponsesUnused(env: Env, history: seq<Message>, content: string, responses: seq<string>)
    requires LeadingCalls(env, responses) < |responses|
    ensures var k := LeadingCalls(env, responses);
      TurnOf(env, history, content, responses) == TurnOf(env, history, content, responses[..k + 1])
  {
    var k := LeadingCalls(env, responses);
    AppendedPrefix(env, responses, k + 1);
    TurnAppends(env, history, content, responses);
    TurnAppends(env, history, content, responses[..k + 1]);
    assert responses[..k + 1][k] == responses[k];
  }

  /** A first response that is a plain reply ends the turn at once: only the
      user's message is added, and the reply itself is not recorded. */
  lemma FirstReplyAddsOnlyUser(env: Env, history: seq<Message>, content: string, responses: seq<string>)
    requires responses != [] && StepOf(env, responses[0]).Reply?
    ensures TurnOf(env, history, content, responses) == Turn(history + [Message(User, content)], Replied(responses[0]))
  {
  }

  /** One call followed by a plain reply adds exactly the user's message, the
      capability's result as a system message and the reply as an assistant
      message, in that order. */
  lemma OneCallThenReply(env: Env, history: seq<Message>, content: string, call: string, reply: string)
    requires StepOf(env, call).Dispatched? && StepOf(env, reply).Reply?
    ensures TurnOf(env, history, content, [call, reply]) == Turn(
      history + [Message(User, content), Message(System, ResultOf(env, call)), Message(Assistant, reply)],
      Replied(reply))
  {
    TurnAppends(env, history, content, [call, reply]);
    assert [call, reply][1..] == [reply];
    assert LeadingCalls(env, [reply]) == 0;
  }

  /** A plain reply is recorded in the history exactly when it was generated
      after at least one call; a first-response reply is only shown. */
  lemma ReplyRecordedOnlyAfterCall(env: Env, history: seq<Message>, content: string, responses: seq<string>)
    requires TurnOf(env, history, content, responses).outcome.Replied?
    ensures var t := TurnOf(env, history, content, responses);
      t.history[|t.history| - 1] == Message(Assistant, t.outcome.reply) <==> 0 < LeadingCalls(env, responses)
  {
    TurnAppends(env, history, content, responses);
    TurnOutcome(env, history, content, responses);
    TurnLength(env, history, content, responses);
    var k := LeadingCalls(env, responses);
    var t := TurnOf(env, history, content, responses);
    if k > 0 {
      TurnShape(env, history, content, responses, k - 1);
    }
  }

  /** The showtimes exchange: the model answers the user's question with a
      call of `get_showtimes` for zip code 10001 and then with a plain summary;
      the session then holds the instruction, the question, the capability's
      result and the summary, and the summary is the visible reply. */
  lemma ShowtimesExchange(env: Env, question: string, callText: string, summary: string)
    requires env.parse(callText) == Some(JObj(map[
      "function_name" := JStr("get_showtimes"),
      "arguments" := JObj(map["title" := JStr(""), "location" := JStr("10001")])]))
    requires env.parse(summary).None?
    ensures TurnOf(env, OnChatStart(), question, [callText, summary]) == Turn(
      [Message(System, SystemPrompt), Message(User, question),
       Message(System, env.caps.showtimes(JStr(""), JStr("10001"))), Message(Assistant, summary)],
      Replied(summary))
  {
    assert "function_name" != "arguments" && "title" != "location";
    assert StepOf(env, callText) == Dispatched(Showtimes(JStr(""), JStr("10001")));
    OneCallThenReply(env, OnChatStart(), question, callText, summary);
  }

  /** The loop as the source runs it: the history is extended in place while
      the responses of the model are consumed one by one. */
  method OnMessage(env: Env, history: seq<Message>, content: string, responses: seq<string>) returns (t: Turn)
    ensures t == TurnOf(env, history, content, responses)
  {
    var h := history + [Message(User, content)];
    if responses == [] {
      return Turn(h, OracleExhausted);
    }
    var response := responses[0];
    var next := 1;
    while true
      invariant 1 <= next <= |responses|
      invariant response == responses[next - 1]
      invariant Loop(env, h, response, responses[next..]) == TurnOf(env, history, content, responses)
      decreases |responses| - next
    {
      var call := Classify(env.parse(response));
      if call.None? {
        return Turn(h, Replied(response));
      }
      var cap := Dispatch(call.value);
      if cap.Err? {
        return Turn(h, Failed(cap.error));
      }
      var result := Run(env.caps, env.show, cap.value);
      h := h + [Message(System, result)];
      if next == |responses| {
        return Turn(h, OracleExhausted);
      }
      assert responses[next..][1..] == responses[next + 1..];
      response := responses[next];
      next := next + 1;
      h := h + [Message(Assistant, response)];
    }
  }

  /** A session: the initial history followed by turns, each given by the
      user's message and the responses the model generates in that turn. */
  function Session(env: Env, turns: seq<(string, seq<string>)>): (h: seq<Message>)
    decreases |turns|
  {
    if turns == [] then OnChatStart()
    else
      var last := turns[|turns| - 1];
      TurnOf(env, Session(env, turns[..|turns| - 1]), last.0, last.1).history
  }

  /** However many turns have run, and however they ended, the history still
      starts with the system instruction and holds at least one message per
      turn besides it. */
  lemma {:induction false} SessionStartsWithSystemPrompt(env: Env, turns: seq<(string, seq<string>)>)
    ensures var h := Session(env, turns);
      |h| >= 1 + |turns| && h[0] == Message(System, SystemPrompt)
    decreases |turns|
  {
    if turns != [] {
      var prefix := turns[..|turns| - 1];
      var last := turns[|turns| - 1];
      SessionStartsWithSystemPrompt(env, prefix);
      var before := Session(env, prefix);
      var after := TurnOf(env, before, last.0, last.1).history;
      assert after[0] == after[..|before|][0];
    }
  }
}
