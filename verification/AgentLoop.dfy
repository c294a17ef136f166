/** The runtime agent: the tool loop of one model and the failover over models. */
module AgentLoop {
  import opened Failover
  import opened Options
  import opened Sequences
  import opened Text

  const MAX_TOOL_ROUNDS: nat := 4
  const MAX_HOPS: nat := 2
  const NO_FINAL_RESPONSE: string := "max tool rounds reached without final response"
  const ERROR_PREFIX: string := "ERROR: "
  const EMPTY_RESPONSE: string := "openai returned empty response"

  /** A tool call as the model sends it; `None` marks a part of the wrong type. */
  datatype RawCall =
    | NotAnObject
    | Call(id: Option<string>, isFunction: bool, name: Option<string>, arguments: string)

  datatype Message =
    | System(content: string)
    | User(content: string)
    | Assistant(content: string, calls: seq<RawCall>)
    | Tool(callId: string, content: string)

  /** What a completion request ends in: an error, or a message with its tool
      calls and its text. */
  datatype Completion =
    | CompletionFails(error: string)
    | Reply(content: string, calls: seq<RawCall>)

  datatype ToolResult = ToolResult(name: string, ok: bool, stdout: string, stderr: string)

  /** The outside world of one model run. */
  datatype World = World(
    complete: seq<Message> -> Completion,
    execute: (string, string) -> ToolResult)

  datatype Outcome =
    | Answer(text: string, results: seq<ToolResult>)
    | Error(message: string)

  /** A call is answered unless its id, its function or its name has the wrong type. */
  predicate Answerable(call: RawCall) {
    call.Call? && call.id.Some? && call.isFunction && call.name.Some?
  }

  /** What the model is told of a result. */
  function ResultText(result: ToolResult): string {
    if result.ok then result.stdout else ERROR_PREFIX + result.stderr
  }

  function AnswerTo(call: RawCall, w: World): Message
    requires Answerable(call)
  {
    var result := w.execute(call.name.value, call.arguments);
    Tool(call.id.value, ResultText(result))
  }

  /** The tool messages and results of one round. */
  function Answers(calls: seq<RawCall>, w: World): seq<Message> {
    if calls == [] then []
    else
      var n := |calls| - 1;
      Answers(calls[..n], w) + (if Answerable(calls[n]) then [AnswerTo(calls[n], w)] else [])
  }

  function Results(calls: seq<RawCall>, w: World): seq<ToolResult> {
    if calls == [] then []
    else
      var n := |calls| - 1;
      Results(calls[..n], w)
      + (if Answerable(calls[n]) then [w.execute(calls[n].name.value, calls[n].arguments)] else [])
  }

  method AnswerCalls(calls: seq<RawCall>, w: World, messages: seq<Message>, results: seq<ToolResult>)
    returns (messages': seq<Message>, results': seq<ToolResult>)
    ensures messages' == messages + Answers(calls, w)
    ensures results' == results + Results(calls, w)
  {
    messages', results' := messages, results;
    for i := 0 to |calls|
      invariant messages' == messages + Answers(calls[..i], w)
      invariant results' == results + Results(calls[..i], w)
    {
      assert calls[..i + 1][..i] == calls[..i];
      var call := calls[i];
      if !call.Call? || call.id.None? || !call.isFunction || call.name.None? {
        continue;
      }
      var result := w.execute(call.name.value, call.arguments);
      results' := results' + [result];
      messages' := messages' + [Tool(call.id.value, ResultText(result))];
    }
    assert calls[..|calls|] == calls;
  }

  function Header(system: string, context: Option<string>, user: string): seq<Message> {
    [System(system)] + (if context.Some? && context.value != "" then [System(context.value)] else []) + [User(user)]
  }

  /** The outcome of a completion without tool calls. */
  function Ending(completion: Completion, results: seq<ToolResult>): Outcome {
    if completion.CompletionFails? then Error(completion.error)
    else if Strip(completion.content) != "" then Answer(Strip(completion.content), results)
    else Error(EMPTY_RESPONSE)
  }

  predicate Ends(completion: Completion) {
    completion.CompletionFails? || completion.calls == []
  }

  function AfterRound(messages: seq<Message>, reply: Completion, w: World): seq<Message>
    requires reply.Reply?
  {
    messages + [Assistant(reply.content, reply.calls)] + Answers(reply.calls, w)
  }

  /** What a run of the loop leaves: its outcome and the message lists it sent. */
  datatype Run = Run(outcome: Outcome, requests: seq<seq<Message>>)

  /** The loop with `rounds` rounds left. */
  function Loop(rounds: nat, messages: seq<Message>, results: seq<ToolResult>, sent: seq<seq<Message>>, w: World): Run {
    if rounds == 0 then Run(Error(NO_FINAL_RESPONSE), sent)
    else
      var completion := w.complete(messages);
      if Ends(completion) then Run(Ending(completion, results), sent + [messages])
      else
        Loop(rounds - 1, AfterRound(messages, completion, w), results + Results(completion.calls, w),
             sent + [messages], w)
  }

  /** The loop between two rounds. */
  datatype Turn = Turn(rounds: nat, messages: seq<Message>, results: seq<ToolResult>, sent: seq<seq<Message>>)

  function LoopFrom(t: Turn, w: World): Run {
    Loop(t.rounds, t.messages, t.results, t.sent, w)
  }

  predicate Stops(t: Turn, w: World) {
    t.rounds == 0 || Ends(w.complete(t.messages))
  }

  function Following(t: Turn, w: World): Turn
    requires !Stops(t, w)
  {
    var reply := w.complete(t.messages);
    Turn(t.rounds - 1, AfterRound(t.messages, reply, w), t.results + Results(reply.calls, w), t.sent + [t.messages])
  }

  lemma FollowingGoesOn(t: Turn, w: World)
    requires !Stops(t, w)
    ensures LoopFrom(Following(t, w), w) == LoopFrom(t, w)
  {
  }

  // --------------------------------------------------- well-formed requests

  function AnswerableIds(calls: seq<RawCall>): seq<string> {
    if calls == [] then []
    else
      var n := |calls| - 1;
      AnswerableIds(calls[..n]) + (if Answerable(calls[n]) then [calls[n].id.value] else [])
  }

  /** The call ids of the tool messages from position `k` up to the next other
      message. */
  function ToolRun(messages: seq<Message>, k: nat): seq<string>
    decreases |messages| - k
  {
    if k < |messages| && messages[k].Tool? then [messages[k].callId] + ToolRun(messages, k + 1) else []
  }

  /** Tool messages directly follow an assistant message, or one another; and the
      run after an assistant message answers exactly its answerable calls, in
      call order. */
  ghost predicate WellFormed(messages: seq<Message>) {
    && (forall i :: 0 <= i < |messages| && messages[i].Tool? ==>
          i > 0 && (messages[i - 1].Tool? || messages[i - 1].Assistant?))
    && (forall a :: 0 <= a < |messages| && messages[a].Assistant? ==>
          ToolRun(messages, a + 1) == AnswerableIds(messages[a].calls))
  }

  lemma {:induction false} AnswersAreTools(calls: seq<RawCall>, w: World)
    ensures |Answers(calls, w)| == |AnswerableIds(calls)|
    ensures forall i :: 0 <= i < |Answers(calls, w)| ==>
              Answers(calls, w)[i].Tool? && Answers(calls, w)[i].callId == AnswerableIds(calls)[i]
  {
    if calls != [] {
      AnswersAreTools(calls[..|calls| - 1], w);
    }
  }

  lemma {:induction false} RunOfTools(messages: seq<Message>, k: nat)
    requires k <= |messages| && forall i :: k <= i < |messages| ==> messages[i].Tool?
    ensures |ToolRun(messages, k)| == |messages| - k
    ensures forall i :: k <= i < |messages| ==> ToolRun(messages, k)[i - k] == messages[i].callId
    decreases |messages| - k
  {
    if k < |messages| {
      RunOfTools(messages, k + 1);
      ConsTail(messages[k].callId, ToolRun(messages, k + 1));
    }
  }

  lemma {:induction false} RunStopsAtOther(messages: seq<Message>, more: seq<Message>, k: nat)
    requires k <= |messages| && more != [] && !more[0].Tool?
    ensures ToolRun(messages + more, k) == ToolRun(messages, k)
    decreases |messages| - k
  {
    if k < |messages| && messages[k].Tool? {
      RunStopsAtOther(messages, more, k + 1);
    }
  }

  lemma RoundKeepsWellFormed(messages: seq<Message>, content: string, calls: seq<RawCall>, w: World)
    requires WellFormed(messages)
    ensures WellFormed(messages + [Assistant(content, calls)] + Answers(calls, w))
  {
    var n, more := |messages|, [Assistant(content, calls)] + Answers(calls, w);
    var all := messages + more;
    Assoc(messages, [Assistant(content, calls)], Answers(calls, w));
    AnswersAreTools(calls, w);
    forall i | 0 <= i < |all| && all[i].Tool?
      ensures i > 0 && (all[i - 1].Tool? || all[i - 1].Assistant?)
    {
      if i < n {
        assert messages[i] == all[i];
      } else {
        assert all[n] == more[0] && all[i] == more[i - n] && all[i - 1] == more[i - n - 1];
      }
    }
    forall a | 0 <= a < |all| && all[a].Assistant?
      ensures ToolRun(all, a + 1) == AnswerableIds(all[a].calls)
    {
      if a < n {
        assert messages[a] == all[a];
        RunStopsAtOther(messages, more, a + 1);
      } else {
        assert all[a] == more[a - n];
        forall i | n < i < |all|
          ensures all[i].Tool? && all[i].callId == AnswerableIds(calls)[i - n - 1]
        {
          assert all[i] == more[i - n] == Answers(calls, w)[i - n - 1];
        }
        assert a == n;
        RunOfTools(all, n + 1);
        assert |ToolRun(all, n + 1)| == |AnswerableIds(calls)|;
        forall j | 0 <= j < |AnswerableIds(calls)|
          ensures ToolRun(all, n + 1)[j] == AnswerableIds(calls)[j]
        {
          assert all[n + 1 + j].callId == AnswerableIds(calls)[j];
        }
      }
    }
  }

  // ------------------------------------------------------------- the loop

  /** Every message list is well formed, the first is `header`, and each extends
      those before. */
  ghost predicate Growing(requests: seq<seq<Message>>, header: seq<Message>) {
    && (forall i :: 0 <= i < |requests| ==> WellFormed(requests[i]))
    && (requests != [] ==> requests[0] == header)
    && (forall i, j :: 0 <= i < j < |requests| ==> requests[i] < requests[j])
  }

  lemma GrowingSnoc(requests: seq<seq<Message>>, messages: seq<Message>, header: seq<Message>)
    requires Growing(requests, header) && WellFormed(messages)
    requires if requests == [] then messages == header else requests[|requests| - 1] < messages
    ensures Growing(requests + [messages], header)
  {
  }

  /** What a round that goes on sends and prepares. */
  lemma RoundGrows(
      messages: seq<Message>, sent: seq<seq<Message>>, header: seq<Message>, reply: Completion, w: World,
      next: seq<Message>, more: seq<seq<Message>>)
    requires Growing(sent, header) && WellFormed(messages) && reply.Reply?
    requires if sent == [] then messages == header else sent[|sent| - 1] < messages
    requires next == AfterRound(messages, reply, w) && more == sent + [messages]
    ensures Growing(more, header) && WellFormed(next) && more != [] && more[|more| - 1] < next
    ensures |more| == |sent| + 1
  {
    GrowingSnoc(sent, messages, header);
    RoundKeepsWellFormed(messages, reply.content, reply.calls, w);
    SnocFront(sent, messages);
  }

  /** The requests so far are well formed and extend one another, and so does the next. */
  ghost predicate GrowingTurn(t: Turn, header: seq<Message>) {
    && Growing(t.sent, header) && WellFormed(t.messages)
    && if t.sent == [] then t.messages == header else t.sent[|t.sent| - 1] < t.messages
  }

  lemma GrowingFollows(t: Turn, w: World, header: seq<Message>)
    requires !Stops(t, w) && GrowingTurn(t, header)
    ensures GrowingTurn(Following(t, w), header)
  {
    var next := Following(t, w);
    RoundGrows(t.messages, t.sent, header, w.complete(t.messages), w, next.messages, next.sent);
  }

  lemma StoppedGrows(t: Turn, w: World, header: seq<Message>)
    requires Stops(t, w) && GrowingTurn(t, header)
    ensures var run := LoopFrom(t, w);
            |run.requests| <= |t.sent| + t.rounds && Growing(run.requests, header)
  {
    if t.rounds > 0 {
      GrowingSnoc(t.sent, t.messages, header);
    }
  }

  /** Every request of a run on a well-formed list is well formed and extends the
      requests before it; a round adds at most one. */
  lemma {:induction false} RequestsGrow(t: Turn, w: World, header: seq<Message>, total: nat)
    requires GrowingTurn(t, header) && total == |t.sent| + t.rounds
    ensures |LoopFrom(t, w).requests| <= total && Growing(LoopFrom(t, w).requests, header)
    decreases t.rounds
  {
    if Stops(t, w) {
      StoppedGrows(t, w, header);
    } else {
      FollowingGoesOn(t, w);
      GrowingFollows(t, w, header);
      RequestsGrow(Following(t, w), w, header, total);
    }
  }

  // ---------------------------------------------------- the conversation

  /** What the answerable call at position `i` gets: its result, and the tool message
      that tells the model of it. */
  lemma {:induction false} AnswerOfCall(calls: seq<RawCall>, w: World, i: nat)
    requires i < |calls| && calls[i].Call? && calls[i].id.Some? && calls[i].isFunction && calls[i].name.Some?
    ensures var k, result := |AnswerableIds(calls[..i])|, w.execute(calls[i].name.value, calls[i].arguments);
            && k < |Answers(calls, w)| == |Results(calls, w)| == |AnswerableIds(calls)|
            && Results(calls, w)[k] == result
            && Answers(calls, w)[k] == Tool(calls[i].id.value, if result.ok then result.stdout
                                                               else "ERROR: " + result.stderr)
  {
    var n := |calls| - 1;
    AnswersAreTools(calls, w);
    AnswersAreTools(calls[..n], w);
    ResultsAreAsMany(calls, w);
    ResultsAreAsMany(calls[..n], w);
    if i < n {
      assert calls[..n][..i] == calls[..i];
      AnswerOfCall(calls[..n], w, i);
    }
  }

  lemma {:induction false} ResultsAreAsMany(calls: seq<RawCall>, w: World)
    ensures |Results(calls, w)| == |AnswerableIds(calls)|
  {
    if calls != [] {
      ResultsAreAsMany(calls[..|calls| - 1], w);
    }
  }

  /** The completion of `messages` asks for tools, and `next` appends it and the answers
      to its calls. */
  ghost predicate LeadsTo(messages: seq<Message>, next: seq<Message>, w: World) {
    var reply := w.complete(messages);
    && reply.Reply? && reply.calls != []
    && next == messages + [Assistant(reply.content, reply.calls)] + Answers(reply.calls, w)
  }

  ghost predicate Continues(requests: seq<seq<Message>>, w: World) {
    forall i, j :: 0 <= i && j == i + 1 < |requests| ==> LeadsTo(requests[i], requests[j], w)
  }

  /** The outcome is what the last completion says; only after `rounds` completions
      may it still ask for tools. */
  ghost predicate Concludes(run: Run, w: World, rounds: nat) {
    && 1 <= |run.requests| <= rounds
    && match w.complete(run.requests[|run.requests| - 1])
       case CompletionFails(error) => run.outcome == Error(error)
       case Reply(content, calls) =>
         if calls != [] then |run.requests| == rounds && run.outcome == Error(NO_FINAL_RESPONSE)
         else if Strip(content) == "" then run.outcome == Error(EMPTY_RESPONSE)
         else run.outcome.Answer? && run.outcome.text == Strip(content)
  }

  lemma ContinuesSnoc(requests: seq<seq<Message>>, next: seq<Message>, w: World)
    requires Continues(requests, w) && requests != [] && !Ends(w.complete(requests[|requests| - 1]))
    requires next == AfterRound(requests[|requests| - 1], w.complete(requests[|requests| - 1]), w)
    ensures Continues(requests + [next], w)
  {
    var all := requests + [next];
    assert LeadsTo(requests[|requests| - 1], next, w);
    forall i, j | 0 <= i && j == i + 1 < |all|
      ensures LeadsTo(all[i], all[j], w)
    {
      assert all[i] == requests[i];
      if j < |requests| {
        assert all[j] == requests[j];
      }
    }
  }

  lemma ContinuesFront(requests: seq<seq<Message>>, last: seq<Message>, w: World)
    requires Continues(requests + [last], w)
    ensures Continues(requests, w)
  {
    var all := requests + [last];
    forall i, j | 0 <= i && j == i + 1 < |requests|
      ensures LeadsTo(requests[i], requests[j], w)
    {
      assert all[i] == requests[i] && all[j] == requests[j];
    }
  }

  lemma OutOfRounds(sent: seq<seq<Message>>, w: World, run: Run)
    requires sent != [] && !Ends(w.complete(sent[|sent| - 1])) && run == Run(Error(NO_FINAL_RESPONSE), sent)
    ensures Concludes(run, w, |sent|)
  {
  }

  lemma LastCompletion(messages: seq<Message>, results: seq<ToolResult>, sent: seq<seq<Message>>, w: World, total: nat)
    requires Ends(w.complete(messages)) && |sent| < total
    ensures Concludes(Run(Ending(w.complete(messages), results), sent + [messages]), w, total)
  {
    SnocFront(sent, messages);
  }

  lemma NextRequest(messages: seq<Message>, sent: seq<seq<Message>>, w: World, next: seq<Message>)
    requires Continues(sent + [messages], w) && !Ends(w.complete(messages))
    requires next == AfterRound(messages, w.complete(messages), w)
    ensures Continues(sent + [messages] + [next], w)
    ensures (sent + [messages] + [next])[0] == (sent + [messages])[0]
  {
    SnocFront(sent, messages);
    ContinuesSnoc(sent + [messages], next, w);
  }

  /** The requests up to this turn continue one another from the first on, and without
      a round left the last completion still asks for tools. */
  ghost predicate Conversing(t: Turn, w: World, first: seq<Message>) {
    && Continues(t.sent + [t.messages], w) && (t.sent + [t.messages])[0] == first
    && (t.rounds == 0 ==> t.sent != [] && !Ends(w.complete(t.sent[|t.sent| - 1])))
  }

  lemma ConversingFollows(t: Turn, w: World, first: seq<Message>)
    requires !Stops(t, w) && Conversing(t, w, first)
    ensures Conversing(Following(t, w), w, first)
  {
    SnocFront(t.sent, t.messages);
    NextRequest(t.messages, t.sent, w, Following(t, w).messages);
  }

  lemma StoppedConverses(t: Turn, w: World, first: seq<Message>)
    requires Stops(t, w) && Conversing(t, w, first)
    ensures var run := LoopFrom(t, w);
            && Continues(run.requests, w) && Concludes(run, w, |t.sent| + t.rounds) && run.requests[0] == first
  {
    if t.rounds == 0 {
      ContinuesFront(t.sent, t.messages, w);
      OutOfRounds(t.sent, w, LoopFrom(t, w));
    } else {
      LastCompletion(t.messages, t.results, t.sent, w, |t.sent| + t.rounds);
    }
  }

  /** The run's requests continue one another from the first on, and its outcome is
      what the last completion says. */
  lemma {:induction false} LoopConverses(t: Turn, w: World, first: seq<Message>, total: nat)
    requires Conversing(t, w, first) && total == |t.sent| + t.rounds
    ensures var run := LoopFrom(t, w);
            && Continues(run.requests, w) && Concludes(run, w, total) && run.requests[0] == first
    decreases t.rounds
  {
    if Stops(t, w) {
      StoppedConverses(t, w, first);
    } else {
      FollowingGoesOn(t, w);
      ConversingFollows(t, w, first);
      LoopConverses(Following(t, w), w, first, total);
    }
  }

  /** The loop over at most `maxRounds` completions. */
  method RunRounds(maxRounds: nat, header: seq<Message>, w: World)
    returns (outcome: Outcome, requests: seq<seq<Message>>)
    ensures Run(outcome, requests) == Loop(maxRounds, header, [], [], w)
  {
    var messages, results := header, [];
    requests := [];
    ghost var goal := Loop(maxRounds, header, [], [], w);
    for round := 0 to maxRounds
      invariant Loop(maxRounds - round, messages, results, requests, w) == goal
    {
      var completion := w.complete(messages);
      requests := requests + [messages];
      if completion.CompletionFails? {
        return Error(completion.error), requests;
      }
      if completion.calls == [] {
        var text := Strip(completion.content);
        return if text != "" then Answer(text, results) else Error(EMPTY_RESPONSE), requests;
      }
      messages := messages + [Assistant(completion.content, completion.calls)];
      messages, results := AnswerCalls(completion.calls, w, messages, results);
    }
    return Error(NO_FINAL_RESPONSE), requests;
  }

  lemma HeaderIsWellFormed(system: string, context: Option<string>, user: string)
    ensures WellFormed(Header(system, context, user))
  {
  }

  lemma HeaderHasNoTools(system: string, context: Option<string>, user: string)
    ensures ToolTexts(Header(system, context, user)) == []
  {
    NoToolTexts(Header(system, context, user));
  }

  lemma {:induction false} NoToolTexts(messages: seq<Message>)
    requires forall i :: 0 <= i < |messages| ==> !messages[i].Tool?
    ensures ToolTexts(messages) == []
  {
    if messages != [] {
      NoToolTexts(messages[..|messages| - 1]);
    }
  }

  /** One model's run: at most four completions, each on a well-formed list. */
  method RunOpenAiAgent(system: string, context: Option<string>, user: string, w: World)
    returns (outcome: Outcome, requests: seq<seq<Message>>)
    ensures Run(outcome, requests) == Loop(MAX_TOOL_ROUNDS, Header(system, context, user), [], [], w)
    ensures |requests| <= 4
    ensures Growing(requests, Header(system, context, user))
    ensures ShowsResults(Run(outcome, requests))
    ensures Continues(requests, w) && Concludes(Run(outcome, requests), w, 4)
    ensures requests[0] == if context.Some? && context.value != "" then
                             [System(system), System(context.value), User(user)]
                           else [System(system), User(user)]
  {
    var messages := [System(system)];
    if context.Some? && context.value != "" {
      messages := messages + [System(context.value)];
    }
    messages := messages + [User(user)];
    assert messages == Header(system, context, user);
    HeaderIsWellFormed(system, context, user);
    HeaderHasNoTools(system, context, user);
    RequestsGrow(Turn(MAX_TOOL_ROUNDS, messages, [], []), w, messages, MAX_TOOL_ROUNDS);
    ResultsAreWhatTheModelSaw(MAX_TOOL_ROUNDS, messages, [], [], w);
    Empty([messages]);
    LoopConverses(Turn(MAX_TOOL_ROUNDS, messages, [], []), w, messages, MAX_TOOL_ROUNDS);
    outcome, requests := RunRounds(MAX_TOOL_ROUNDS, messages, w);
  }

  /** An answer is stripped and not blank, and keeps the results collected before. */
  lemma {:induction false} AnswersAreNotBlank(
      rounds: nat, messages: seq<Message>, results: seq<ToolResult>, sent: seq<seq<Message>>, w: World)
    ensures var outcome := Loop(rounds, messages, results, sent, w).outcome;
            outcome.Answer? ==> outcome.text != "" && Stripped(outcome.text) && results <= outcome.results
  {
    if rounds > 0 {
      var completion := w.complete(messages);
      if !Ends(completion) {
        AnswersAreNotBlank(rounds - 1, AfterRound(messages, completion, w), results + Results(completion.calls, w),
                           sent + [messages], w);
      }
    }
  }

  // ------------------------------------------- results and tool messages

  function ToolTexts(messages: seq<Message>): seq<string> {
    if messages == [] then []
    else
      var n := |messages| - 1;
      ToolTexts(messages[..n]) + (if messages[n].Tool? then [messages[n].content] else [])
  }

  function ResultTexts(results: seq<ToolResult>): seq<string> {
    if results == [] then []
    else
      var n := |results| - 1;
      ResultTexts(results[..n]) + [ResultText(results[n])]
  }

  lemma ToolTextsSnoc(messages: seq<Message>, m: Message)
    ensures ToolTexts(messages + [m]) == ToolTexts(messages) + (if m.Tool? then [m.content] else [])
  {
    SnocFront(messages, m);
  }

  lemma ResultTextsSnoc(results: seq<ToolResult>, r: ToolResult)
    ensures ResultTexts(results + [r]) == ResultTexts(results) + [ResultText(r)]
  {
    SnocFront(results, r);
  }

  /** A round adds a tool message and a result for each call that it answers. */
  lemma {:induction false} RoundAddsBoth(
      messages: seq<Message>, results: seq<ToolResult>, calls: seq<RawCall>, w: World)
    requires ToolTexts(messages) == ResultTexts(results)
    ensures ToolTexts(messages + Answers(calls, w)) == ResultTexts(results + Results(calls, w))
    decreases |calls|
  {
    if calls == [] {
      Empty(messages);
      Empty(results);
    } else {
      var front, call := calls[..|calls| - 1], calls[|calls| - 1];
      RoundAddsBoth(messages, results, front, w);
      if Answerable(call) {
        var result := w.execute(call.name.value, call.arguments);
        ToolTextsSnoc(messages + Answers(front, w), AnswerTo(call, w));
        ResultTextsSnoc(results + Results(front, w), result);
        Assoc(messages, Answers(front, w), [AnswerTo(call, w)]);
        Assoc(results, Results(front, w), [result]);
      } else {
        Empty(Answers(front, w));
        Empty(Results(front, w));
      }
    }
  }

  lemma NextRoundAgrees(messages: seq<Message>, results: seq<ToolResult>, reply: Completion, w: World)
    requires reply.Reply? && ToolTexts(messages) == ResultTexts(results)
    ensures ToolTexts(AfterRound(messages, reply, w)) == ResultTexts(results + Results(reply.calls, w))
  {
    var asked := messages + [Assistant(reply.content, reply.calls)];
    assert ToolTexts(asked) == ToolTexts(messages) by {
      ToolTextsSnoc(messages, Assistant(reply.content, reply.calls));
      Empty(ToolTexts(messages));
    }
    RoundAddsBoth(asked, results, reply.calls, w);
  }

  /** An answer came for the last request, whose tool messages are, in order, what
      the results say. */
  ghost predicate ShowsResults(run: Run) {
    run.outcome.Answer? ==>
      && run.requests != []
      && ToolTexts(run.requests[|run.requests| - 1]) == ResultTexts(run.outcome.results)
  }

  lemma LastRoundShows(messages: seq<Message>, results: seq<ToolResult>, sent: seq<seq<Message>>, last: Completion)
    requires ToolTexts(messages) == ResultTexts(results)
    ensures ShowsResults(Run(Ending(last, results), sent + [messages]))
  {
    SnocFront(sent, messages);
  }

  /** The tool messages of a list say what the results say. */
  ghost predicate Told(messages: seq<Message>, results: seq<ToolResult>) {
    ToolTexts(messages) == ResultTexts(results)
  }

  /** A round that goes on leaves a list and results that agree again. */
  lemma FollowingTells(t: Turn, w: World)
    requires !Stops(t, w) && Told(t.messages, t.results)
    ensures Told(Following(t, w).messages, Following(t, w).results)
  {
    NextRoundAgrees(t.messages, t.results, w.complete(t.messages), w);
  }

  lemma {:induction false} LastTurn(t: Turn, w: World) returns (last: Turn)
    requires Told(t.messages, t.results)
    ensures Stops(last, w) && Told(last.messages, last.results) && LoopFrom(last, w) == LoopFrom(t, w)
    decreases t.rounds
  {
    if Stops(t, w) {
      last := t;
    } else {
      FollowingGoesOn(t, w);
      FollowingTells(t, w);
      last := LastTurn(Following(t, w), w);
    }
  }

  lemma LastTurnShows(t: Turn, w: World)
    requires Stops(t, w) && Told(t.messages, t.results)
    ensures ShowsResults(LoopFrom(t, w))
  {
    if t.rounds > 0 {
      LastRoundShows(t.messages, t.results, t.sent, w.complete(t.messages));
    }
  }

  /** The results returned with an answer are, in order, what the tool messages
      of the last request told the model. */
  lemma ResultsAreWhatTheModelSaw(
      rounds: nat, messages: seq<Message>, results: seq<ToolResult>, sent: seq<seq<Message>>, w: World)
    requires ToolTexts(messages) == ResultTexts(results)
    ensures ShowsResults(Loop(rounds, messages, results, sent, w))
  {
    var last := LastTurn(Turn(rounds, messages, results, sent), w);
    LastTurnShows(last, w);
  }

  // --------------------------------------------------------------- failover

  datatype Attempt = Attempt(model: string, success: bool, error: Option<string>)
  datatype AgentResult =
    | Succeeded(model: string, text: string, results: seq<ToolResult>, attempts: seq<Attempt>)
    | AllFailed(error: string, attempts: seq<Attempt>)

  datatype Prompt = Prompt(system: string, context: Option<string>, user: string)

  /** The backend of an agent: the chat API per model when a key is configured,
      else the placeholder model. */
  datatype Backend =
    | OpenAi(world: string -> World)
    | Placeholder(reply: string -> Outcome)

  function ModelOutcome(backend: Backend, prompt: Prompt, model: string): Outcome {
    match backend
    case OpenAi(world) =>
      Loop(MAX_TOOL_ROUNDS, Header(prompt.system, prompt.context, prompt.user), [], [], world(model)).outcome
    case Placeholder(reply) => reply(model)
  }

  method CallModel(backend: Backend, prompt: Prompt, model: string) returns (outcome: Outcome, completions: nat)
    ensures outcome == ModelOutcome(backend, prompt, model)
    ensures completions <= 4
  {
    match backend {
      case OpenAi(world) =>
        var requests;
        outcome, requests := RunOpenAiAgent(prompt.system, prompt.context, prompt.user, world(model));
        completions := |requests|;
      case Placeholder(reply) =>
        outcome := reply(model);
        completions := 0;
    }
  }

  /** The attempts follow the plan and record each model's outcome; only the last
      can be a success. */
  ghost predicate Follows(attempts: seq<Attempt>, plan: seq<string>, backend: Backend, prompt: Prompt) {
    && |attempts| <= |plan|
    && forall i :: 0 <= i < |attempts| ==>
         && attempts[i].model == plan[i]
         && (attempts[i].success <==> ModelOutcome(backend, prompt, plan[i]).Answer?)
         && (attempts[i].success ==> i == |attempts| - 1 && attempts[i].error == None)
         && (!attempts[i].success ==> attempts[i].error == Some(ModelOutcome(backend, prompt, plan[i]).message))
  }

  /** The error of a failed run is the last attempt's, if that has a text. */
  ghost predicate ReportsLast(result: AgentResult) {
    result.AllFailed? ==>
      var n := |result.attempts|;
      result.error == if n > 0 && result.attempts[n - 1].error.Some? && result.attempts[n - 1].error.value != ""
                      then result.attempts[n - 1].error.value else "no model candidates available"
  }

  lemma FollowsSnoc(attempts: seq<Attempt>, plan: seq<string>, backend: Backend, prompt: Prompt, outcome: Outcome)
    requires Follows(attempts, plan, backend, prompt) && |attempts| < |plan|
    requires forall j :: 0 <= j < |attempts| ==> !attempts[j].success
    requires outcome == ModelOutcome(backend, prompt, plan[|attempts|])
    ensures outcome.Answer? ==> Follows(attempts + [Attempt(plan[|attempts|], true, None)], plan, backend, prompt)
    ensures outcome.Error? ==>
              Follows(attempts + [Attempt(plan[|attempts|], false, Some(outcome.message))], plan, backend, prompt)
  {
  }

  lemma FailuresAreAllFailed(attempts: seq<Attempt>, plan: seq<string>, backend: Backend, prompt: Prompt)
    requires Follows(attempts, plan, backend, prompt) && |attempts| == |plan|
    requires forall j :: 0 <= j < |attempts| ==> !attempts[j].success
    ensures forall m :: m in plan ==> ModelOutcome(backend, prompt, m).Error?
  {
    forall m | m in plan
      ensures ModelOutcome(backend, prompt, m).Error?
    {
      var i :| 0 <= i < |plan| && plan[i] == m;
      assert !attempts[i].success;
    }
  }

  lemma SuccessIsNotAllFailed(attempts: seq<Attempt>, plan: seq<string>, backend: Backend, prompt: Prompt)
    requires Follows(attempts, plan, backend, prompt) && attempts != [] && attempts[|attempts| - 1].success
    ensures exists m :: m in plan && !ModelOutcome(backend, prompt, m).Error?
  {
    assert plan[|attempts| - 1] in plan;
  }

  lemma PlanIsShort(path: Option<seq<string>>)
    ensures MAX_HOPS == 2 && |Plan(path, 2)| <= 3
  {
    PlanLaws(path, 2);
  }

  /** `run_agent` without a template image: `completions` counts the requests to
      the chat API. The attempts are a prefix of the plan; all but a successful
      last one failed; and without a success the whole plan was tried. */
  method RunAgent(path: Option<seq<string>>, prompt: Prompt, backend: Backend)
    returns (result: AgentResult, completions: nat)
    ensures |result.attempts| <= 3 && completions <= 4 * |result.attempts|
    ensures Follows(result.attempts, Plan(path, 2), backend, prompt)
    ensures result.AllFailed? <==> forall m :: m in Plan(path, 2) ==> ModelOutcome(backend, prompt, m).Error?
    ensures result.AllFailed? ==> |result.attempts| == |Plan(path, 2)|
    ensures ReportsLast(result)
    ensures result.Succeeded? ==>
              && result.attempts != [] && result.model == result.attempts[|result.attempts| - 1].model
              && ModelOutcome(backend, prompt, result.model) == Answer(result.text, result.results)
  {
    var plan := BuildFailoverPlan(path, MAX_HOPS);
    PlanIsShort(path);
    result, completions := RunPlan(plan, prompt, backend);
  }

  /** The failover loop over the models of a plan. */
  method RunPlan(plan: seq<string>, prompt: Prompt, backend: Backend) returns (result: AgentResult, completions: nat)
    ensures completions <= 4 * |result.attempts|
    ensures Follows(result.attempts, plan, backend, prompt)
    ensures result.AllFailed? <==> forall m :: m in plan ==> ModelOutcome(backend, prompt, m).Error?
    ensures result.AllFailed? ==> |result.attempts| == |plan|
    ensures ReportsLast(result)
    ensures result.Succeeded? ==>
              && result.attempts != [] && result.model == result.attempts[|result.attempts| - 1].model
              && ModelOutcome(backend, prompt, result.model) == Answer(result.text, result.results)
  {
    var attempts: seq<Attempt> := [];
    var lastError := "";
    completions := 0;
    for i := 0 to |plan|
      invariant |attempts| == i && completions <= 4 * i
      invariant Follows(attempts, plan, backend, prompt)
      invariant forall j :: 0 <= j < i ==> !attempts[j].success
      invariant if i == 0 then lastError == "" else attempts[i - 1].error == Some(lastError)
    {
      var outcome, requested := CallModel(backend, prompt, plan[i]);
      completions := completions + requested;
      FollowsSnoc(attempts, plan, backend, prompt, outcome);
      if outcome.Answer? {
        attempts := attempts + [Attempt(plan[i], true, None)];
        SuccessIsNotAllFailed(attempts, plan, backend, prompt);
        return Succeeded(plan[i], outcome.text, outcome.results, attempts), completions;
      }
      lastError := outcome.message;
      attempts := attempts + [Attempt(plan[i], false, Some(outcome.message))];
    }
    FailuresAreAllFailed(attempts, plan, backend, prompt);
    return AllFailed(if lastError != "" then lastError else "no model candidates available", attempts), completions;
  }
}
