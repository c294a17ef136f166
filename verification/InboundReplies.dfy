/** What the replies of the inbound job say: the answer of the runtime agent, else of
    the first candidate that answers, else a fallback that quotes the user. */
module InboundReplies {
  import opened InboundExecution
  import opened Options
  import opened Outbound
  import Sequences
  import opened Text

  /** The job's intent when it has ended. */
  function IntentAfter(db: Tables, job: Job): Intent
    requires Commits(job)
  {
    CommitAddsIntent(db, job);
    AfterJob(db, job).intents[job.intentId]
  }

  function InMetadata(intent: Intent, key: string): Json {
    var metadata := Get(intent.row.payload, "metadata");
    if metadata.Obj? then Get(metadata.fields, key) else Null
  }

  /** The intent carries this text, this model path and this run. */
  ghost predicate Says(intent: Intent, text: string, models: seq<string>, run: Option<string>) {
    && TextOf(intent) == Str(text) && InMetadata(intent, "model_path") == Arr(Strings(models))
    && NamedRun(intent) == TextOrNull(run)
  }

  lemma IntentKeepsPayload(db: Tables, job: Job, key: string)
    requires Commits(job) && key in Payload(job, Generate(job).reply)
    ensures Get(IntentAfter(db, job).row.payload, key) == Payload(job, Generate(job).reply)[key]
  {
    var reply := Generate(job).reply;
    assert key != "_dispatch";
    CreatedPayload(job, reply);
    CommitAddsIntent(db, job);
    var row := Committed(db, job).intents[job.intentId].row;
    assert row == IntentRows(job, reply).intents[job.intentId].row;
    MarkKeepsPayload(row, row, EnqueueMark(job), key);
  }

  lemma IntentSays(db: Tables, job: Job)
    requires Commits(job) && job.runId != ""
    ensures Says(IntentAfter(db, job), Generate(job).reply.text, Generate(job).reply.models, Generate(job).reply.runId)
  {
    var reply := Generate(job).reply;
    ReplyLaws(job);
    assert "text" in Payload(job, reply) && "metadata" in Payload(job, reply);
    IntentKeepsPayload(db, job, "text");
    IntentKeepsPayload(db, job, "metadata");
  }

  /** Where the intent is addressed to, and what it names. */
  lemma IntentIsAddressed(db: Tables, job: Job)
    requires Commits(job)
    ensures var intent, target := IntentAfter(db, job), job.resolution;
            && Get(intent.row.payload, "trace_id") == Str(job.trace)
            && Get(intent.row.payload, "provider_group_id") == Str(job.group)
            && RepliesTo(intent) == Str(job.message.value.providerId)
            && InMetadata(intent, "agent_instance_id") == Str(target.agent.id)
            && InMetadata(intent, "binding_id") == Str(target.binding)
            && InMetadata(intent, "image_ref") == Str(target.imageRef)
  {
    AddressInPayload(job, Generate(job).reply);
    IntentKeepsPayload(db, job, "trace_id");
    IntentKeepsPayload(db, job, "provider_group_id");
    IntentKeepsPayload(db, job, "reply_to_provider_message_id");
    IntentKeepsPayload(db, job, "metadata");
  }

  lemma AddressInPayload(job: Job, reply: AgentReply)
    requires ReachesAgent(job)
    ensures var payload, target := Payload(job, reply), job.resolution;
            && "trace_id" in payload && payload["trace_id"] == Str(job.trace)
            && "provider_group_id" in payload && payload["provider_group_id"] == Str(job.group)
            && "reply_to_provider_message_id" in payload
            && payload["reply_to_provider_message_id"] == Str(job.message.value.providerId)
            && "metadata" in payload && payload["metadata"].Obj?
            && Get(payload["metadata"].fields, "agent_instance_id") == Str(target.agent.id)
            && Get(payload["metadata"].fields, "binding_id") == Str(target.binding)
            && Get(payload["metadata"].fields, "image_ref") == Str(target.imageRef)
  {
  }

  /** The intent of a job waits to be sent, unless its dispatch could not be queued. */
  lemma IntentWaits(db: Tables, job: Job)
    requires Commits(job)
    ensures var row := IntentAfter(db, job).row;
            && row.attempts == 0
            && (if job.faults.enqueue && !job.faults.refresh && !job.faults.mark then
                  && row.status == Failed
                  && TellsError(row, Some("inbound_execution_dispatch_enqueue_failed"), Some("enqueue failed"))
                else row.status == Pending)
  {
    var reply := Generate(job).reply;
    CommitAddsIntent(db, job);
    CreatedPayload(job, reply);
    var row := Committed(db, job).intents[job.intentId].row;
    assert row == CreatedRow(job.group, job.intentId, Mapping(Payload(job, reply)), job.at).value;
    MarkTellsError(row, row, EnqueueMark(job));
  }

  /** The latest version of the message is not deleted and has this text. */
  predicate Asks(job: Job, text: string) {
    && job.message.Some? && job.message.value.latest.Some? && !job.message.value.latest.value.deleted
    && job.message.value.latest.value.text.Some?
    && text == Strip(job.message.value.latest.value.text.value) && text != ""
  }

  /** The text is no tool command. */
  predicate AsksTheAgent(job: Job, text: string) {
    Asks(job, text) && job.world.command(text).None?
  }

  /** The runtime agent answered, but without a success that has a text. */
  predicate AgentFails(service: Service) {
    service.RequestFails? || (service.Body? && (!service.success || Blank(service.text)))
  }

  function RunOf(job: Job, status: RunStatus, error: Option<string>): Run
    requires ReachesAgent(job)
  {
    Run(job.tx, job.message.value.id, job.resolution.binding, status, true, error)
  }

  lemma RunIsCommitted(db: Tables, job: Job, result: Result)
    requires Commits(job) && Generate(job).rows == RunRows(job, result)
    ensures job.runId in AfterJob(db, job).runs && AfterJob(db, job).runs[job.runId] == EndedRun(job, result)
  {
    var rows := Rows(job).value;
    assert rows.runs == map[job.runId := EndedRun(job, result)];
    assert Committed(db, job).runs == db.runs + rows.runs;
    CommitAddsIntent(db, job);
  }

  lemma AgentIsAsked(job: Job, text: string)
    requires Commits(job) && AsksTheAgent(job, text)
    ensures job.world.hits.Some? && RuntimeResult(job.world.service, job.resolution.template.models).Some?
    ensures var result := RuntimeResult(job.world.service, job.resolution.template.models).value;
            ReplyAfterRun(job, result) == Some(Generate(job).reply) && Generate(job).rows == RunRows(job, result)
  {
    assert UserText(job.message.value) == text;
  }

  /** After a success of the runtime agent the intent carries the stripped text of its
      answer and names the run, which has succeeded. */
  lemma AgentsAnswerIsSent(db: Tables, job: Job, text: string)
    requires Commits(job) && job.runId != "" && AsksTheAgent(job, text)
    requires job.world.service.Body? && job.world.service.success && !Blank(job.world.service.text)
    ensures var service, candidates := job.world.service, job.resolution.template.models;
            Says(IntentAfter(db, job), Strip(service.text),
                 if AttemptModels(service.attempts) != [] then AttemptModels(service.attempts)
                 else if service.modelUsed.Some? && service.modelUsed.value != "" then [service.modelUsed.value]
                 else if candidates != [] then [candidates[0]] else [],
                 Some(job.runId))
    ensures job.runId in AfterJob(db, job).runs
            && AfterJob(db, job).runs[job.runId] == RunOf(job, RunSucceeded, None)
  {
    AgentIsAsked(job, text);
    IntentSays(db, job);
    StripStripped(Strip(job.world.service.text));
    RunIsCommitted(db, job, RuntimeResult(job.world.service, job.resolution.template.models).value);
  }

  /** An unsuccessful run is kept as failed or timed out, with the reason. */
  lemma AgentsFailureIsKept(db: Tables, job: Job, text: string)
    requires Commits(job) && AsksTheAgent(job, text) && AgentFails(job.world.service)
    ensures var service := job.world.service;
            var timedOut := service.Body? && service.execution.Some? && service.execution.value.timedOut;
            var error := if service.RequestFails? then service.error
                         else if service.success then "runtime-agent returned empty response_text"
                         else if service.error != "" then service.error else "runtime-agent unsuccessful";
            && job.runId in AfterJob(db, job).runs
            && AfterJob(db, job).runs[job.runId]
                 == RunOf(job, if timedOut then RunTimeout else RunFailed, Some(error))
  {
    AgentIsAsked(job, text);
    RunIsCommitted(db, job, RuntimeResult(job.world.service, job.resolution.template.models).value);
  }

  /** When the job commits, no candidate raised before the one that answered. */
  lemma NoneRaised(job: Job, text: string, n: nat)
    requires Commits(job) && AsksTheAgent(job, text) && AgentFails(job.world.service) && job.world.configured
    requires n <= |job.resolution.template.models|
    requires forall k :: 0 <= k < n ==> !GivesText(job.world.chat(job.resolution.template.models[k]))
    ensures forall k :: 0 <= k < n ==> !job.world.chat(job.resolution.template.models[k]).OtherError?
  {
    var models, chat := job.resolution.template.models, job.world.chat;
    AgentIsAsked(job, text);
    FallbackRaisesIff(job, RuntimeResult(job.world.service, models).value);
    var decided := Deciding(models, chat);
  }

  lemma FirstAnswerDecides(models: seq<string>, chat: string -> Chat, i: nat)
    requires i < |models| && GivesText(chat(models[i]))
    requires forall k :: 0 <= k < i ==> !GivesText(chat(models[k])) && !chat(models[k]).OtherError?
    ensures Deciding(models, chat) == i
  {
  }

  lemma FirstAnswer(models: seq<string>, chat: string -> Chat, i: nat)
    requires i < |models| && GivesText(chat(models[i]))
    requires forall k :: 0 <= k < i ==> !GivesText(chat(models[k])) && !chat(models[k]).OtherError?
    ensures Ask(models, [], chat) == Answered(Strip(chat(models[i]).text), [] + models[..i + 1])
  {
    FirstAnswerDecides(models, chat, i);
    AskIsDecidedByFirst(models, [], chat);
  }

  /** After an unsuccessful run the first candidate that answers is quoted. */
  lemma CandidatesAnswerIsSent(db: Tables, job: Job, text: string, i: nat)
    requires Commits(job) && job.runId != "" && AsksTheAgent(job, text) && AgentFails(job.world.service)
    requires job.world.configured && i < |job.resolution.template.models|
    requires GivesText(job.world.chat(job.resolution.template.models[i]))
    requires forall k :: 0 <= k < i ==> !GivesText(job.world.chat(job.resolution.template.models[k]))
    ensures var models := job.resolution.template.models;
            Says(IntentAfter(db, job), Strip(job.world.chat(models[i]).text), models[..i + 1], None)
  {
    var models := job.resolution.template.models;
    AgentIsAsked(job, text);
    NoneRaised(job, text, i);
    FirstAnswer(models, job.world.chat, i);
    Sequences.Empty(models[..i + 1]);
    IntentSays(db, job);
  }

  /** The words of a text, cut after 240 characters. */
  function Short(text: string): string {
    var words := Join(" ", Words(text));
    if |words| <= 240 then words else words[..240] + "…"
  }

  lemma WordsAreVisible(text: string)
    requires text != "" && Stripped(text)
    ensures Join(" ", Words(text)) != ""
  {
    var n := WordLength(text);
    assert Words(text)[0] == text[..n];
  }

  /** The fallback quotes the user's words, shortened, and tells the number of hits. */
  lemma FallbackQuotes(text: string, hits: nat)
    requires text != "" && Stripped(text)
    ensures FallbackReply(text, hits)
         == if hits == 0 then THANKS + SHORT_ANSWER + Short(text)
            else THANKS + FOUND + Decimal(hits) + ENTRIES + SHORT_ANSWER + Short(text)
  {
    WordsAreVisible(text);
  }

  /** Only when no candidate answers, or none may be asked, the reply is the fallback. */
  lemma FallbackIsSent(db: Tables, job: Job, text: string)
    requires Commits(job) && job.runId != "" && AsksTheAgent(job, text) && AgentFails(job.world.service)
    requires job.world.configured ==>
               forall m :: m in job.resolution.template.models ==> !GivesText(job.world.chat(m))
    ensures job.world.hits.Some?
    ensures var models := job.resolution.template.models;
            Says(IntentAfter(db, job), FallbackReply(text, job.world.hits.value),
                 if models != [] then [models[0]] else [], None)
  {
    var models := job.resolution.template.models;
    AgentIsAsked(job, text);
    IntentSays(db, job);
    if job.world.configured {
      NoneRaised(job, text, |models|);
      AskIsDecidedByFirst(models, [], job.world.chat);
    }
  }

  lemma NoRunIsMade(db: Tables, job: Job)
    requires Commits(job) && Generate(job).rows == NOTHING
    ensures AfterJob(db, job).runs == db.runs
  {
    CommitAddsIntent(db, job);
    assert Rows(job).value.runs == map[];
    assert db.runs + map[] == db.runs;
  }

  /** A message without a text is confirmed, and no run is made. */
  lemma ConfirmationIsSent(db: Tables, job: Job)
    requires Commits(job) && job.runId != "" && forall text :: !Asks(job, text)
    ensures var models := job.resolution.template.models;
            Says(IntentAfter(db, job), "Danke, wir haben deine Nachricht erhalten.",
                 if models != [] then [models[0]] else [], None)
    ensures AfterJob(db, job).runs == db.runs
  {
    var message := job.message.value;
    assert UserText(message) == "" by {
      if UserText(message) != "" {
        assert Asks(job, UserText(message));
      }
    }
    IntentSays(db, job);
    NoRunIsMade(db, job);
  }

  /** `echo` repeats its input, `uppercase` raises it, and the others give no result. */
  ghost predicate ToolSays(reply: string, command: Command, tools: seq<string>, upper: string -> string) {
    if command.name !in tools then reply == TOOL + command.name + NOT_ALLOWED
    else if command.name == "echo" then
      reply == TOOL + command.name + RESULT + (if command.input == "" then NO_INPUT else command.input)
    else if command.name == "uppercase" then reply == TOOL + command.name + RESULT + upper(command.input)
    else reply == TOOL + command.name + NOT_IMPLEMENTED
  }

  /** A tool command is answered by the tool, if the template has it, and no run is
      made. */
  lemma CommandIsAnswered(db: Tables, job: Job, text: string) returns (reply: string)
    requires Commits(job) && job.runId != "" && Asks(job, text) && job.world.command(text).Some?
    ensures Says(IntentAfter(db, job), reply, [], None)
    ensures ToolSays(reply, job.world.command(text).value, job.resolution.template.tools, job.world.upper)
    ensures AfterJob(db, job).runs == db.runs
  {
    assert UserText(job.message.value) == text;
    reply := ToolReply(text, job.resolution.template.tools, job.world).value;
    IntentSays(db, job);
    NoRunIsMade(db, job);
  }

  // ------------------------------------------------- when a job commits

  /** Some candidate raises before one answers. */
  ghost predicate CandidateRaises(models: seq<string>, chat: string -> Chat) {
    exists i :: 0 <= i < |models| && chat(models[i]).OtherError?
                && forall k :: 0 <= k < i ==> !GivesText(chat(models[k]))
  }

  lemma CandidateRaisesIff(models: seq<string>, chat: string -> Chat)
    ensures CandidateRaises(models, chat)
       <==> Deciding(models, chat) < |models| && chat(models[Deciding(models, chat)]).OtherError?
  {
    var d := Deciding(models, chat);
    if d < |models| && chat(models[d]).OtherError? {
      assert forall k :: 0 <= k < d ==> !GivesText(chat(models[k]));
    }
  }

  /** The reply to a question for the agent can be made. */
  ghost predicate AgentReplies(job: Job)
    requires job.resolution.Target?
  {
    var service := job.world.service;
    && !job.faults.flush && !service.Malformed?
    && (AgentFails(service) && job.world.configured ==>
          !CandidateRaises(job.resolution.template.models, job.world.chat))
  }

  lemma AgentGenerates(job: Job, text: string)
    requires ReachesAgent(job) && AsksTheAgent(job, text) && job.world.hits.Some?
    ensures Generate(job).Generated? <==> AgentReplies(job)
  {
    var models := job.resolution.template.models;
    assert UserText(job.message.value) == text;
    CandidateRaisesIff(models, job.world.chat);
    if RuntimeResult(job.world.service, models).Some? && !RuntimeResult(job.world.service, models).value.success {
      FallbackRaisesIff(job, RuntimeResult(job.world.service, models).value);
    }
  }

  lemma OthersGenerate(job: Job)
    requires ReachesAgent(job) && forall text :: !AsksTheAgent(job, text)
    ensures Generate(job).Generated? <==> job.world.hits.Some? || forall text :: !Asks(job, text)
  {
    var text := UserText(job.message.value);
    if text != "" {
      assert Asks(job, text) && !AsksTheAgent(job, text);
    }
  }

  /** A job commits exactly when it reaches the agent and the database takes its rows,
      the retrieval for a text has worked, and a question for the agent gets a reply.
      Otherwise it leaves nothing. */
  lemma JobCommitsIff(db: Tables, job: Job)
    ensures Commits(job)
       <==> && ReachesAgent(job) && !job.faults.commit
            && ((exists text :: Asks(job, text)) ==> job.world.hits.Some?)
            && ((exists text :: AsksTheAgent(job, text)) ==> AgentReplies(job))
    ensures !Commits(job) ==> AfterJob(db, job) == db && (SignalOf(job) == Raised <==> ReachesAgent(job))
  {
    if ReachesAgent(job) {
      if exists text :: AsksTheAgent(job, text) {
        var text :| AsksTheAgent(job, text);
        if job.world.hits.Some? {
          AgentGenerates(job, text);
        }
      } else {
        OthersGenerate(job);
      }
    }
  }
}
