/** The inbound execution job: one transaction that runs the agent for a message
    and leaves a runtime run, its audit event and an outbound intent. */
module InboundExecution {
  import opened Options
  import opened Outbound
  import Sequences
  import opened Text

  const CONFIRMATION: string := "Danke, wir haben deine Nachricht erhalten."

  datatype RunStatus = RunStarted | RunSucceeded | RunFailed | RunTimeout

  /** Every row carries the transaction that inserted it. */
  datatype Run = Run(
    tx: nat, message: string, binding: string, status: RunStatus, finished: bool, error: Option<string>)
  datatype Audit = Audit(tx: nat, message: string, run: string, status: RunStatus)
  datatype Intent = Intent(tx: nat, row: Row)
  datatype Tables = Tables(runs: map<string, Run>, audits: seq<Audit>, intents: map<string, Intent>)

  const NOTHING: Tables := Tables(map[], [], map[])

  function Plus(db: Tables, rows: Tables): Tables {
    Tables(db.runs + rows.runs, db.audits + rows.audits, db.intents + rows.intents)
  }

  // ------------------------------------------------------ what the job meets

  /** `body` of a run: `None` for a value that is not an object. */
  datatype Execution = Execution(timedOut: bool)

  /** The answer of the runtime agent to a run request. `Malformed` is a body that
      is no JSON object: reading it raises. */
  datatype Service =
    | RequestFails(error: string)
    | Malformed
    | Body(success: bool, error: string, text: string, execution: Option<Execution>,
           attempts: seq<Option<string>>, modelUsed: Option<string>)

  /** A completion of the chat API; only an integration error is handled. */
  datatype Chat = Text(text: string) | IntegrationError | OtherError

  datatype Command = Command(name: string, input: string)

  datatype World = World(
    hits: Option<nat>,
    command: string -> Option<Command>,
    upper: string -> string,
    service: Service,
    configured: bool,
    chat: string -> Chat)

  /** The template's tools and its model candidates, of which there is always one. */
  datatype Template = Template(tools: seq<string>, models: seq<string>)

  datatype Version = Version(deleted: bool, text: Option<string>)
  datatype MessageRow = MessageRow(id: string, providerId: string, latest: Option<Version>)
  datatype AgentState = Missing | Stopped | Usable(id: string)
  datatype Resolution =
    | NoBinding
    | NoSuccessfulBuild
    | Target(binding: string, rowsFound: bool, agent: AgentState, template: Template, imageRef: string)

  /** Where the database or the queue refuses. */
  datatype Faults = Faults(flush: bool, commit: bool, refresh: bool, enqueue: bool, mark: bool)

  datatype Job = Job(
    tx: nat, runId: string, intentId: string, at: string, trace: string, validId: bool, group: string,
    message: Option<MessageRow>, resolution: Resolution, world: World, faults: Faults)

  datatype Signal = Returned | Raised

  // -------------------------------------------------- the runtime agent call

  datatype Result = Result(
    success: bool, text: string, models: seq<string>, execution: Option<Execution>, error: string)

  /** The models of the attempts in order of first mention. */
  function AttemptModels(attempts: seq<Option<string>>): seq<string> {
    if attempts == [] then []
    else
      var front, last := AttemptModels(attempts[..|attempts| - 1]), attempts[|attempts| - 1];
      if last.Some? && last.value != "" && last.value !in front then front + [last.value] else front
  }

  /** Position of the first attempt on a model. */
  function FirstAttempt(attempts: seq<Option<string>>, model: string): nat {
    if attempts == [] || attempts[0] == Some(model) then 0 else 1 + FirstAttempt(attempts[1..], model)
  }

  lemma {:induction false} FirstAttemptSnoc(attempts: seq<Option<string>>, last: Option<string>, model: string)
    ensures FirstAttempt(attempts, model) <= |attempts|
    ensures FirstAttempt(attempts + [last], model)
         == if FirstAttempt(attempts, model) < |attempts| then FirstAttempt(attempts, model)
            else if last == Some(model) then |attempts| else |attempts| + 1
  {
    if attempts == [] {
      Sequences.Empty([last]);
      assert [last][1..] == [];
    } else {
      FirstAttemptSnoc(attempts[1..], last, model);
      Sequences.ConcatTail(attempts, [last]);
    }
  }

  /** The models are exactly the named ones of the attempts, once each, ordered by
      their first attempt. */
  lemma {:induction false} AttemptModelsLaws(attempts: seq<Option<string>>)
    ensures var models := AttemptModels(attempts);
            && (forall i, j :: 0 <= i < j < |models| ==> models[i] != models[j])
            && (forall m :: m in models <==> m != "" && FirstAttempt(attempts, m) < |attempts|)
            && (forall i, j :: 0 <= i < j < |models| ==>
                  FirstAttempt(attempts, models[i]) < FirstAttempt(attempts, models[j]))
  {
    if attempts != [] {
      var front, last := attempts[..|attempts| - 1], attempts[|attempts| - 1];
      AttemptModelsLaws(front);
      Sequences.Unsnoc(attempts);
      forall m: string
        ensures FirstAttempt(attempts, m) == if FirstAttempt(front, m) < |front| then FirstAttempt(front, m)
                                             else if last == Some(m) then |front| else |front| + 1
      {
        FirstAttemptSnoc(front, last, m);
      }
      var models := AttemptModels(front);
      forall i | 0 <= i < |models|
        ensures FirstAttempt(attempts, models[i]) < |front|
      {
        assert models[i] in models;
      }
    }
  }

  function FirstModel(models: seq<string>): seq<string> {
    if models == [] then [] else [models[0]]
  }

  function UsedModels(body: Service, models: seq<string>): seq<string>
    requires body.Body?
  {
    if AttemptModels(body.attempts) != [] then AttemptModels(body.attempts)
    else if body.modelUsed.Some? && body.modelUsed.value != "" then [body.modelUsed.value]
    else FirstModel(models)
  }

  /** `None` stands for the exception raised on a malformed body. */
  function RuntimeResult(service: Service, models: seq<string>): Option<Result> {
    match service
    case RequestFails(error) => Some(Result(false, "", [], None, error))
    case Malformed => None
    case Body(success, error, text, execution, _, _) =>
      if !success then
        Some(Result(false, "", [], execution, if error != "" then error else "runtime-agent unsuccessful"))
      else if Strip(text) == "" then
        Some(Result(false, "", [], execution, "runtime-agent returned empty response_text"))
      else Some(Result(true, Strip(text), UsedModels(service, models), execution, ""))
  }

  method RunViaRuntimeAgent(service: Service, modelPath: seq<string>) returns (result: Option<Result>)
    ensures result == RuntimeResult(service, modelPath)
  {
    if service.RequestFails? {
      return Some(Result(false, "", [], None, service.error));
    }
    if service.Malformed? {
      return None;
    }
    if !service.success {
      var error := if service.error != "" then service.error else "runtime-agent unsuccessful";
      return Some(Result(false, "", [], service.execution, error));
    }
    var responseText := Strip(service.text);
    if responseText == "" {
      return Some(Result(false, "", [], service.execution, "runtime-agent returned empty response_text"));
    }
    var attemptModels: seq<string> := [];
    for i := 0 to |service.attempts|
      invariant attemptModels == AttemptModels(service.attempts[..i])
    {
      assert service.attempts[..i + 1][..i] == service.attempts[..i];
      var model := service.attempts[i];
      if model.Some? && model.value != "" && model.value !in attemptModels {
        attemptModels := attemptModels + [model.value];
      }
    }
    assert service.attempts[..|service.attempts|] == service.attempts;
    if attemptModels == [] && service.modelUsed.Some? && service.modelUsed.value != "" {
      attemptModels := [service.modelUsed.value];
    }
    return Some(Result(
      true, responseText, if attemptModels != [] then attemptModels else FirstModel(modelPath), service.execution, ""));
  }

  function EndStatus(result: Result): RunStatus {
    if result.success then RunSucceeded
    else if result.execution.Some? && result.execution.value.timedOut then RunTimeout
    else RunFailed
  }

  // --------------------------------------------------------- the reply text

  datatype Asked = Answered(text: string, models: seq<string>) | AllFailed | AskRaised

  /** The candidates are asked in turn; `asked` were asked already. */
  function Ask(models: seq<string>, asked: seq<string>, chat: string -> Chat): Asked {
    if models == [] then AllFailed
    else
      match chat(models[0])
      case Text(text) =>
        if Strip(text) != "" then Answered(Strip(text), asked + [models[0]])
        else Ask(models[1..], asked + [models[0]], chat)
      case IntegrationError => Ask(models[1..], asked + [models[0]], chat)
      case OtherError => AskRaised
  }

  method AskModels(models: seq<string>, chat: string -> Chat) returns (asked: Asked)
    ensures asked == Ask(models, [], chat)
  {
    var attempted: seq<string> := [];
    for i := 0 to |models|
      invariant Ask(models[i..], attempted, chat) == Ask(models, [], chat)
    {
      assert models[i..][0] == models[i] && models[i..][1..] == models[i + 1..];
      attempted := attempted + [models[i]];
      match chat(models[i]) {
        case Text(text) =>
          if Strip(text) != "" {
            return Answered(Strip(text), attempted);
          }
        case IntegrationError =>
        case OtherError =>
          return AskRaised;
      }
    }
    return AllFailed;
  }

  const TOOL: string := "Tool `"
  const RESULT: string := "` Ergebnis:\n"
  const ECHO: string := "echo"
  const UPPERCASE: string := "uppercase"
  const NO_INPUT: string := "(leer)"
  const NOT_ALLOWED: string :=
    "` ist für diese Gruppe nicht freigeschaltet. Bitte wende dich an das Team für die Template-Konfiguration."
  const NOT_IMPLEMENTED: string := "` ist konfiguriert, aber aktuell nicht implementiert."

  /** The reply to a tool command, if the text is one. */
  function ToolReply(text: string, tools: seq<string>, w: World): Option<string> {
    if text == "" || w.command(text).None? then None
    else
      var name, input := w.command(text).value.name, w.command(text).value.input;
      if name !in tools then Some(TOOL + name + NOT_ALLOWED)
      else if name == ECHO then Some(TOOL + name + RESULT + (if input != "" then input else NO_INPUT))
      else if name == UPPERCASE then Some(TOOL + name + RESULT + w.upper(input))
      else Some(TOOL + name + NOT_IMPLEMENTED)
  }

  const THANKS: string := "Danke für deine Nachricht. "
  const FOUND: string := "Ich habe "
  const ENTRIES: string := " passende Kontexteinträge berücksichtigt.\n\n"
  const SHORT_ANSWER: string := "Kurzantwort: "

  function FallbackReply(text: string, hits: nat): string {
    var words := Join(" ", Words(text));
    if words == "" then CONFIRMATION
    else
      var short := if |words| > 240 then words[..240] + "…" else words;
      if hits > 0 then THANKS + FOUND + Decimal(hits) + ENTRIES + SHORT_ANSWER + short
      else THANKS + SHORT_ANSWER + short
  }

  // ------------------------------------------------------- the agent's reply

  datatype AgentReply = AgentReply(text: string, models: seq<string>, runId: Option<string>)

  /** What the generation of a reply ends in: an exception, or a reply and the
      rows it has added. */
  datatype Generation = GenerationRaised | Generated(reply: AgentReply, rows: Tables)

  /** A deleted or an empty version has no text. */
  function UserText(message: MessageRow): string {
    if message.latest.None? || message.latest.value.deleted || message.latest.value.text.None? then ""
    else Strip(message.latest.value.text.value)
  }

  /** Every condition under which the job goes on to the agent. */
  predicate ReachesAgent(job: Job) {
    && job.validId && job.message.Some? && job.resolution.Target? && job.resolution.rowsFound
    && job.resolution.agent.Usable? && job.resolution.imageRef != ""
  }

  function EndedRun(job: Job, result: Result): Run
    requires ReachesAgent(job)
  {
    Run(job.tx, job.message.value.id, job.resolution.binding, EndStatus(result), true,
        if result.success then None else Some(result.error))
  }

  function RunRows(job: Job, result: Result): Tables
    requires ReachesAgent(job)
  {
    Tables(map[job.runId := EndedRun(job, result)],
           [Audit(job.tx, job.message.value.id, job.runId, EndStatus(result))],
           map[])
  }

  /** The reply after the runtime agent has been asked. */
  function ReplyAfterRun(job: Job, result: Result): Option<AgentReply>
    requires ReachesAgent(job) && job.world.hits.Some?
  {
    var text, w, models := UserText(job.message.value), job.world, job.resolution.template.models;
    if result.success then Some(AgentReply(Strip(result.text), result.models, Some(job.runId)))
    else
      var asked := if w.configured then Ask(models, [], w.chat) else AllFailed;
      match asked
      case AskRaised => None
      case Answered(answer, used) => Some(AgentReply(answer, used, None))
      case AllFailed => Some(AgentReply(FallbackReply(text, w.hits.value), FirstModel(models), None))
  }

  function Generate(job: Job): Generation
    requires ReachesAgent(job)
  {
    var text, w, template := UserText(job.message.value), job.world, job.resolution.template;
    if text != "" && w.hits.None? then GenerationRaised
    else if ToolReply(text, template.tools, w).Some? then
      Generated(AgentReply(ToolReply(text, template.tools, w).value, [], None), NOTHING)
    else if text == "" then Generated(AgentReply(CONFIRMATION, FirstModel(template.models), None), NOTHING)
    else if job.faults.flush || RuntimeResult(w.service, template.models).None? then GenerationRaised
    else
      var result := RuntimeResult(w.service, template.models).value;
      var reply := ReplyAfterRun(job, result);
      if reply.None? then GenerationRaised else Generated(reply.value, RunRows(job, result))
  }

  function Payload(job: Job, reply: AgentReply): Fields
    requires ReachesAgent(job)
  {
    map["trace_id" := Str(job.trace),
        "provider_group_id" := Str(job.group),
        "reply_to_provider_message_id" := Str(job.message.value.providerId),
        "text" := Str(reply.text),
        "metadata" := Obj(map[
          "agent_instance_id" := Str(job.resolution.agent.id),
          "binding_id" := Str(job.resolution.binding),
          "image_ref" := Str(job.resolution.imageRef),
          "runtime_run_id" := if reply.runId.Some? && reply.runId.value != "" then Str(reply.runId.value) else Null,
          "model_path" := Arr(Strings(reply.models))])]
  }

  function IntentRows(job: Job, reply: AgentReply): Tables
    requires ReachesAgent(job)
  {
    var row := CreatedRow(job.group, job.intentId, Mapping(Payload(job, reply)), job.at);
    Tables(map[], [], if row.Some? then map[job.intentId := Intent(job.tx, row.value)] else map[])
  }

  /** The rows that the job asks the database to commit, if it gets that far. */
  function Rows(job: Job): Option<Tables> {
    if ReachesAgent(job) && Generate(job).Generated?
    then Some(Plus(Generate(job).rows, IntentRows(job, Generate(job).reply)))
    else None
  }

  predicate Commits(job: Job) {
    Rows(job).Some? && !job.faults.commit
  }

  function Committed(db: Tables, job: Job): Tables {
    if Commits(job) then Plus(db, Rows(job).value) else db
  }

  const ENQUEUE_ERROR: string := "inbound_execution_dispatch_enqueue_failed"

  /** The mark of an intent whose dispatch could not be queued. */
  function EnqueueMark(job: Job): Mark {
    MarkFailed(job.at, Some(ENQUEUE_ERROR), Some("enqueue failed"), None, None)
  }

  function MarkIntentRow(db: Tables, id: string, loaded: Row, mark: Mark): Tables
    requires id in db.intents
  {
    db.(intents := db.intents[id := db.intents[id].(row := Apply(db.intents[id].row, loaded, mark))])
  }

  predicate MarksOwnIntent(job: Job) {
    Commits(job) && !job.faults.refresh && job.faults.enqueue && !job.faults.mark
  }

  /** A committed job adds its outbound intent. */
  lemma CommitAddsIntent(db: Tables, job: Job)
    requires Commits(job)
    ensures job.intentId in Committed(db, job).intents
    ensures Committed(db, job).intents[job.intentId].tx == job.tx
  {
    var reply := Generate(job).reply;
    assert "_dispatch" !in Payload(job, reply);
  }

  function AfterJob(db: Tables, job: Job): Tables {
    if MarksOwnIntent(job) then
      CommitAddsIntent(db, job);
      var committed := Committed(db, job);
      MarkIntentRow(committed, job.intentId, committed.intents[job.intentId].row, EnqueueMark(job))
    else Committed(db, job)
  }

  function SignalOf(job: Job): Signal {
    if !ReachesAgent(job) then Returned
    else if !Commits(job) || job.faults.refresh || (job.faults.enqueue && job.faults.mark) then Raised
    else Returned
  }

  /** The reply after the runtime agent has been asked; `None` stands for an
      exception. */
  method ReplyTo(job: Job, result: Result) returns (reply: Option<AgentReply>)
    requires ReachesAgent(job) && job.world.hits.Some?
    ensures reply == ReplyAfterRun(job, result)
  {
    var w, models := job.world, job.resolution.template.models;
    if result.success {
      return Some(AgentReply(Strip(result.text), result.models, Some(job.runId)));
    }
    if w.configured {
      var asked := AskModels(models, w.chat);
      if asked.AskRaised? {
        return None;
      }
      if asked.Answered? {
        return Some(AgentReply(asked.text, asked.models, None));
      }
    }
    return Some(AgentReply(FallbackReply(UserText(job.message.value), w.hits.value), FirstModel(models), None));
  }

  /** A database session: the committed rows, and the rows that the open
      transaction has added. */
  class Session {
    var committed: Tables
    var pending: Tables

    constructor (db: Tables)
      ensures committed == db && pending == NOTHING
    {
      committed, pending := db, NOTHING;
    }

    method Commit(refused: bool) returns (done: bool)
      modifies this
      ensures done == !refused && pending == NOTHING
      ensures committed == if done then Plus(old(committed), old(pending)) else old(committed)
    {
      done := !refused;
      if done {
        committed := Plus(committed, pending);
      }
      pending := NOTHING;
    }

    /** Adds the run as started, asks the runtime agent and ends the run; `None`
        stands for an exception. */
    method RunAndRecord(job: Job) returns (result: Option<Result>)
      requires ReachesAgent(job) && pending == NOTHING
      modifies this`pending
      ensures result == RuntimeResult(job.world.service, job.resolution.template.models)
      ensures result.Some? ==> pending == RunRows(job, result.value)
    {
      var run := Run(job.tx, job.message.value.id, job.resolution.binding, RunStarted, false, None);
      pending := pending.(runs := pending.runs[job.runId := run]);
      result := RunViaRuntimeAgent(job.world.service, job.resolution.template.models);
      if result.None? {
        return;
      }
      run := run.(finished := true);
      if result.value.success {
        run := run.(status := RunSucceeded, error := None);
      } else {
        var timedOut := result.value.execution.Some? && result.value.execution.value.timedOut;
        run := run.(status := if timedOut then RunTimeout else RunFailed, error := Some(result.value.error));
      }
      pending := pending.(
        runs := pending.runs[job.runId := run],
        audits := pending.audits + [Audit(job.tx, job.message.value.id, job.runId, run.status)]);
    }

    /** `_generate_agent_reply`; `None` stands for an exception. */
    method GenerateAgentReply(job: Job) returns (reply: Option<AgentReply>)
      requires ReachesAgent(job) && pending == NOTHING
      modifies this`pending
      ensures reply.None? <==> Generate(job).GenerationRaised?
      ensures reply.Some? ==> Generate(job) == Generated(reply.value, pending)
    {
      var text, w, template := UserText(job.message.value), job.world, job.resolution.template;
      if text != "" && w.hits.None? {
        return None;
      }
      var toolReply := ToolReply(text, template.tools, w);
      if toolReply.Some? {
        return Some(AgentReply(toolReply.value, [], None));
      }
      if text == "" {
        return Some(AgentReply(CONFIRMATION, FirstModel(template.models), None));
      }
      if job.faults.flush {
        return None;
      }
      var result := RunAndRecord(job);
      if result.None? {
        return None;
      }
      reply := ReplyTo(job, result.value);
    }

    /** `create_outbound_intent` in the job's session: it commits everything that
        the session has added. */
    method CreateIntent(job: Job, reply: AgentReply) returns (done: bool)
      requires ReachesAgent(job)
      modifies this
      ensures done == !job.faults.commit && pending == NOTHING
      ensures committed == if done then Plus(old(committed), Plus(old(pending), IntentRows(job, reply)))
                           else old(committed)
    {
      var row := CreatedRow(job.group, job.intentId, Mapping(Payload(job, reply)), job.at);
      assert row.Some? by {
        assert "_dispatch" !in Payload(job, reply);
      }
      ghost var before := pending;
      pending := pending.(intents := pending.intents[job.intentId := Intent(job.tx, row.value)]);
      assert pending == Plus(before, IntentRows(job, reply));
      done := Commit(job.faults.commit);
    }

    /** `process_inbound_message_job`. Whatever it does not commit is gone when it
        ends. */
    method ProcessInboundMessage(job: Job) returns (signal: Signal)
      requires pending == NOTHING
      modifies this
      ensures committed == AfterJob(old(committed), job) && pending == NOTHING
      ensures signal == SignalOf(job)
      ensures !job.validId || job.message.None? || !job.resolution.Target? || !job.resolution.rowsFound
              || !job.resolution.agent.Usable? || job.resolution.imageRef == "" ==>
                committed == old(committed) && signal == Returned
    {
      if !job.validId || job.message.None? {
        return Returned;
      }
      if !job.resolution.Target? || !job.resolution.rowsFound {
        return Returned;
      }
      if !job.resolution.agent.Usable? || job.resolution.imageRef == "" {
        return Returned;
      }
      var reply := GenerateAgentReply(job);
      if reply.None? {
        pending := NOTHING;
        return Raised;
      }
      var done := CreateIntent(job, reply.value);
      if !done || job.faults.refresh {
        return Raised;
      }
      CommitAddsIntent(old(committed), job);
      if job.faults.enqueue {
        if job.faults.mark {
          return Raised;
        }
        committed := MarkIntentRow(
          committed, job.intentId, committed.intents[job.intentId].row, EnqueueMark(job));
      }
      return Returned;
    }
  }

  // --------------------------------------------------------- all the jobs

  /** Jobs commit in any order, and sessions that hold some earlier copy of an
      intent mark it. */
  datatype Step = Commit(job: Job) | MarkIntent(id: string, loaded: Row, mark: Mark)

  /** The ids that the job draws are unused. */
  ghost predicate Fresh(db: Tables, job: Job) {
    && job.runId !in db.runs && job.intentId !in db.intents && job.runId != ""
    && (forall r :: r in db.runs ==> db.runs[r].tx != job.tx)
    && (forall k :: k in db.intents ==> db.intents[k].tx != job.tx)
  }

  /** Messages keep their provider ids, and an intent is marked by a session that
      has read it. */
  ghost predicate Enabled(db: Tables, step: Step, providers: string -> string) {
    match step
    case Commit(job) =>
      && Fresh(db, job)
      && (job.message.Some? ==> job.message.value.providerId == providers(job.message.value.id))
    case MarkIntent(id, loaded, mark) =>
      id in db.intents && Outside(loaded.payload) == Outside(db.intents[id].row.payload)
  }

  function Next(db: Tables, step: Step): Tables {
    match step
    case Commit(job) => Committed(db, job)
    case MarkIntent(id, loaded, mark) => if id in db.intents then MarkIntentRow(db, id, loaded, mark) else db
  }

  ghost predicate Possible(db: Tables, steps: seq<Step>, providers: string -> string)
    decreases |steps|
  {
    steps == [] || (Enabled(db, steps[0], providers) && Possible(Next(db, steps[0]), steps[1..], providers))
  }

  function After(db: Tables, steps: seq<Step>): Tables
    decreases |steps|
  {
    if steps == [] then db else After(Next(db, steps[0]), steps[1..])
  }

  function NamedRun(intent: Intent): Json {
    var metadata := Get(intent.row.payload, "metadata");
    if metadata.Obj? then Get(metadata.fields, "runtime_run_id") else Null
  }

  function RepliesTo(intent: Intent): Json {
    Get(intent.row.payload, "reply_to_provider_message_id")
  }

  /** Runs have ended and have their audit event. */
  ghost predicate RunsAreAudited(db: Tables) {
    forall r :: r in db.runs ==>
      && db.runs[r].status != RunStarted && db.runs[r].finished
      && Audit(db.runs[r].tx, db.runs[r].message, r, db.runs[r].status) in db.audits
  }

  /** There is no other audit event. */
  ghost predicate OneAuditPerRun(db: Tables) {
    && (forall a :: 0 <= a < |db.audits| ==> db.audits[a].run in db.runs)
    && (forall a, b :: 0 <= a < b < |db.audits| ==> db.audits[a].run != db.audits[b].run)
  }

  /** A transaction inserts at most one intent and at most one run. */
  ghost predicate OneRowPerTransaction(db: Tables) {
    && (forall k, l :: k in db.intents && l in db.intents && db.intents[k].tx == db.intents[l].tx ==> k == l)
    && (forall r, q :: r in db.runs && q in db.runs && db.runs[r].tx == db.runs[q].tx ==> r == q)
  }

  /** Each run has an intent of its transaction, which replies to its message and
      names the run exactly when the run succeeded. */
  ghost predicate IntentOf(db: Tables, r: string, k: string, providers: string -> string)
    requires r in db.runs
  {
    && k in db.intents && db.intents[k].tx == db.runs[r].tx
    && RepliesTo(db.intents[k]) == Str(providers(db.runs[r].message))
    && NamedRun(db.intents[k]) == if db.runs[r].status == RunSucceeded then Str(r) else Null
  }

  ghost predicate RunsHaveIntents(db: Tables, providers: string -> string) {
    forall r :: r in db.runs ==> exists k :: IntentOf(db, r, k, providers)
  }

  function TextOf(intent: Intent): Json {
    Get(intent.row.payload, "text")
  }

  /** The intent has a text, and a run that it names was committed with it. */
  ghost predicate Sound(db: Tables, intent: Intent) {
    && TextOf(intent).Str? && TextOf(intent).s != ""
    && (NamedRun(intent) == Null
        || (NamedRun(intent).Str? && NamedRun(intent).s in db.runs
            && db.runs[NamedRun(intent).s].tx == intent.tx
            && db.runs[NamedRun(intent).s].status == RunSucceeded))
  }

  ghost predicate IntentsAreSound(db: Tables) {
    forall k :: k in db.intents ==> Sound(db, db.intents[k])
  }

  ghost predicate Consistent(db: Tables, providers: string -> string) {
    && RunsAreAudited(db) && OneAuditPerRun(db) && OneRowPerTransaction(db)
    && RunsHaveIntents(db, providers) && IntentsAreSound(db)
  }

  lemma {:induction false} AnswersAreNotEmpty(models: seq<string>, asked: seq<string>, chat: string -> Chat)
    ensures Ask(models, asked, chat).Answered? ==> Ask(models, asked, chat).text != ""
    decreases |models|
  {
    if models != [] {
      AnswersAreNotEmpty(models[1..], asked + [models[0]], chat);
    }
  }

  lemma ResultTextIsNotEmpty(service: Service, models: seq<string>)
    requires RuntimeResult(service, models).Some? && RuntimeResult(service, models).value.success
    ensures Strip(RuntimeResult(service, models).value.text) != ""
  {
    StripStripped(Strip(service.text));
  }

  lemma ToolReplyIsNotEmpty(text: string, tools: seq<string>, w: World)
    ensures ToolReply(text, tools, w).Some? ==> ToolReply(text, tools, w).value != ""
  {
  }

  lemma FallbackIsNotEmpty(text: string, hits: nat)
    ensures FallbackReply(text, hits) != ""
  {
  }

  lemma ReplyAfterRunLaws(job: Job, result: Result)
    requires ReachesAgent(job) && job.world.hits.Some?
    requires RuntimeResult(job.world.service, job.resolution.template.models) == Some(result)
    requires ReplyAfterRun(job, result).Some?
    ensures ReplyAfterRun(job, result).value.text != ""
    ensures ReplyAfterRun(job, result).value.runId == if result.success then Some(job.runId) else None
  {
    var models := job.resolution.template.models;
    AnswersAreNotEmpty(models, [], job.world.chat);
    FallbackIsNotEmpty(UserText(job.message.value), job.world.hits.value);
    if result.success {
      ResultTextIsNotEmpty(job.world.service, models);
    }
  }

  /** Without a run, a reply names none; after one, the rows are the run and its
      audit event. */
  lemma GenerationCases(job: Job)
    requires ReachesAgent(job) && Generate(job).Generated?
    ensures var reply, rows := Generate(job).reply, Generate(job).rows;
            var ran := RuntimeResult(job.world.service, job.resolution.template.models);
            || (rows == NOTHING && reply.runId.None? && reply.text != "")
            || (job.world.hits.Some? && ran.Some? && rows == RunRows(job, ran.value)
                && ReplyAfterRun(job, ran.value) == Some(reply))
  {
    ToolReplyIsNotEmpty(UserText(job.message.value), job.resolution.template.tools, job.world);
  }

  /** The reply text is never empty, and a reply names the run exactly when the
      run succeeded. */
  lemma ReplyLaws(job: Job)
    requires ReachesAgent(job) && Generate(job).Generated?
    ensures var reply, rows := Generate(job).reply, Generate(job).rows;
            && reply.text != ""
            && (reply.runId.Some? <==> job.runId in rows.runs && rows.runs[job.runId].status == RunSucceeded)
            && (reply.runId.Some? ==> reply.runId.value == job.runId)
  {
    GenerationCases(job);
    var ran := RuntimeResult(job.world.service, job.resolution.template.models);
    if Generate(job).rows != NOTHING {
      ReplyAfterRunLaws(job, ran.value);
    }
  }

  /** What a job commits: one intent, with a text and a reply to the message; and
      either nothing else, or one run with its audit event. */
  ghost predicate Shape(job: Job, rows: Tables)
    requires job.message.Some?
  {
    && rows.intents.Keys == {job.intentId} && rows.intents[job.intentId].tx == job.tx
    && TextOf(rows.intents[job.intentId]).Str? && TextOf(rows.intents[job.intentId]).s != ""
    && RepliesTo(rows.intents[job.intentId]) == Str(job.message.value.providerId)
    && (rows.runs == map[] ==> rows.audits == [] && NamedRun(rows.intents[job.intentId]) == Null)
    && (rows.runs != map[] ==>
          && rows.runs.Keys == {job.runId}
          && (var run := rows.runs[job.runId];
              && run.tx == job.tx && run.message == job.message.value.id
              && run.status != RunStarted && run.finished
              && rows.audits == [Audit(job.tx, run.message, job.runId, run.status)]
              && NamedRun(rows.intents[job.intentId]) == if run.status == RunSucceeded then Str(job.runId) else Null))
  }

  lemma CreatedPayload(job: Job, reply: AgentReply)
    requires ReachesAgent(job)
    ensures var rows, payload := IntentRows(job, reply), Payload(job, reply);
            && rows.intents.Keys == {job.intentId} && rows.intents[job.intentId].tx == job.tx
            && (forall key :: key in payload ==> Get(rows.intents[job.intentId].row.payload, key) == payload[key])
  {
    assert "_dispatch" !in Payload(job, reply);
  }

  lemma CreatedIntent(job: Job, reply: AgentReply)
    requires ReachesAgent(job) && (reply.runId.Some? ==> reply.runId.value != "")
    ensures var rows := IntentRows(job, reply);
            && rows.intents.Keys == {job.intentId} && rows.intents[job.intentId].tx == job.tx
            && TextOf(rows.intents[job.intentId]) == Str(reply.text)
            && RepliesTo(rows.intents[job.intentId]) == Str(job.message.value.providerId)
            && NamedRun(rows.intents[job.intentId]) == TextOrNull(reply.runId)
  {
    CreatedPayload(job, reply);
    var payload := Payload(job, reply);
    assert "text" in payload && "reply_to_provider_message_id" in payload && "metadata" in payload;
  }

  lemma CommitShape(job: Job)
    requires Commits(job) && job.runId != ""
    ensures Shape(job, Rows(job).value)
  {
    var reply, made := Generate(job).reply, Generate(job).rows;
    assert Rows(job).value == Plus(made, IntentRows(job, reply));
    assert made == NOTHING || exists result :: made == RunRows(job, result) by {
      GenerationCases(job);
    }
    ReplyLaws(job);
    ShapeOf(job, reply, made);
  }

  lemma ShapeOf(job: Job, reply: AgentReply, made: Tables)
    requires ReachesAgent(job) && job.runId != "" && reply.text != ""
    requires made == NOTHING || exists result :: made == RunRows(job, result)
    requires reply.runId.Some? <==> job.runId in made.runs && made.runs[job.runId].status == RunSucceeded
    requires reply.runId.Some? ==> reply.runId.value == job.runId
    ensures Shape(job, Plus(made, IntentRows(job, reply)))
  {
    CreatedIntent(job, reply);
    var rows := Plus(made, IntentRows(job, reply));
    assert rows.intents == IntentRows(job, reply).intents;
    assert rows.runs == made.runs && rows.audits == made.audits;
  }

  lemma CommitKeepsAudits(db: Tables, job: Job, rows: Tables)
    requires RunsAreAudited(db) && OneAuditPerRun(db) && Fresh(db, job)
    requires job.message.Some? && Shape(job, rows)
    ensures RunsAreAudited(Plus(db, rows)) && OneAuditPerRun(Plus(db, rows))
  {
    var after := Plus(db, rows);
    forall r | r in after.runs
      ensures after.runs[r].status != RunStarted && after.runs[r].finished
      ensures Audit(after.runs[r].tx, after.runs[r].message, r, after.runs[r].status) in after.audits
    {
      if r in rows.runs {
        assert rows.audits[0] in after.audits;
      }
    }
    forall a | 0 <= a < |after.audits|
      ensures a < |db.audits| ==> after.audits[a] == db.audits[a]
      ensures a >= |db.audits| ==> a == |db.audits| && after.audits[a].run == job.runId && job.runId in rows.runs
    {
    }
  }

  lemma CommitKeepsTransactions(db: Tables, job: Job, rows: Tables)
    requires OneRowPerTransaction(db) && Fresh(db, job)
    requires job.message.Some? && Shape(job, rows)
    ensures OneRowPerTransaction(Plus(db, rows))
  {
  }

  lemma CommitKeepsIntentOf(db: Tables, job: Job, rows: Tables, r: string, k: string, providers: string -> string)
    requires Fresh(db, job) && job.message.Some? && Shape(job, rows)
    requires r in db.runs && IntentOf(db, r, k, providers)
    ensures IntentOf(Plus(db, rows), r, k, providers)
  {
  }

  lemma CommitKeepsRunsHaveIntents(db: Tables, job: Job, rows: Tables, providers: string -> string)
    requires RunsHaveIntents(db, providers) && Fresh(db, job)
    requires job.message.Some? && Shape(job, rows)
    requires job.message.value.providerId == providers(job.message.value.id)
    ensures RunsHaveIntents(Plus(db, rows), providers)
  {
    var after := Plus(db, rows);
    forall r | r in after.runs
      ensures exists k :: IntentOf(after, r, k, providers)
    {
      if r in rows.runs {
        assert IntentOf(after, r, job.intentId, providers);
      } else {
        var k :| IntentOf(db, r, k, providers);
        CommitKeepsIntentOf(db, job, rows, r, k, providers);
      }
    }
  }

  lemma CommitKeepsSound(db: Tables, job: Job, rows: Tables, intent: Intent)
    requires Fresh(db, job) && job.message.Some? && Shape(job, rows)
    requires Sound(db, intent) || intent == rows.intents[job.intentId]
    ensures Sound(Plus(db, rows), intent)
  {
  }

  lemma CommitKeepsIntentsSound(db: Tables, job: Job, rows: Tables)
    requires IntentsAreSound(db) && Fresh(db, job) && job.message.Some? && Shape(job, rows)
    ensures IntentsAreSound(Plus(db, rows))
  {
    var after := Plus(db, rows);
    forall k | k in after.intents
      ensures Sound(after, after.intents[k])
    {
      CommitKeepsSound(db, job, rows, after.intents[k]);
    }
  }

  /** A mark leaves everything but the metadata of the delivery alone. */
  lemma MarkKeepsPayload(row: Row, loaded: Row, mark: Mark, key: string)
    requires Outside(loaded.payload) == Outside(row.payload) && key != "_dispatch"
    ensures Get(Apply(row, loaded, mark).payload, key) == Get(row.payload, key)
  {
    assert key in row.payload <==> key in Outside(row.payload);
    assert key in loaded.payload <==> key in Outside(loaded.payload);
    if key in row.payload {
      assert Outside(row.payload)[key] == row.payload[key];
      assert Outside(loaded.payload)[key] == loaded.payload[key];
    }
  }

  /** What the invariant says of an intent does not depend on its marks. */
  lemma MarkKeepsIntent(intent: Intent, loaded: Row, mark: Mark)
    requires Outside(loaded.payload) == Outside(intent.row.payload)
    ensures var marked := intent.(row := Apply(intent.row, loaded, mark));
            && TextOf(marked) == TextOf(intent) && RepliesTo(marked) == RepliesTo(intent)
            && NamedRun(marked) == NamedRun(intent) && marked.tx == intent.tx
  {
    MarkKeepsPayload(intent.row, loaded, mark, "text");
    MarkKeepsPayload(intent.row, loaded, mark, "reply_to_provider_message_id");
    MarkKeepsPayload(intent.row, loaded, mark, "metadata");
  }

  /** Two tables that differ at most in the marks of their intents. */
  ghost predicate SameButMarks(db: Tables, after: Tables) {
    && db.runs == after.runs && db.audits == after.audits && db.intents.Keys == after.intents.Keys
    && forall k :: k in db.intents ==>
         && db.intents[k].tx == after.intents[k].tx
         && TextOf(db.intents[k]) == TextOf(after.intents[k])
         && RepliesTo(db.intents[k]) == RepliesTo(after.intents[k])
         && NamedRun(db.intents[k]) == NamedRun(after.intents[k])
  }

  lemma MarksKeepRunsHaveIntents(db: Tables, after: Tables, providers: string -> string)
    requires RunsHaveIntents(db, providers) && SameButMarks(db, after)
    ensures RunsHaveIntents(after, providers)
  {
    forall r | r in after.runs
      ensures exists k :: IntentOf(after, r, k, providers)
    {
      var k :| IntentOf(db, r, k, providers);
      assert IntentOf(after, r, k, providers);
    }
  }

  lemma MarksKeepConsistent(db: Tables, after: Tables, providers: string -> string)
    requires Consistent(db, providers) && SameButMarks(db, after)
    ensures Consistent(after, providers)
  {
    MarksKeepRunsHaveIntents(db, after, providers);
    forall k | k in after.intents
      ensures Sound(after, after.intents[k])
    {
      assert Sound(db, db.intents[k]);
    }
  }

  lemma CommitKeepsConsistent(db: Tables, job: Job, providers: string -> string)
    requires Consistent(db, providers) && Enabled(db, Commit(job), providers)
    ensures Consistent(Committed(db, job), providers)
  {
    if Commits(job) {
      var rows := Rows(job).value;
      CommitShape(job);
      CommitKeepsAudits(db, job, rows);
      CommitKeepsTransactions(db, job, rows);
      CommitKeepsRunsHaveIntents(db, job, rows, providers);
      CommitKeepsIntentsSound(db, job, rows);
    }
  }

  lemma MarkKeepsRest(db: Tables, id: string, loaded: Row, mark: Mark)
    requires id in db.intents && Outside(loaded.payload) == Outside(db.intents[id].row.payload)
    ensures SameButMarks(db, MarkIntentRow(db, id, loaded, mark))
  {
    MarkKeepsIntent(db.intents[id], loaded, mark);
  }

  /** Every step of every interleaving keeps the tables consistent. */
  lemma {:induction false} JobsStayConsistent(db: Tables, steps: seq<Step>, providers: string -> string)
    requires Consistent(db, providers) && Possible(db, steps, providers)
    ensures Consistent(After(db, steps), providers)
    decreases |steps|
  {
    if steps != [] {
      var next := Next(db, steps[0]);
      assert Consistent(next, providers) by {
        match steps[0]
        case Commit(job) =>
          CommitKeepsConsistent(db, job, providers);
        case MarkIntent(id, loaded, mark) =>
          MarkKeepsRest(db, id, loaded, mark);
          MarksKeepConsistent(db, next, providers);
      }
      JobsStayConsistent(next, steps[1..], providers);
    }
  }

  /** The job is these steps, taken with nothing in between. */
  function StepsOf(db: Tables, job: Job): seq<Step> {
    if MarksOwnIntent(job) then
      CommitAddsIntent(db, job);
      [Commit(job), MarkIntent(job.intentId, Committed(db, job).intents[job.intentId].row, EnqueueMark(job))]
    else [Commit(job)]
  }

  lemma JobIsItsSteps(db: Tables, job: Job, providers: string -> string)
    requires Enabled(db, Commit(job), providers)
    ensures Possible(db, StepsOf(db, job), providers)
    ensures After(db, StepsOf(db, job)) == AfterJob(db, job)
  {
    var steps, committed := StepsOf(db, job), Committed(db, job);
    assert After(committed, steps[1..]) == AfterJob(db, job) && Possible(committed, steps[1..], providers) by {
      if MarksOwnIntent(job) {
        CommitAddsIntent(db, job);
        assert steps[1..][1..] == [];
      } else {
        assert steps[1..] == [];
      }
    }
  }

  // ------------------------------------------------ runs that are not kept

  predicate GivesText(reply: Chat) {
    reply.Text? && Strip(reply.text) != ""
  }

  /** Position of the first candidate that answers or raises. */
  function Deciding(models: seq<string>, chat: string -> Chat): (i: nat)
    ensures i <= |models|
    ensures forall j :: 0 <= j < i ==> !GivesText(chat(models[j])) && !chat(models[j]).OtherError?
    ensures i < |models| ==> GivesText(chat(models[i])) || chat(models[i]).OtherError?
  {
    if models == [] || GivesText(chat(models[0])) || chat(models[0]).OtherError? then 0
    else 1 + Deciding(models[1..], chat)
  }

  /** The first candidate that answers or raises decides; blank answers and
      integration errors pass on. */
  lemma {:induction false} AskIsDecidedByFirst(models: seq<string>, asked: seq<string>, chat: string -> Chat)
    ensures var i := Deciding(models, chat);
            Ask(models, asked, chat) ==
              if i == |models| then AllFailed
              else if chat(models[i]).OtherError? then AskRaised
              else Answered(Strip(chat(models[i]).text), asked + models[..i + 1])
    decreases |models|
  {
    if models != [] {
      var i := Deciding(models, chat);
      if i == 0 {
        assert models[..1] == [models[0]];
      } else {
        AskIsDecidedByFirst(models[1..], asked + [models[0]], chat);
        if i < |models| {
          assert models[..i + 1] == [models[0]] + models[1..][..i];
          Sequences.Assoc(asked, [models[0]], models[1..][..i]);
        }
      }
    }
  }

  /** The job has asked the runtime agent, which had no success. */
  ghost predicate RanInVain(job: Job) {
    && ReachesAgent(job) && !job.faults.flush
    && var text, w, template := UserText(job.message.value), job.world, job.resolution.template;
       && text != "" && w.hits.Some? && ToolReply(text, template.tools, w).None?
       && RuntimeResult(w.service, template.models).Some?
       && !RuntimeResult(w.service, template.models).value.success
  }

  lemma VainRunGenerates(job: Job)
    requires RanInVain(job)
    ensures var result := RuntimeResult(job.world.service, job.resolution.template.models).value;
            Generate(job) == match ReplyAfterRun(job, result)
                             case None => GenerationRaised
                             case Some(reply) => Generated(reply, RunRows(job, result))
  {
  }

  /** Whether the fallback raises: a candidate raises before one answers. */
  predicate FallbackRaises(job: Job)
    requires job.resolution.Target?
  {
    var w, models := job.world, job.resolution.template.models;
    var i := Deciding(models, w.chat);
    w.configured && i < |models| && w.chat(models[i]).OtherError?
  }

  lemma FallbackRaisesIff(job: Job, result: Result)
    requires ReachesAgent(job) && job.world.hits.Some? && !result.success
    ensures ReplyAfterRun(job, result).None? <==> FallbackRaises(job)
  {
    AskIsDecidedByFirst(job.resolution.template.models, [], job.world.chat);
  }

  /** A run that did not succeed leaves a row exactly when the commit is accepted
      and no candidate of the fallback raises before one answers: a transport
      error there discards the run, its audit event and the reply. */
  lemma UnsuccessfulRunIsKeptIff(db: Tables, job: Job)
    requires Fresh(db, job) && RanInVain(job)
    ensures job.runId in Committed(db, job).runs <==> !job.faults.commit && !FallbackRaises(job)
    ensures job.runId !in Committed(db, job).runs ==> Committed(db, job) == db && SignalOf(job) == Raised
  {
    var result := RuntimeResult(job.world.service, job.resolution.template.models).value;
    VainRunGenerates(job);
    FallbackRaisesIff(job, result);
  }
}
