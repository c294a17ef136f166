/** The delivery protocol of one outbound intent: the dispatch job in its queue, with
    every commit and every read of the row a step of its own, and status reports of
    the gateway in between. */
module DeliveryRuns {
  import opened Delivery
  import opened Numbers
  import opened Options
  import opened Outbound
  import Sequences

  /** Where the job is. A session works on the copy of the row that it has read:
      before its first mark (`Loaded`), while the send is under way (`Running`), in
      the generic handler (`Failing`). `Committed` is the moment between the first
      mark and the second read of the row, `RolledBack` the one between an
      unexpected exception and the handler's read. */
  datatype Job =
    | Queued(retries: nat)
    | Loaded(retries: nat, copy: Row)
    | Committed(retries: nat)
    | Running(retries: nat, copy: Row)
    | RolledBack(retries: nat, message: string)
    | Failing(retries: nat, copy: Row, message: string)
    | Finished

  /** `reports` are the open sessions of the status endpoint with their copies of the
      row. `delivered` counts the sends that the gateway carries out. */
  datatype World = World(row: Row, job: Job, reports: map<nat, Row>, sends: nat, delivered: nat)

  datatype Step =
    | Load
    | MarkStart(at: string, ending: Ending)
    | Reload
    | Finish(reply: Reply, carriedOut: bool, at: string, delay: Option<int>, ending: Ending)
    | Reread
    | Fallback(at: string, ending: Ending)
    | ReportLoad(id: nat)
    | ReportCommit(id: nat, mark: Mark)
    | ReportDrop(id: nat)

  /** The queue tries a job again after an exception while it has retries left. */
  function Requeue(signal: Signal, retries: nat): Job {
    if signal == Raised && retries > 0 then Queued(retries - 1) else Finished
  }

  /** A success reply comes only for a send that was carried out. */
  predicate Enabled(s: World, step: Step) {
    match step
    case Load => s.job.Queued?
    case MarkStart(_, _) => s.job.Loaded?
    case Reload => s.job.Committed?
    case Finish(reply, carriedOut, _, _, _) => s.job.Running? && (IsSuccessReply(reply) ==> carriedOut)
    case Reread => s.job.RolledBack?
    case Fallback(_, _) => s.job.Failing?
    case ReportLoad(id) => id !in s.reports
    case ReportCommit(id, mark) => id in s.reports && !mark.MarkSending?
    case ReportDrop(id) => id in s.reports
  }

  function Do(s: World, step: Step): World
    requires Enabled(s, step)
  {
    match step
    case Load => s.(job := if s.row.status == Sent then Finished else Loaded(s.job.retries, s.row))
    case MarkStart(at, ending) =>
      var row := if ending == Refused then s.row else Apply(s.row, s.job.copy, MarkSending(at));
      s.(row := row,
         job := if ending == Confirmed then Committed(s.job.retries)
                else RolledBack(s.job.retries, DATABASE_ERROR))
    case Reload => s.(job := Running(s.job.retries, s.row), sends := s.sends + 1)
    case Finish(reply, carriedOut, at, delay, ending) =>
      var row := AfterMark(s.row, s.job.copy, reply, s.job.retries, at, delay, ending);
      s.(row := row,
         job := if Unexpected(reply, ending) then RolledBack(s.job.retries, FailureText(reply))
                else Requeue(SignalOf(reply, ending), s.job.retries),
         delivered := s.delivered + if carriedOut then 1 else 0)
    case Reread => s.(job := Failing(s.job.retries, s.row, s.job.message))
    case Fallback(at, ending) =>
      s.(row := AfterFallback(s.row, s.job.copy, s.job.message, at, ending),
         job := Requeue(Raised, s.job.retries))
    case ReportLoad(id) => s.(reports := s.reports[id := s.row])
    case ReportCommit(id, mark) =>
      s.(row := Apply(s.row, s.reports[id], mark), reports := s.reports - {id})
    case ReportDrop(id) => s.(reports := s.reports - {id})
  }

  ghost predicate Initial(w: World, retries: nat) {
    w.row.status == Pending && w.row.attempts == 0 && MetadataAgrees(w.row)
    && w == World(w.row, Queued(retries), map[], 0, 0)
  }

  ghost predicate Possible(s: World, steps: seq<Step>)
    decreases |steps|
  {
    steps == [] || (Enabled(s, steps[0]) && Possible(Do(s, steps[0]), steps[1..]))
  }

  function After(s: World, steps: seq<Step>): World
    decreases |steps|
  {
    if steps == [] || !Enabled(s, steps[0]) then s else After(Do(s, steps[0]), steps[1..])
  }

  lemma {:induction false} Joined(s: World, a: seq<Step>, b: seq<Step>)
    requires Possible(s, a) && Possible(After(s, a), b)
    ensures Possible(s, a + b) && After(s, a + b) == After(After(s, a), b)
    decreases |a|
  {
    if a == [] {
      Sequences.Empty(b);
    } else {
      Sequences.ConcatTail(a, b);
      Joined(Do(s, a[0]), a[1..], b);
    }
  }

  lemma OneStep(s: World, step: Step, rest: seq<Step>)
    requires Enabled(s, step) && Possible(Do(s, step), rest)
    ensures Possible(s, [step] + rest) && After(s, [step] + rest) == After(Do(s, step), rest)
  {
    Sequences.ConsTail(step, rest);
  }

  // ------------------------------------------------- an uninterrupted run

  /** The steps of a run that nothing interrupts. */
  function RunSteps(
      row: Row, reply: Reply, carriedOut: bool, at: string, delay: Option<int>, faults: Faults): seq<Step> {
    if row.status == Sent then [Load]
    else if faults.start != Confirmed then
      [Load] + ([MarkStart(at, faults.start)] + ([Reread] + [Fallback(at, faults.fallback)]))
    else
      [Load] + ([MarkStart(at, Confirmed)] + ([Reload] + ([Finish(reply, carriedOut, at, delay, faults.result)]
      + if Unexpected(reply, faults.result) then [Reread] + [Fallback(at, faults.fallback)] else [])))
  }

  lemma LastStep(s: World, step: Step)
    requires Enabled(s, step)
    ensures Possible(s, [step]) && After(s, [step]) == Do(s, step)
  {
    assert [step][1..] == [];
  }

  /** The generic handler: it reads the row again and marks it. */
  lemma Recovers(s: World, at: string, ending: Ending)
    requires s.job.RolledBack?
    ensures var steps := [Reread] + [Fallback(at, ending)];
            && Possible(s, steps)
            && After(s, steps) == s.(row := AfterFallback(s.row, s.row, s.job.message, at, ending),
                                     job := Requeue(Raised, s.job.retries))
  {
    LastStep(Do(s, Reread), Fallback(at, ending));
    OneStep(s, Reread, [Fallback(at, ending)]);
  }

  /** Taken one after the other, the steps are one run of the job. */
  lemma UninterruptedRun(s: World, reply: Reply, carriedOut: bool, at: string, delay: Option<int>, faults: Faults)
    requires s.job.Queued? && (IsSuccessReply(reply) ==> carriedOut)
    ensures var steps := RunSteps(s.row, reply, carriedOut, at, delay, faults);
            var end, result := After(s, steps), RunOnce(s.row, reply, s.job.retries, at, delay, faults);
            && Possible(s, steps) && end.row == result.0 && end.job == Requeue(result.1, s.job.retries)
            && end.sends == s.sends + result.2
  {
    var a := Do(s, Load);
    if s.row.status == Sent {
      LastStep(s, Load);
    } else if faults.start != Confirmed {
      var b := Do(a, MarkStart(at, faults.start));
      var rest := [Reread] + [Fallback(at, faults.fallback)];
      Recovers(b, at, faults.fallback);
      OneStep(a, MarkStart(at, faults.start), rest);
      OneStep(s, Load, [MarkStart(at, faults.start)] + rest);
    } else {
      var b := Do(a, MarkStart(at, Confirmed));
      var c := Do(b, Reload);
      var finish := Finish(reply, carriedOut, at, delay, faults.result);
      var rest := if Unexpected(reply, faults.result) then [Reread] + [Fallback(at, faults.fallback)] else [];
      if Unexpected(reply, faults.result) {
        Recovers(Do(c, finish), at, faults.fallback);
      }
      OneStep(c, finish, rest);
      OneStep(b, Reload, [finish] + rest);
      OneStep(a, MarkStart(at, Confirmed), [Reload] + ([finish] + rest));
      OneStep(s, Load, [MarkStart(at, Confirmed)] + ([Reload] + ([finish] + rest)));
    }
  }

  /** After a rejected send the job is queued again exactly while it has a retry left,
      and either the code is one of the seven or the mark was not confirmed. */
  lemma RejectedSendIsQueuedAgainIff(s: World, finish: Step)
    requires s.job.Running? && finish.Finish? && finish.reply.Response? && !(200 <= finish.reply.code <= 299)
    ensures Do(s, finish).job
         == if s.job.retries > 0 && (MayPass(finish.reply.code) || finish.ending != Confirmed)
            then Queued(s.job.retries - 1) else Finished
  {
  }

  /** After a lost send the job is queued again exactly while it has a retry left. */
  lemma LostSendIsQueuedAgainIff(s: World, finish: Step)
    requires s.job.Running? && finish.Finish? && finish.reply.TransportError?
    ensures Do(s, finish).job == if s.job.retries > 0 then Queued(s.job.retries - 1) else Finished
  {
  }

  // -------------------------------------------------------- sends and attempts

  /** First marks that were committed although the job then failed. */
  function LostStarts(steps: seq<Step>): nat
    decreases |steps|
  {
    if steps == [] then 0
    else (if steps[0].MarkStart? && steps[0].ending == Unconfirmed then 1 else 0) + LostStarts(steps[1..])
  }

  function Unsent(w: World): nat {
    if w.job.Committed? then 1 else 0
  }

  ghost predicate Counted(w: World, retries: nat) {
    && w.sends <= w.row.attempts
    && match w.job
       case Queued(r) => r <= retries && w.row.attempts <= retries - r
       case Loaded(r, copy) => r <= retries && w.row.attempts <= retries - r && copy.attempts == w.row.attempts
       case Committed(r) => r <= retries && w.row.attempts <= retries - r + 1 && w.sends < w.row.attempts
       case Running(r, _) => r <= retries && w.row.attempts <= retries - r + 1
       case RolledBack(r, _) => r <= retries && w.row.attempts <= retries - r + 1
       case Failing(r, _, _) => r <= retries && w.row.attempts <= retries - r + 1
       case Finished => w.row.attempts <= retries + 1
  }

  lemma StepIsCounted(w: World, step: Step, retries: nat)
    requires Counted(w, retries) && Enabled(w, step)
    ensures Counted(Do(w, step), retries)
    ensures var next := Do(w, step);
            next.row.attempts - next.sends - Unsent(next)
              == w.row.attempts - w.sends - Unsent(w) + (if step.MarkStart? && step.ending == Unconfirmed then 1 else 0)
  {
  }

  lemma {:induction false} RunsAreCounted(w: World, steps: seq<Step>, retries: nat)
    requires Counted(w, retries) && Possible(w, steps)
    ensures var end := After(w, steps);
            && Counted(end, retries)
            && end.row.attempts - end.sends - Unsent(end)
                 == w.row.attempts - w.sends - Unsent(w) + LostStarts(steps)
    decreases |steps|
  {
    if steps != [] {
      StepIsCounted(w, steps[0], retries);
      RunsAreCounted(Do(w, steps[0]), steps[1..], retries);
    }
  }

  /** Whatever the gateway answers or reports and whatever fails: the sends are at
      most one plus the job's retries. The attempt counter counts them, and the first
      marks that were committed but not followed by a send. */
  lemma SendsAreBounded(w: World, steps: seq<Step>, retries: nat)
    requires Initial(w, retries) && Possible(w, steps)
    ensures var end := After(w, steps);
            && end.sends <= end.row.attempts <= retries + 1
            && end.row.attempts == end.sends + LostStarts(steps) + Unsent(end)
  {
    RunsAreCounted(w, steps, retries);
  }

  // --------------------------------------------------------------- deliveries

  /** A send that was carried out without a confirmed success mark: its reply was lost
      or was no success, or the mark of the success was not confirmed. */
  predicate IsUnrecorded(step: Step) {
    step.Finish? && step.carriedOut && !(IsSuccessReply(step.reply) && step.ending == Confirmed)
  }

  function Unrecorded(steps: seq<Step>): nat
    decreases |steps|
  {
    if steps == [] then 0 else (if IsUnrecorded(steps[0]) then 1 else 0) + Unrecorded(steps[1..])
  }

  function Over(w: World): int {
    if w.job.Finished? then 1 else 0
  }

  function UnderWay(w: World): int {
    if w.job.Running? then 1 else 0
  }

  lemma {:induction false} DeliveriesAreCounted(w: World, steps: seq<Step>)
    requires Possible(w, steps)
    ensures var end := After(w, steps);
            && end.delivered - Over(end) <= w.delivered - Over(w) + Unrecorded(steps)
            && end.delivered - end.sends + UnderWay(end) <= w.delivered - w.sends + UnderWay(w)
    decreases |steps|
  {
    if steps != [] {
      DeliveriesAreCounted(Do(w, steps[0]), steps[1..]);
    }
  }

  /** Under every kind of report and failure the message is delivered at most once
      more than sends go unrecorded, and at most once per attempt of the job. */
  lemma DeliveriesAreBounded(w: World, steps: seq<Step>, retries: nat)
    requires Initial(w, retries) && Possible(w, steps)
    ensures After(w, steps).delivered <= 1 + Unrecorded(steps)
    ensures After(w, steps).delivered <= 1 + retries
  {
    DeliveriesAreCounted(w, steps);
    SendsAreBounded(w, steps, retries);
  }

  const NOW: string := "t"
  const OK: Reply := Response(200, map[], "")
  const LOST: Reply := TransportError("")

  /** A run up to its send. */
  function SendSteps(rest: seq<Step>): seq<Step> {
    [Load] + ([MarkStart(NOW, Confirmed)] + ([Reload] + rest))
  }

  lemma SendGoesOut(s: World, t: World, rest: seq<Step>)
    requires s.job.Queued? && s.row.status != Sent
    requires var row := Marked(s.row, MarkSending(NOW));
             t == s.(row := row, job := Running(s.job.retries, row), sends := s.sends + 1)
    requires Possible(t, rest)
    ensures Possible(s, SendSteps(rest)) && After(s, SendSteps(rest)) == After(t, rest)
    ensures Unrecorded(SendSteps(rest)) == Unrecorded(rest)
  {
    var a := Do(s, Load);
    var b := Do(a, MarkStart(NOW, Confirmed));
    OneStep(b, Reload, rest);
    OneStep(a, MarkStart(NOW, Confirmed), [Reload] + rest);
    OneStep(s, Load, [MarkStart(NOW, Confirmed)] + ([Reload] + rest));
    UnrecordedCons(Reload, rest);
    UnrecordedCons(MarkStart(NOW, Confirmed), [Reload] + rest);
    UnrecordedCons(Load, [MarkStart(NOW, Confirmed)] + ([Reload] + rest));
  }

  lemma UnrecordedCons(step: Step, rest: seq<Step>)
    ensures Unrecorded([step] + rest) == (if IsUnrecorded(step) then 1 else 0) + Unrecorded(rest)
  {
    Sequences.ConsTail(step, rest);
  }

  function Sending(s: World): World
    requires s.job.Queued?
  {
    var row := Marked(s.row, MarkSending(NOW));
    s.(row := row, job := Running(s.job.retries, row), sends := s.sends + 1)
  }

  const LOSING: Step := Finish(LOST, true, NOW, None, Confirmed)
  const REFUSED: Step := Finish(OK, true, NOW, None, Refused)
  const RECOVERY: Step := Fallback(NOW, Confirmed)
  const DELIVERING: Step := Finish(OK, true, NOW, None, Confirmed)

  /** A run whose send is carried out, but whose reply is lost, or whose success mark
      the database refuses. */
  function UnrecordedSteps(lost: bool, rest: seq<Step>): seq<Step> {
    SendSteps(if lost then [LOSING] + rest else [REFUSED] + ([Reread] + ([RECOVERY] + rest)))
  }

  function AfterUnrecorded(s: World, lost: bool): World
    requires s.job.Queued?
  {
    var u := Sending(s);
    if lost then Do(u, LOSING) else Do(Do(Do(u, REFUSED), Reread), RECOVERY)
  }

  lemma LosingRun(s: World, rest: seq<Step>)
    requires s.job.Queued? && s.row.status != Sent && Possible(AfterUnrecorded(s, true), rest)
    ensures var steps := UnrecordedSteps(true, rest);
            && Possible(s, steps) && After(s, steps) == After(AfterUnrecorded(s, true), rest)
            && Unrecorded(steps) == Unrecorded(rest) + 1
  {
    var u := Sending(s);
    OneStep(u, LOSING, rest);
    SendGoesOut(s, u, [LOSING] + rest);
    UnrecordedCons(LOSING, rest);
  }

  lemma RefusedRun(s: World, rest: seq<Step>)
    requires s.job.Queued? && s.row.status != Sent && Possible(AfterUnrecorded(s, false), rest)
    ensures var steps := UnrecordedSteps(false, rest);
            && Possible(s, steps) && After(s, steps) == After(AfterUnrecorded(s, false), rest)
            && Unrecorded(steps) == Unrecorded(rest) + 1
  {
    var u := Sending(s);
    var v := Do(u, REFUSED);
    OneStep(Do(v, Reread), RECOVERY, rest);
    OneStep(v, Reread, [RECOVERY] + rest);
    OneStep(u, REFUSED, [Reread] + ([RECOVERY] + rest));
    SendGoesOut(s, u, [REFUSED] + ([Reread] + ([RECOVERY] + rest)));
    UnrecordedCons(RECOVERY, rest);
    UnrecordedCons(Reread, [RECOVERY] + rest);
    UnrecordedCons(REFUSED, [Reread] + ([RECOVERY] + rest));
  }

  /** The queue tries again after such a run. */
  lemma UnrecordedRun(s: World, lost: bool, rest: seq<Step>)
    requires s.job.Queued? && s.job.retries > 0 && s.row.status != Sent
    ensures var t := AfterUnrecorded(s, lost);
            && t.job == Queued(s.job.retries - 1) && t.row.status != Sent
            && t.delivered == s.delivered + 1 && t.sends == s.sends + 1
            && (Possible(t, rest) ==>
                  && Possible(s, UnrecordedSteps(lost, rest)) && After(s, UnrecordedSteps(lost, rest)) == After(t, rest)
                  && Unrecorded(UnrecordedSteps(lost, rest)) == Unrecorded(rest) + 1)
  {
    if Possible(AfterUnrecorded(s, lost), rest) {
      if lost {
        LosingRun(s, rest);
      } else {
        RefusedRun(s, rest);
      }
    }
  }

  /** `m` unrecorded runs, then one that succeeds. */
  lemma {:induction false} ManyDeliveries(s: World, m: nat, lost: bool) returns (steps: seq<Step>)
    requires s.job.Queued? && m <= s.job.retries && s.row.status != Sent
    ensures Possible(s, steps) && Unrecorded(steps) == m
    ensures After(s, steps).delivered == s.delivered + m + 1 && After(s, steps).sends == s.sends + m + 1
    ensures After(s, steps).row.status == Sent
    decreases m
  {
    if m == 0 {
      LastStep(Sending(s), DELIVERING);
      SendGoesOut(s, Sending(s), [DELIVERING]);
      UnrecordedCons(DELIVERING, []);
      Sequences.Empty([DELIVERING]);
      return SendSteps([DELIVERING]);
    }
    UnrecordedRun(s, lost, []);
    var rest := ManyDeliveries(AfterUnrecorded(s, lost), m - 1, lost);
    UnrecordedRun(s, lost, rest);
    return UnrecordedSteps(lost, rest);
  }

  /** Runs of a job with that many retries and at most `k` unrecorded sends deliver the
      message at most `n` times. */
  ghost predicate DeliversAtMost(retries: nat, k: nat, n: nat) {
    forall w: World, steps: seq<Step> :: Initial(w, retries) && Possible(w, steps) && Unrecorded(steps) <= k ==>
      After(w, steps).delivered <= n
  }

  lemma AFreshIntent(retries: nat) returns (w: World)
    ensures Initial(w, retries)
  {
    var dispatch: Fields := map["last_status" := Str("pending")];
    var payload: Fields := map["_dispatch" := Obj(dispatch)];
    w := World(Row(Status.Pending, 0, payload), Queued(retries), map[], 0, 0);
    assert Dispatch(payload) == dispatch;
  }

  /** The most deliveries that such runs can make is the lesser of `k` and the retries,
      plus one; so they deliver at most once iff no send goes unrecorded or there is no
      retry. The refused marks and the lost replies alone reach it. */
  lemma DeliversAtMostIff(retries: nat, k: nat, n: nat)
    ensures DeliversAtMost(retries, k, n) <==> Min(k, retries) + 1 <= n
    ensures DeliversAtMost(retries, k, 1) <==> k == 0 || retries == 0
  {
    DeliversAtMostFor(retries, k, n);
    DeliversAtMostFor(retries, k, 1);
  }

  lemma DeliversAtMostFor(retries: nat, k: nat, n: nat)
    ensures DeliversAtMost(retries, k, n) <==> Min(k, retries) + 1 <= n
  {
    if Min(k, retries) + 1 <= n {
      forall w: World, steps: seq<Step> | Initial(w, retries) && Possible(w, steps) && Unrecorded(steps) <= k
        ensures After(w, steps).delivered <= n
      {
        DeliveriesAreBounded(w, steps, retries);
      }
    } else {
      var w := AFreshIntent(retries);
      var steps := ManyDeliveries(w, Min(k, retries), true);
    }
  }

  // --------------------------------------------------------- undisturbed runs

  /** No database failure, no send that is carried out without a success reply, and
      reports of success only, committed while no run is under way. */
  ghost predicate Undisturbed(s: World, step: Step) {
    match step
    case MarkStart(_, ending) => ending == Confirmed
    case Finish(reply, carriedOut, _, _, ending) => ending == Confirmed && (carriedOut ==> IsSuccessReply(reply))
    case Fallback(_, ending) => ending == Confirmed
    case ReportCommit(_, mark) => mark.MarkSent? && (s.job.Queued? || s.job.Finished?)
    case _ => true
  }

  ghost predicate AllUndisturbed(s: World, steps: seq<Step>)
    requires Possible(s, steps)
    decreases |steps|
  {
    steps == [] || (Undisturbed(s, steps[0]) && AllUndisturbed(Do(s, steps[0]), steps[1..]))
  }

  /** The job works on the row as it is. */
  predicate Current(w: World) {
    match w.job
    case Loaded(_, copy) => copy == w.row && w.row.status != Sent
    case Committed(_) => w.row.status == Status.Sending
    case Running(_, copy) => copy == w.row && w.row.status == Status.Sending
    case RolledBack(_, _) => w.row.status == Status.Sending
    case Failing(_, copy, _) => copy == w.row && w.row.status == Status.Sending
    case Finished => w.row.status == Sent || w.row.status == Status.Failed
    case Queued(_) => true
  }

  ghost predicate Settled(w: World) {
    && MetadataAgrees(w.row) && Current(w)
    && (w.delivered == 0 || (w.delivered == 1 && w.job.Finished? && w.row.status == Sent))
    && forall id :: id in w.reports && w.reports[id].status == Sent ==> w.row.status == Sent
  }

  lemma ApplyToCurrent(row: Row, mark: Mark)
    ensures MetadataAgrees(Apply(row, row, mark)) && Apply(row, row, mark).status == StatusAfter(mark)
  {
    MarkRestoresAgreement(row, mark);
  }

  lemma ReportKeepsSettled(s: World, step: Step)
    requires Settled(s) && Enabled(s, step) && Undisturbed(s, step)
    requires step.ReportLoad? || step.ReportCommit? || step.ReportDrop?
    ensures Settled(Do(s, step)) && Do(s, step).job == s.job
    ensures s.row.status == Sent ==> Do(s, step).row.status == Sent
  {
    if step.ReportCommit? {
      StaleMarkAgreesIff(s.row, s.reports[step.id], step.mark);
    }
  }

  lemma FinishKeepsSettled(s: World, step: Step)
    requires Settled(s) && Enabled(s, step) && step.Finish? && Undisturbed(s, step)
    ensures Settled(Do(s, step)) && s.row.status != Sent
  {
    var mark := ResultMark(step.reply, s.job.retries, step.at, step.delay);
    if step.reply.OtherError? {
      assert Do(s, step).row == s.row && Do(s, step).delivered == s.delivered;
    } else {
      ApplyToCurrent(s.row, mark);
      assert Do(s, step).row == Apply(s.row, s.row, mark);
    }
  }

  lemma JobKeepsSettled(s: World, step: Step)
    requires Settled(s) && Enabled(s, step) && Undisturbed(s, step)
    requires step.Load? || step.MarkStart? || step.Reload? || step.Reread? || step.Fallback?
    ensures Settled(Do(s, step)) && (s.row.status == Sent ==> step.Load?)
  {
    match step
    case MarkStart(at, _) => ApplyToCurrent(s.row, MarkSending(at));
    case Fallback(at, _) => ApplyToCurrent(s.row, ExceptionMark(s.job.message, at));
    case _ =>
  }

  lemma StepKeepsSettled(s: World, step: Step)
    requires Settled(s) && Enabled(s, step) && Undisturbed(s, step)
    ensures Settled(Do(s, step))
    ensures s.row.status == Sent ==>
              && Do(s, step).row.status == Sent
              && Do(s, step).sends == s.sends && Do(s, step).delivered == s.delivered
  {
    if step.ReportLoad? || step.ReportCommit? || step.ReportDrop? {
      ReportKeepsSettled(s, step);
    } else if step.Finish? {
      FinishKeepsSettled(s, step);
    } else {
      JobKeepsSettled(s, step);
    }
  }

  lemma {:induction false} UndisturbedIsSettled(s: World, steps: seq<Step>)
    requires Settled(s) && Possible(s, steps) && AllUndisturbed(s, steps)
    ensures Settled(After(s, steps))
    ensures s.row.status == Sent ==>
              && After(s, steps).row.status == Sent
              && After(s, steps).sends == s.sends && After(s, steps).delivered == s.delivered
    decreases |steps|
  {
    if steps != [] {
      StepKeepsSettled(s, steps[0]);
      UndisturbedIsSettled(Do(s, steps[0]), steps[1..]);
    }
  }

  /** At every moment of an undisturbed run: the message has been delivered at
      most once; an intent that rests in sending has a retry queued; with no
      retry left it is sent or failed; the metadata agree with the status. */
  lemma UndisturbedRun(w: World, steps: seq<Step>, retries: nat)
    requires Initial(w, retries) && Possible(w, steps) && AllUndisturbed(w, steps)
    ensures var end := After(w, steps);
            && end.delivered <= 1 && (end.delivered == 1 ==> end.row.status == Sent)
            && (end.job.Finished? ==> end.row.status == Sent || end.row.status == Status.Failed)
            && (end.job.Queued? || end.job.Finished? ==> (end.row.status == Status.Sending ==> end.job.Queued?))
            && MetadataAgrees(end.row)
  {
    UndisturbedIsSettled(w, steps);
  }

  /** In an undisturbed run a sent intent stays sent and is never sent again. */
  lemma SentIsNeverSentAgain(w: World, before: seq<Step>, later: seq<Step>, retries: nat)
    requires Initial(w, retries) && Possible(w, before) && AllUndisturbed(w, before)
    requires var s := After(w, before);
             s.row.status == Sent && Possible(s, later) && AllUndisturbed(s, later)
    ensures var s, end := After(w, before), After(w, before + later);
            && end.row.status == Sent && end.sends == s.sends && end.delivered == s.delivered
  {
    UndisturbedIsSettled(w, before);
    UndisturbedIsSettled(After(w, before), later);
    Joined(w, before, later);
  }

  // ------------------------------------------------ what disturbances can do

  /** The mark that a step commits, and the copy it works on; `None` for a step that
      commits none. */
  function CommittedMark(s: World, step: Step): Option<(Mark, Row)>
    requires Enabled(s, step)
  {
    match step
    case MarkStart(at, ending) => if ending == Refused then None else Some((MarkSending(at), s.job.copy))
    case Finish(reply, _, at, delay, ending) =>
      if reply.OtherError? || ending == Refused then None
      else Some((ResultMark(reply, s.job.retries, at, delay), s.job.copy))
    case Fallback(at, ending) =>
      if ending == Refused then None else Some((ExceptionMark(s.job.message, at), s.job.copy))
    case ReportCommit(id, mark) => Some((mark, s.reports[id]))
    case _ => None
  }

  /** A row leaves sent exactly when a mark of another status is committed from a copy
      that does not have that status already: by a report, by the end of a run, or by a
      new run whose copy is older than the report that made the row sent. */
  lemma SentIsLeftIff(s: World, step: Step)
    requires Enabled(s, step) && s.row.status == Sent
    ensures Do(s, step).row.status != Sent
       <==> && CommittedMark(s, step).Some?
            && var (mark, copy) := CommittedMark(s, step).value;
               StatusAfter(mark) != Sent && StatusAfter(mark) != copy.status
  {
  }

  /** Every step that commits a mark keeps the metadata in agreement exactly when the
      status column is written or is what the copy says. */
  lemma StepAgreesIff(s: World, step: Step)
    requires Enabled(s, step) && CommittedMark(s, step).Some?
    ensures var (mark, copy) := CommittedMark(s, step).value;
            MetadataAgrees(Do(s, step).row) <==> (StatusAfter(mark) == copy.status ==> s.row.status == copy.status)
  {
    var (mark, copy) := CommittedMark(s, step).value;
    StaleMarkAgreesIff(s.row, copy, mark);
  }

  const SENT_REPORT: Mark := MarkSent(NOW, None, None)

  /** A success reported between a run's first read and its first mark. The message
      goes out again in any case: the run writes its mark over the report, or, when its
      copy was in sending already, leaves the status at sent while the metadata say
      sending. */
  lemma ReportBeforeMarkIsLost(s: World, id: nat)
    requires s.job.Queued? && s.row.status != Sent && id !in s.reports
    ensures var steps := [Load] + ([ReportLoad(id)] + ([ReportCommit(id, SENT_REPORT)] + []));
            var reported := After(s, steps);
            && Possible(s, steps) && reported.row.status == Sent && reported.job == Loaded(s.job.retries, s.row)
            && (var again := [MarkStart(NOW, Confirmed)] + ([Reload] + []);
                var end := After(reported, again);
                && Possible(reported, again) && end.job.Running? && end.sends == s.sends + 1
                && end.row.status == (if s.row.status == Status.Sending then Sent else Status.Sending)
                && (MetadataAgrees(end.row) <==> s.row.status != Status.Sending))
  {
    var a := Do(s, Load);
    var b := Do(a, ReportLoad(id));
    var reported := Do(b, ReportCommit(id, SENT_REPORT));
    OneStep(b, ReportCommit(id, SENT_REPORT), []);
    OneStep(a, ReportLoad(id), [ReportCommit(id, SENT_REPORT)] + []);
    OneStep(s, Load, [ReportLoad(id)] + ([ReportCommit(id, SENT_REPORT)] + []));
    var start := MarkStart(NOW, Confirmed);
    var c := Do(reported, start);
    StepAgreesIff(reported, start);
    OneStep(c, Reload, []);
    OneStep(reported, start, [Reload] + []);
  }

  /** A success reported while the send is still under way, then a transport error.
      With a retry left the run writes its metadata over the report but not the status
      column, which it believes unchanged, so the two disagree; with none left it
      overwrites both. */
  lemma ReportDuringSendIsLost(s: World, id: nat)
    requires s.job.Running? && s.job.copy == s.row && s.row.status == Status.Sending && id !in s.reports
    ensures var lost := Finish(LOST, false, NOW, None, Confirmed);
            var steps := [ReportLoad(id)] + ([ReportCommit(id, SENT_REPORT)] + ([lost] + []));
            var end := After(s, steps);
            && Possible(s, steps)
            && end.row.status == (if s.job.retries > 0 then Sent else Status.Failed)
            && (MetadataAgrees(end.row) <==> s.job.retries == 0)
  {
    var lost := Finish(LOST, false, NOW, None, Confirmed);
    var a := Do(s, ReportLoad(id));
    var b := Do(a, ReportCommit(id, SENT_REPORT));
    OneStep(b, lost, []);
    OneStep(a, ReportCommit(id, SENT_REPORT), [lost] + []);
    OneStep(s, ReportLoad(id), [ReportCommit(id, SENT_REPORT)] + ([lost] + []));
    StepAgreesIff(b, lost);
  }
}
