/** The retry of failed media assets beside the workers: its jobs are queued before its
    rows are committed, and a worker that reads an asset which is not pending drops
    the job. */
module MediaRetryRuns {
  import opened MediaReconcile
  import opened Options
  import Sequences

  /** `queue` holds the jobs that no worker has taken, `started` those that are taken,
      `running` those whose worker has read a pending asset. The retry has queued the
      first `asked` of the assets it picked. */
  datatype World = World(
    status: map<Id, Status>, queue: seq<Id>, started: multiset<Id>, running: multiset<Id>,
    asked: nat, committed: bool)

  /** `Finish` carries the mark of the asset, or none when the database refuses it. */
  datatype Step =
    | Queue
    | Commit
    | Take
    | Look(id: Id)
    | Finish(id: Id, mark: Option<Status>)

  predicate IsPending(w: World, id: Id) {
    id in w.status && w.status[id] == Pending
  }

  predicate Enabled(picked: seq<Id>, w: World, step: Step) {
    match step
    case Queue => w.asked < |picked|
    case Commit => w.asked == |picked| && !w.committed
    case Take => w.queue != []
    case Look(id) => id in w.started
    case Finish(id, mark) => id in w.running && mark != Some(Pending)
  }

  function Do(picked: seq<Id>, w: World, step: Step): World
    requires Enabled(picked, w, step)
  {
    match step
    case Queue => w.(queue := w.queue + [picked[w.asked]], asked := w.asked + 1)
    case Commit =>
      w.(status := map id | id in w.status :: if id in picked then Pending else w.status[id], committed := true)
    case Take => w.(queue := w.queue[1..], started := w.started + multiset{w.queue[0]})
    case Look(id) =>
      w.(started := w.started - multiset{id},
         running := if IsPending(w, id) then w.running + multiset{id} else w.running)
    case Finish(id, mark) =>
      w.(status := if mark.Some? && id in w.status then w.status[id := mark.value] else w.status,
         running := w.running - multiset{id})
  }

  ghost predicate Possible(picked: seq<Id>, w: World, steps: seq<Step>)
    decreases |steps|
  {
    steps == [] || (Enabled(picked, w, steps[0]) && Possible(picked, Do(picked, w, steps[0]), steps[1..]))
  }

  function After(picked: seq<Id>, w: World, steps: seq<Step>): World
    decreases |steps|
  {
    if steps == [] || !Enabled(picked, w, steps[0]) then w
    else After(picked, Do(picked, w, steps[0]), steps[1..])
  }

  lemma {:induction false} Splits(picked: seq<Id>, w: World, a: seq<Step>, b: seq<Step>)
    requires Possible(picked, w, a + b)
    ensures Possible(picked, w, a) && Possible(picked, After(picked, w, a), b)
    ensures After(picked, w, a + b) == After(picked, After(picked, w, a), b)
    decreases |a|
  {
    if a == [] {
      Sequences.Empty(b);
    } else {
      Sequences.ConcatTail(a, b);
      Splits(picked, Do(picked, w, a[0]), a[1..], b);
    }
  }

  // -------------------------------------------------------- counting the jobs

  /** The jobs of an asset that no worker has ended. */
  function Jobs(w: World, id: Id): nat {
    multiset(w.queue)[id] + w.started[id] + w.running[id]
  }

  function Asked(picked: seq<Id>, w: World, id: Id): nat
    requires w.asked <= |picked|
  {
    multiset(picked[..w.asked])[id]
  }

  /** A worker ends a job of the asset: it finds the asset not pending, or has
      processed it. */
  predicate Ends(w: World, step: Step, id: Id) {
    (step == Look(id) && !IsPending(w, id)) || (step.Finish? && step.id == id)
  }

  function Ended(picked: seq<Id>, w: World, steps: seq<Step>, id: Id): nat
    decreases |steps|
  {
    if steps == [] || !Enabled(picked, w, steps[0]) then 0
    else (if Ends(w, steps[0], id) then 1 else 0) + Ended(picked, Do(picked, w, steps[0]), steps[1..], id)
  }

  lemma QueueCounts(picked: seq<Id>, w: World, id: Id)
    requires w.asked < |picked|
    ensures var next := Do(picked, w, Queue);
            Jobs(next, id) - Jobs(w, id) == Asked(picked, next, id) - Asked(picked, w, id)
  {
    Sequences.TakeSnoc(picked, w.asked);
  }

  lemma TakeCounts(picked: seq<Id>, w: World, id: Id)
    requires w.queue != []
    ensures Jobs(Do(picked, w, Take), id) == Jobs(w, id)
  {
    Sequences.Uncons(w.queue);
  }

  lemma LookCounts(picked: seq<Id>, w: World, looked: Id, id: Id)
    requires looked in w.started
    ensures Jobs(Do(picked, w, Look(looked)), id) + (if Ends(w, Look(looked), id) then 1 else 0) == Jobs(w, id)
  {
  }

  lemma FinishCounts(picked: seq<Id>, w: World, finish: Step, id: Id)
    requires finish.Finish? && Enabled(picked, w, finish)
    ensures Jobs(Do(picked, w, finish), id) + (if Ends(w, finish, id) then 1 else 0) == Jobs(w, id)
  {
  }

  lemma StepCounts(picked: seq<Id>, w: World, step: Step, id: Id)
    requires w.asked <= |picked| && Enabled(picked, w, step)
    ensures var next := Do(picked, w, step);
            && next.asked <= |picked|
            && Jobs(next, id) + (if Ends(w, step, id) then 1 else 0) - Asked(picked, next, id)
                 == Jobs(w, id) - Asked(picked, w, id)
  {
    match step
    case Queue => QueueCounts(picked, w, id);
    case Take => TakeCounts(picked, w, id);
    case Look(looked) => LookCounts(picked, w, looked, id);
    case Finish(_, _) => FinishCounts(picked, w, step, id);
    case Commit =>
  }

  /** Jobs are conserved: what was there and what the retry has queued is what is
      left and what workers have ended. */
  lemma {:induction false} JobsAreConserved(picked: seq<Id>, w: World, steps: seq<Step>, id: Id)
    requires w.asked <= |picked| && Possible(picked, w, steps)
    ensures var end := After(picked, w, steps);
            && end.asked <= |picked|
            && Jobs(end, id) + Ended(picked, w, steps, id) - Asked(picked, end, id)
                 == Jobs(w, id) - Asked(picked, w, id)
    decreases |steps|
  {
    if steps != [] {
      StepCounts(picked, w, steps[0], id);
      JobsAreConserved(picked, Do(picked, w, steps[0]), steps[1..], id);
    }
  }

  ghost predicate Distinct(picked: seq<Id>) {
    forall i, j :: 0 <= i < j < |picked| ==> picked[i] != picked[j]
  }

  lemma {:induction false} PickedOnce(picked: seq<Id>, id: Id)
    requires Distinct(picked) && id in picked
    ensures multiset(picked)[id] == 1
  {
    Sequences.Uncons(picked);
    var rest := picked[1..];
    if id != picked[0] {
      assert id in rest;
      PickedOnce(rest, id);
    } else {
      assert id !in rest;
    }
  }

  // --------------------------------------------------------- stranded assets

  /** Pending, and no job will process it. */
  predicate Stranded(w: World, id: Id) {
    IsPending(w, id) && Jobs(w, id) == 0
  }

  /** Every processing marks its asset. */
  ghost predicate AllMarked(steps: seq<Step>) {
    forall i :: 0 <= i < |steps| && steps[i].Finish? ==> steps[i].mark.Some?
  }

  lemma StepStrandsNone(picked: seq<Id>, w: World, step: Step, id: Id)
    requires w.asked == |picked| && w.committed && Enabled(picked, w, step)
    requires step.Finish? ==> step.mark.Some?
    ensures Stranded(Do(picked, w, step), id) <==> Stranded(w, id)
    ensures Do(picked, w, step).asked == |picked| && Do(picked, w, step).committed
  {
    StepCounts(picked, w, step, id);
  }

  /** After the commit no asset becomes stranded, and none that is gets a job. */
  lemma {:induction false} StrandedForGood(picked: seq<Id>, w: World, steps: seq<Step>, id: Id)
    requires w.asked == |picked| && w.committed && Possible(picked, w, steps) && AllMarked(steps)
    ensures Stranded(After(picked, w, steps), id) <==> Stranded(w, id)
    decreases |steps|
  {
    if steps != [] {
      StepStrandsNone(picked, w, steps[0], id);
      StrandedForGood(picked, Do(picked, w, steps[0]), steps[1..], id);
    }
  }

  ghost predicate Begins(picked: seq<Id>, w: World) {
    && Distinct(picked) && w.asked == 0 && !w.committed
    && forall id :: id in picked ==> id in w.status && w.status[id] == Failed
  }

  lemma {:induction false} AssetsStay(picked: seq<Id>, w: World, steps: seq<Step>)
    ensures After(picked, w, steps).status.Keys == w.status.Keys
    decreases |steps|
  {
    if steps != [] && Enabled(picked, w, steps[0]) {
      AssetsStay(picked, Do(picked, w, steps[0]), steps[1..]);
    }
  }

  /** In every interleaving with the workers a retried asset is left pending without a
      job exactly when before the commit as many of its jobs have ended as it had, and
      one more. */
  lemma StrandedIff(picked: seq<Id>, w: World, before: seq<Step>, after: seq<Step>, id: Id)
    requires Begins(picked, w) && id in picked && AllMarked(after)
    requires Possible(picked, w, before + ([Commit] + after))
    ensures Stranded(After(picked, w, before + ([Commit] + after)), id)
       <==> Ended(picked, w, before, id) == Jobs(w, id) + 1
  {
    var v := After(picked, w, before);
    Splits(picked, w, before, [Commit] + after);
    Sequences.ConsTail(Commit, after);
    JobsAreConserved(picked, w, before, id);
    AssetsStay(picked, w, before);
    assert picked[..|picked|] == picked;
    PickedOnce(picked, id);
    StrandedForGood(picked, Do(picked, v, Commit), after, id);
  }

  /** Before the commit an asset without other jobs stays failed, so every worker that
      reads it drops its job. */
  lemma {:induction false} LooksEndJobs(picked: seq<Id>, w: World, steps: seq<Step>, id: Id)
    requires Possible(picked, w, steps) && Commit !in steps
    requires !IsPending(w, id) && id !in w.running
    ensures Ended(picked, w, steps, id) >= 1 <==> Look(id) in steps
    decreases |steps|
  {
    if steps != [] {
      Sequences.Uncons(steps);
      LooksEndJobs(picked, Do(picked, w, steps[0]), steps[1..], id);
    }
  }

  lemma CommitsOnce(picked: seq<Id>, w: World, before: seq<Step>, after: seq<Step>)
    requires Possible(picked, w, before + ([Commit] + after))
    ensures Commit !in before
  {
    Splits(picked, w, before, [Commit] + after);
    Sequences.ConsTail(Commit, after);
    if Commit in before {
      CommitIsFinal(picked, w, before);
    }
  }

  lemma {:induction false} CommitIsFinal(picked: seq<Id>, w: World, steps: seq<Step>)
    requires Possible(picked, w, steps)
    ensures After(picked, w, steps).committed <==> w.committed || Commit in steps
    decreases |steps|
  {
    if steps != [] {
      Sequences.Uncons(steps);
      CommitIsFinal(picked, Do(picked, w, steps[0]), steps[1..]);
    }
  }

  /** No retried asset is left pending without a job exactly when no worker reads one
      of them before the commit. The assets have no jobs but those of the retry. */
  lemma EveryRetriedHasAJobIff(picked: seq<Id>, w: World, before: seq<Step>, after: seq<Step>)
    requires Begins(picked, w) && AllMarked(after)
    requires forall id :: id in picked ==> Jobs(w, id) == 0
    requires Possible(picked, w, before + ([Commit] + after))
    ensures (forall id :: id in picked ==> !Stranded(After(picked, w, before + ([Commit] + after)), id))
       <==> forall id :: id in picked ==> Look(id) !in before
  {
    CommitsOnce(picked, w, before, after);
    Splits(picked, w, before, [Commit] + after);
    forall id | id in picked
      ensures Stranded(After(picked, w, before + ([Commit] + after)), id) <==> Look(id) in before
    {
      StrandedIff(picked, w, before, after, id);
      LooksEndJobs(picked, w, before, id);
      AtMostOneEnds(picked, w, before, id);
    }
  }

  lemma AtMostOneEnds(picked: seq<Id>, w: World, before: seq<Step>, id: Id)
    requires Begins(picked, w) && id in picked && Jobs(w, id) == 0 && Possible(picked, w, before)
    ensures Ended(picked, w, before, id) <= 1
  {
    var v := After(picked, w, before);
    JobsAreConserved(picked, w, before, id);
    PickedOnce(picked, id);
    Sequences.Cut(picked, v.asked);
    assert multiset(picked) == multiset(picked[..v.asked]) + multiset(picked[v.asked..]);
  }

  /** A worker that is faster than the commit: the asset is pending and has no job
      until another request queues it. */
  lemma FastWorkerStrands(w: World, id: Id)
    requires id in w.status && w.status[id] == Failed
    requires w == World(w.status, [], multiset{}, multiset{}, 0, false)
    ensures var steps := [Queue] + ([Take] + ([Look(id)] + [Commit]));
            && Possible([id], w, steps)
            && After([id], w, steps) == World(w.status[id := Pending], [], multiset{}, multiset{}, 1, true)
  {
    var a := Do([id], w, Queue);
    var b := Do([id], a, Take);
    var c := Do([id], b, Look(id));
    assert c == World(w.status, [], multiset{}, multiset{}, 1, false);
    OneStep([id], c, Commit, []);
    Sequences.Empty([Commit]);
    OneStep([id], b, Look(id), [Commit]);
    OneStep([id], a, Take, [Look(id)] + [Commit]);
    OneStep([id], w, Queue, [Take] + ([Look(id)] + [Commit]));
  }

  lemma OneStep(picked: seq<Id>, w: World, step: Step, rest: seq<Step>)
    requires Enabled(picked, w, step) && Possible(picked, Do(picked, w, step), rest)
    ensures Possible(picked, w, [step] + rest)
    ensures After(picked, w, [step] + rest) == After(picked, Do(picked, w, step), rest)
  {
    Sequences.ConsTail(step, rest);
  }
}
