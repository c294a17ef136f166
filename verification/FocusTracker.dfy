/** The focus-time tracker: one session per open workspace root while the window
    has focus, closed into logged intervals. */
module FocusTracker {
  import opened Numbers
  import opened Sequences

  datatype Session = Session(root: string, number: nat, startedAt: int)
  datatype Kind = Checkpoint | Final
  datatype Entry =
    | Started(root: string, number: nat)
    | Interval(kind: Kind, root: string, number: nat, startedAt: int, endedAt: int, duration: int)

  /** `sessions` is the tracker's map in insertion order, one entry per root. */
  datatype State = State(sessions: seq<Session>, counter: nat, timer: bool, log: seq<Entry>)
  const INITIAL: State := State([], 0, false, [])

  function Closing(s: Session, kind: Kind, now: int): Entry {
    Interval(kind, s.root, s.number, s.startedAt, now, Max(0, now - s.startedAt))
  }

  predicate Has(sessions: seq<Session>, root: string) {
    exists i :: 0 <= i < |sessions| && sessions[i].root == root
  }

  // ------------------------------------------------- what the loops compute

  function EndAll(log: seq<Entry>, sessions: seq<Session>, now: int): seq<Entry>
    decreases |sessions|
  {
    if sessions == [] then log else EndAll(log + [Closing(sessions[0], Final, now)], sessions[1..], now)
  }

  /** Checkpoints `rest`, after `done` has been dealt with. */
  function RollAll(log: seq<Entry>, done: seq<Session>, rest: seq<Session>, now: int): (seq<Entry>, seq<Session>)
    decreases |rest|
  {
    if rest == [] then (log, done)
    else if now - rest[0].startedAt <= 0 then RollAll(log, done + [rest[0]], rest[1..], now)
    else RollAll(log + [Closing(rest[0], Checkpoint, now)], done + [rest[0].(startedAt := now)], rest[1..], now)
  }

  function StartMissing(s: State, roots: seq<string>, now: int): State
    decreases |roots|
  {
    if roots == [] then s
    else if Has(s.sessions, roots[0]) then StartMissing(s, roots[1..], now)
    else
      StartMissing(s.(sessions := s.sessions + [Session(roots[0], s.counter + 1, now)], counter := s.counter + 1,
                      log := s.log + [Started(roots[0], s.counter + 1)]), roots[1..], now)
  }

  /** Closes those of `rest` whose root is not listed, after `kept`. */
  function EndUnlisted(
      log: seq<Entry>, kept: seq<Session>, rest: seq<Session>, roots: seq<string>, now: int): (seq<Entry>, seq<Session>)
    decreases |rest|
  {
    if rest == [] then (log, kept)
    else if rest[0].root in roots then EndUnlisted(log, kept + [rest[0]], rest[1..], roots, now)
    else EndUnlisted(log + [Closing(rest[0], Final, now)], kept, rest[1..], roots, now)
  }

  datatype Event =
    | Sync(now: int, focused: bool, roots: seq<string>)
    | Tick(now: int)
    | Flush(now: int)
    | Dispose(now: int)

  function Ended(s: State, now: int): State {
    s.(sessions := [], timer := false, log := EndAll(s.log, s.sessions, now))
  }

  function Rolled(s: State, now: int): State {
    var r := RollAll(s.log, [], s.sessions, now);
    s.(log := r.0, sessions := r.1)
  }

  /** `enabled` is false when no folder was open at activation. */
  function After(enabled: bool, s: State, event: Event): State {
    match event
    case Sync(now, focused, roots) =>
      if !enabled || !focused || roots == [] then Ended(s, now)
      else
        var started := StartMissing(s, roots, now);
        var r := EndUnlisted(started.log, [], started.sessions, roots, now);
        started.(log := r.0, sessions := r.1, timer := true)
    case Tick(now) => Rolled(s, now)
    case Flush(now) => Rolled(s, now)
    case Dispose(now) => Ended(s, now)
  }

  class Tracker {
    const enabled: bool
    var sessions: seq<Session>
    var counter: nat
    var timer: bool
    var log: seq<Entry>

    function Abs(): State
      reads this
    {
      State(sessions, counter, timer, log)
    }

    constructor (enabled: bool)
      ensures this.enabled == enabled && Abs() == INITIAL
    {
      this.enabled, sessions, counter, timer, log := enabled, [], 0, false, [];
    }

    method EndAllSessions(now: int)
      modifies this`sessions, this`log
      ensures sessions == [] && log == EndAll(old(log), old(sessions), now)
    {
      while sessions != []
        invariant EndAll(log, sessions, now) == EndAll(old(log), old(sessions), now)
        decreases |sessions|
      {
        log := log + [Closing(sessions[0], Final, now)];
        sessions := sessions[1..];
      }
    }

    method WriteCheckpoint(now: int)
      modifies this`sessions, this`log
      ensures (log, sessions) == RollAll(old(log), [], old(sessions), now)
    {
      var i := 0;
      var all := sessions;
      assert all[..0] == [] && all[0..] == all;
      while i < |sessions|
        invariant 0 <= i <= |sessions| == |all| && sessions[i..] == all[i..]
        invariant RollAll(log, sessions[..i], sessions[i..], now) == RollAll(old(log), [], old(sessions), now)
      {
        var s := sessions[i];
        assert sessions[i..][1..] == sessions[i + 1..] && sessions[..i + 1] == sessions[..i] + [s];
        if Max(0, now - s.startedAt) > 0 {
          var before := sessions;
          log := log + [Closing(s, Checkpoint, now)];
          sessions := sessions[i := s.(startedAt := now)];
          assert sessions[..i + 1] == before[..i] + [s.(startedAt := now)] && sessions[i + 1..] == before[i + 1..];
        }
        i := i + 1;
      }
      assert sessions[..i] == sessions && sessions[i..] == [];
    }

    method SyncFocusState(focused: bool, roots: seq<string>, now: int)
      modifies this
      ensures Abs() == After(enabled, old(Abs()), Sync(now, focused, roots))
    {
      if !enabled || !focused || roots == [] {
        timer := false;
        EndAllSessions(now);
        return;
      }
      assert roots[0..] == roots;
      for i := 0 to |roots|
        invariant timer == old(timer)
        invariant StartMissing(Abs(), roots[i..], now) == StartMissing(old(Abs()), roots, now)
      {
        assert roots[i..][1..] == roots[i + 1..];
        if !Has(sessions, roots[i]) {
          counter := counter + 1;
          sessions := sessions + [Session(roots[i], counter, now)];
          log := log + [Started(roots[i], counter)];
        }
      }
      EndRemoved(roots, now);
      timer := true;
    }

    method EndRemoved(roots: seq<string>, now: int)
      modifies this`sessions, this`log
      ensures (log, sessions) == EndUnlisted(old(log), [], old(sessions), roots, now)
    {
      var existing, kept := sessions, [];
      assert existing[0..] == existing;
      for i := 0 to |existing|
        invariant EndUnlisted(log, kept, existing[i..], roots, now) == EndUnlisted(old(log), [], existing, roots, now)
      {
        assert existing[i..][1..] == existing[i + 1..];
        if existing[i].root in roots {
          kept := kept + [existing[i]];
        } else {
          log := log + [Closing(existing[i], Final, now)];
        }
      }
      sessions := kept;
    }

    method FlushNow(now: int)
      modifies this
      ensures Abs() == After(enabled, old(Abs()), Flush(now))
    {
      WriteCheckpoint(now);
    }

    method DisposeAll(now: int)
      modifies this
      ensures Abs() == After(enabled, old(Abs()), Dispose(now))
    {
      timer := false;
      EndAllSessions(now);
    }
  }

  // --------------------------------------------------------- the time kept

  function Logged(log: seq<Entry>, root: string): int {
    if log == [] then 0
    else
      var last := log[|log| - 1];
      Logged(log[..|log| - 1], root) + (if last.Interval? && last.root == root then last.duration else 0)
  }

  /** Time of the open sessions of a root up to `now`. */
  function OpenTime(sessions: seq<Session>, root: string, now: int): int {
    if sessions == [] then 0
    else (if sessions[0].root == root then now - sessions[0].startedAt else 0) + OpenTime(sessions[1..], root, now)
  }

  function Count(sessions: seq<Session>, root: string): nat {
    if sessions == [] then 0 else (if sessions[0].root == root then 1 else 0) + Count(sessions[1..], root)
  }

  lemma LoggedSnoc(log: seq<Entry>, e: Entry, root: string)
    ensures Logged(log + [e], root) == Logged(log, root) + (if e.Interval? && e.root == root then e.duration else 0)
  {
    SnocFront(log, e);
  }

  lemma {:induction false} OpenConcat(a: seq<Session>, b: seq<Session>, root: string, now: int)
    ensures OpenTime(a + b, root, now) == OpenTime(a, root, now) + OpenTime(b, root, now)
    ensures Count(a + b, root) == Count(a, root) + Count(b, root)
  {
    if a == [] {
      Empty(b);
    } else {
      OpenConcat(a[1..], b, root, now);
      ConcatTail(a, b);
    }
  }

  lemma OpenSnoc(a: seq<Session>, s: Session, root: string, now: int)
    ensures OpenTime(a + [s], root, now) == OpenTime(a, root, now) + (if s.root == root then now - s.startedAt else 0)
    ensures Count(a + [s], root) == Count(a, root) + (if s.root == root then 1 else 0)
  {
    OpenConcat(a, [s], root, now);
    assert [s][1..] == [];
  }

  lemma {:induction false} CountMembers(sessions: seq<Session>, root: string)
    ensures Count(sessions, root) > 0 <==> exists s :: s in sessions && s.root == root
  {
    if sessions != [] {
      CountMembers(sessions[1..], root);
      Uncons(sessions);
    }
  }

  lemma HasIffCount(sessions: seq<Session>, root: string)
    ensures Has(sessions, root) <==> Count(sessions, root) > 0
  {
    CountMembers(sessions, root);
    if Has(sessions, root) {
      var i :| 0 <= i < |sessions| && sessions[i].root == root;
      assert sessions[i] in sessions;
    }
  }

  /** Every logged interval of the root ends by `t`. */
  ghost predicate EndedBy(log: seq<Entry>, root: string, t: int) {
    forall e :: e in log && e.Interval? && e.root == root ==> e.endedAt <= t
  }

  /** The logged intervals of the root follow one another. */
  ghost predicate Consecutive(log: seq<Entry>, root: string) {
    log == []
    || var front, last := log[..|log| - 1], log[|log| - 1];
       && Consecutive(front, root)
       && (last.Interval? && last.root == root ==>
             last.startedAt <= last.endedAt && EndedBy(front, root, last.startedAt))
  }

  /** Log and sessions fit together for a root at a time: at most one session,
      which began after everything logged. */
  ghost predicate Held(log: seq<Entry>, sessions: seq<Session>, root: string, now: int) {
    && Consecutive(log, root) && EndedBy(log, root, now)
    && Count(sessions, root) <= 1
    && forall s :: s in sessions && s.root == root ==> s.startedAt <= now && EndedBy(log, root, s.startedAt)
  }

  function Total(log: seq<Entry>, sessions: seq<Session>, root: string, now: int): int {
    Logged(log, root) + OpenTime(sessions, root, now)
  }

  lemma ConsecutiveSnoc(log: seq<Entry>, e: Entry, root: string)
    requires Consecutive(log, root)
    requires e.Interval? && e.root == root ==> e.startedAt <= e.endedAt && EndedBy(log, root, e.startedAt)
    ensures Consecutive(log + [e], root)
  {
    SnocFront(log, e);
  }

  lemma CountMiddle(a: seq<Session>, s: Session, b: seq<Session>, root: string, now: int)
    ensures Count(a + [s] + b, root) == Count(a + b, root) + (if s.root == root then 1 else 0)
    ensures OpenTime(a + [s] + b, root, now)
         == OpenTime(a + b, root, now) + (if s.root == root then now - s.startedAt else 0)
  {
    OpenConcat(a + [s], b, root, now);
    OpenSnoc(a, s, root, now);
    OpenConcat(a, b, root, now);
  }

  lemma NoOther(a: seq<Session>, s: Session, b: seq<Session>)
    requires Count(a + [s] + b, s.root) <= 1
    ensures forall x :: x in a + b ==> x.root != s.root
  {
    CountMiddle(a, s, b, s.root, 0);
    CountMembers(a + b, s.root);
  }

  lemma LogClosing(log: seq<Entry>, a: seq<Session>, s: Session, b: seq<Session>, kind: Kind, root: string, now: int)
    requires Held(log, a + [s] + b, root, now)
    ensures var after := log + [Closing(s, kind, now)];
            && Consecutive(after, root) && EndedBy(after, root, now)
            && (s.root != root ==> forall t :: EndedBy(log, root, t) ==> EndedBy(after, root, t))
            && Logged(after, root) == Logged(log, root) + (if s.root == root then now - s.startedAt else 0)
  {
    assert s in a + [s] + b;
    ConsecutiveSnoc(log, Closing(s, kind, now), root);
    LoggedSnoc(log, Closing(s, kind, now), root);
  }

  /** Closing a session moves its time from open to logged. */
  lemma CloseStep(log: seq<Entry>, a: seq<Session>, s: Session, b: seq<Session>, kind: Kind, root: string, now: int)
    requires Held(log, a + [s] + b, root, now)
    ensures Held(log + [Closing(s, kind, now)], a + b, root, now)
    ensures Total(log + [Closing(s, kind, now)], a + b, root, now) == Total(log, a + [s] + b, root, now)
    ensures Count(a + b, root) == Count(a + [s] + b, root) - (if s.root == root then 1 else 0)
  {
    LogClosing(log, a, s, b, kind, root, now);
    CountMiddle(a, s, b, root, now);
    if s.root == root {
      NoOther(a, s, b);
    } else {
      forall x | x in a + b ensures x in a + [s] + b {}
    }
  }

  /** A checkpoint logs the elapsed time and lets the session go on from now. */
  lemma RollStep(log: seq<Entry>, a: seq<Session>, s: Session, b: seq<Session>, root: string, now: int)
    requires Held(log, a + [s] + b, root, now)
    ensures var rolled := s.(startedAt := now);
            && Held(log + [Closing(s, Checkpoint, now)], a + [rolled] + b, root, now)
            && Total(log + [Closing(s, Checkpoint, now)], a + [rolled] + b, root, now)
                 == Total(log, a + [s] + b, root, now)
            && Count(a + [rolled] + b, root) == Count(a + [s] + b, root)
  {
    var rolled := s.(startedAt := now);
    CloseStep(log, a, s, b, Checkpoint, root, now);
    CountMiddle(a, s, b, root, now);
    CountMiddle(a, rolled, b, root, now);
    forall x | x in a + [rolled] + b && x != rolled ensures x in a + b {}
  }

  // ------------------------------------------------------------ the loops

  lemma {:induction false} EndAllKeeps(log: seq<Entry>, sessions: seq<Session>, root: string, now: int)
    requires Held(log, sessions, root, now)
    ensures Held(EndAll(log, sessions, now), [], root, now)
    ensures Total(EndAll(log, sessions, now), [], root, now) == Total(log, sessions, root, now)
    decreases |sessions|
  {
    if sessions != [] {
      var s, rest := sessions[0], sessions[1..];
      Uncons(sessions);
      Empty([s]);
      Empty(rest);
      CloseStep(log, [], s, rest, Final, root, now);
      EndAllKeeps(log + [Closing(s, Final, now)], rest, root, now);
    }
  }

  lemma {:induction false} RollAllKeeps(log: seq<Entry>, done: seq<Session>, rest: seq<Session>, root: string, now: int)
    requires Held(log, done + rest, root, now)
    ensures var r := RollAll(log, done, rest, now);
            && Held(r.0, r.1, root, now)
            && Total(r.0, r.1, root, now) == Total(log, done + rest, root, now)
            && Count(r.1, root) == Count(done + rest, root)
    decreases |rest|
  {
    if rest == [] {
      Empty(done);
    } else {
      var s, tail := rest[0], rest[1..];
      Uncons(rest);
      Assoc(done, [s], tail);
      if now - s.startedAt <= 0 {
        RollAllKeeps(log, done + [s], tail, root, now);
      } else {
        RollStep(log, done, s, tail, root, now);
        RollAllKeeps(log + [Closing(s, Checkpoint, now)], done + [s.(startedAt := now)], tail, root, now);
      }
    }
  }

  lemma {:induction false} EndUnlistedKeeps(
      log: seq<Entry>, kept: seq<Session>, rest: seq<Session>, roots: seq<string>, root: string, now: int)
    requires Held(log, kept + rest, root, now)
    ensures var r := EndUnlisted(log, kept, rest, roots, now);
            && Held(r.0, r.1, root, now)
            && Total(r.0, r.1, root, now) == Total(log, kept + rest, root, now)
            && Count(r.1, root) == Count(kept, root) + (if root in roots then Count(rest, root) else 0)
    decreases |rest|
  {
    if rest == [] {
      Empty(kept);
    } else {
      var s, tail := rest[0], rest[1..];
      Uncons(rest);
      Assoc(kept, [s], tail);
      OpenSnoc(kept, s, root, now);
      if s.root in roots {
        EndUnlistedKeeps(log, kept + [s], tail, roots, root, now);
      } else {
        CloseStep(log, kept, s, tail, Final, root, now);
        EndUnlistedKeeps(log + [Closing(s, Final, now)], kept, tail, roots, root, now);
      }
    }
  }

  lemma StartStep(s: State, added: string, root: string, now: int)
    requires Held(s.log, s.sessions, root, now) && !Has(s.sessions, added)
    ensures var log, sessions := s.log + [Started(added, s.counter + 1)],
                                 s.sessions + [Session(added, s.counter + 1, now)];
            && Held(log, sessions, root, now) && Total(log, sessions, root, now) == Total(s.log, s.sessions, root, now)
            && Count(sessions, root) == Count(s.sessions, root) + (if added == root then 1 else 0)
  {
    ConsecutiveSnoc(s.log, Started(added, s.counter + 1), root);
    LoggedSnoc(s.log, Started(added, s.counter + 1), root);
    OpenSnoc(s.sessions, Session(added, s.counter + 1, now), root, now);
    HasIffCount(s.sessions, added);
  }

  lemma {:induction false} StartMissingKeeps(s: State, roots: seq<string>, root: string, now: int)
    requires Held(s.log, s.sessions, root, now)
    ensures var t := StartMissing(s, roots, now);
            && Held(t.log, t.sessions, root, now)
            && Total(t.log, t.sessions, root, now) == Total(s.log, s.sessions, root, now)
            && Count(t.sessions, root) == if root in roots then 1 else Count(s.sessions, root)
    decreases |roots|
  {
    if roots != [] {
      Uncons(roots);
      HasIffCount(s.sessions, roots[0]);
      if Has(s.sessions, roots[0]) {
        StartMissingKeeps(s, roots[1..], root, now);
      } else {
        StartStep(s, roots[0], root, now);
        StartMissingKeeps(
          s.(sessions := s.sessions + [Session(roots[0], s.counter + 1, now)], counter := s.counter + 1,
             log := s.log + [Started(roots[0], s.counter + 1)]), roots[1..], root, now);
      }
    }
  }

  /** Whether an event leaves the root open and focused, given what was before. */
  predicate OpenAfter(enabled: bool, before: bool, event: Event, root: string) {
    match event
    case Sync(_, focused, roots) => enabled && focused && root in roots
    case Tick(_) => before
    case Flush(_) => before
    case Dispose(_) => false
  }

  lemma EventKeeps(enabled: bool, s: State, event: Event, root: string)
    requires Held(s.log, s.sessions, root, event.now)
    ensures var t := After(enabled, s, event);
            && Held(t.log, t.sessions, root, event.now)
            && Total(t.log, t.sessions, root, event.now) == Total(s.log, s.sessions, root, event.now)
            && (Count(t.sessions, root) == 1 <==> OpenAfter(enabled, Count(s.sessions, root) == 1, event, root))
  {
    match event
    case Sync(now, focused, roots) =>
      if !enabled || !focused || roots == [] {
        EndAllKeeps(s.log, s.sessions, root, now);
      } else {
        var started := StartMissing(s, roots, now);
        StartMissingKeeps(s, roots, root, now);
        Empty(started.sessions);
        EndUnlistedKeeps(started.log, [], started.sessions, roots, root, now);
      }
    case Tick(now) =>
      Empty(s.sessions);
      RollAllKeeps(s.log, [], s.sessions, root, now);
    case Flush(now) =>
      Empty(s.sessions);
      RollAllKeeps(s.log, [], s.sessions, root, now);
    case Dispose(now) => EndAllKeeps(s.log, s.sessions, root, now);
  }

  lemma {:induction false} TimePasses(log: seq<Entry>, sessions: seq<Session>, root: string, now: int, later: int)
    requires Held(log, sessions, root, now) && now <= later
    ensures Held(log, sessions, root, later)
    ensures Total(log, sessions, root, later)
         == Total(log, sessions, root, now) + (if Count(sessions, root) == 1 then later - now else 0)
  {
    OpenTimeGrows(sessions, root, now, later);
  }

  lemma {:induction false} OpenTimeGrows(sessions: seq<Session>, root: string, now: int, later: int)
    requires Count(sessions, root) <= 1
    ensures OpenTime(sessions, root, later)
         == OpenTime(sessions, root, now) + (if Count(sessions, root) == 1 then later - now else 0)
  {
    if sessions != [] {
      if sessions[0].root == root {
        NoOpenTime(sessions[1..], root, now);
        NoOpenTime(sessions[1..], root, later);
      } else {
        OpenTimeGrows(sessions[1..], root, now, later);
      }
    }
  }

  lemma {:induction false} NoOpenTime(sessions: seq<Session>, root: string, now: int)
    requires Count(sessions, root) == 0
    ensures OpenTime(sessions, root, now) == 0
  {
    if sessions != [] {
      NoOpenTime(sessions[1..], root, now);
    }
  }

  // ------------------------------------------------------------------ runs

  function Run(enabled: bool, events: seq<Event>): State {
    if events == [] then INITIAL
    else After(enabled, Run(enabled, events[..|events| - 1]), events[|events| - 1])
  }

  /** Whether the root is open in a focused window after the events. */
  predicate IsOpen(enabled: bool, events: seq<Event>, root: string) {
    events != []
    && OpenAfter(enabled, IsOpen(enabled, events[..|events| - 1], root), events[|events| - 1], root)
  }

  /** The total time for which the root was open in a focused window, up to the
      last event. */
  function FocusedTime(enabled: bool, events: seq<Event>, root: string): int {
    if |events| <= 1 then 0
    else
      var front := events[..|events| - 1];
      FocusedTime(enabled, front, root)
      + (if IsOpen(enabled, front, root) then events[|events| - 1].now - front[|front| - 1].now else 0)
  }

  ghost predicate ClockForward(events: seq<Event>) {
    forall i, j :: 0 <= i < j < |events| ==> events[i].now <= events[j].now
  }

  lemma {:induction false} RunKeeps(enabled: bool, events: seq<Event>, root: string)
    requires events != [] && ClockForward(events)
    ensures var s, now := Run(enabled, events), events[|events| - 1].now;
            && Held(s.log, s.sessions, root, now)
            && Total(s.log, s.sessions, root, now) == FocusedTime(enabled, events, root)
            && (Count(s.sessions, root) == 1 <==> IsOpen(enabled, events, root))
    decreases |events|
  {
    var front, last := events[..|events| - 1], events[|events| - 1];
    var s := Run(enabled, front);
    if front == [] {
      assert Held(s.log, s.sessions, root, last.now);
    } else {
      RunKeeps(enabled, front, root);
      TimePasses(s.log, s.sessions, root, front[|front| - 1].now, last.now);
    }
    EventKeeps(enabled, s, last, root);
  }

  lemma {:induction false} ConsecutiveIsDisjoint(log: seq<Entry>, root: string, i: nat, j: nat)
    requires Consecutive(log, root) && i < j < |log|
    requires log[i].Interval? && log[j].Interval? && log[i].root == root == log[j].root
    ensures log[i].startedAt <= log[i].endedAt <= log[j].startedAt <= log[j].endedAt
  {
    var front := log[..|log| - 1];
    if j < |log| - 1 {
      ConsecutiveIsDisjoint(front, root, i, j);
    } else {
      assert front[i] == log[i] && log[i] in front;
      ConsecutiveStart(front, root, i);
    }
  }

  lemma {:induction false} ConsecutiveStart(log: seq<Entry>, root: string, i: nat)
    requires Consecutive(log, root) && i < |log| && log[i].Interval? && log[i].root == root
    ensures log[i].startedAt <= log[i].endedAt
  {
    if i < |log| - 1 {
      ConsecutiveStart(log[..|log| - 1], root, i);
    }
  }

  /** Focus time is conserved: for every root and every sequence of events under
      a clock that does not go back, the logged intervals of the root do not
      overlap, and their durations plus the time of its open session equal the
      time it was open in a focused window. Once it is not, all is logged. */
  lemma FocusTimeIsConserved(enabled: bool, events: seq<Event>, root: string)
    requires events != [] && ClockForward(events)
    ensures var s, now := Run(enabled, events), events[|events| - 1].now;
            && Logged(s.log, root) + OpenTime(s.sessions, root, now) == FocusedTime(enabled, events, root)
            && (Has(s.sessions, root) <==> IsOpen(enabled, events, root))
            && (!IsOpen(enabled, events, root) ==> Logged(s.log, root) == FocusedTime(enabled, events, root))
            && forall i, j :: 0 <= i < j < |s.log| && s.log[i].Interval? && s.log[j].Interval?
                              && s.log[i].root == root == s.log[j].root
                 ==> s.log[i].startedAt <= s.log[i].endedAt <= s.log[j].startedAt <= s.log[j].endedAt
  {
    var s, now := Run(enabled, events), events[|events| - 1].now;
    RunKeeps(enabled, events, root);
    HasIffCount(s.sessions, root);
    if !IsOpen(enabled, events, root) {
      NoOpenTime(s.sessions, root, now);
    }
    forall i, j | 0 <= i < j < |s.log| && s.log[i].Interval? && s.log[j].Interval?
                  && s.log[i].root == root == s.log[j].root
      ensures s.log[i].startedAt <= s.log[i].endedAt <= s.log[j].startedAt <= s.log[j].endedAt
    {
      ConsecutiveIsDisjoint(s.log, root, i, j);
    }
  }
}
