/** Overlapping logins on one account: a session loads the row, checks the
    password, and writes back what it computed from its copy. */
module LoginSessions {
  import opened Login
  import opened Options
  import Sequences

  /** An open session: its event, with the clock reading, and its copy of the row. */
  datatype Held = Held(event: Event, copy: Account)
  datatype Done = Done(event: Event, outcome: Outcome, committed: bool)

  /** `history` lists the sessions that have ended, in the order of their ends. */
  datatype System = System(row: Account, open: map<nat, Held>, history: seq<Done>)
  const START: System := System(FRESH, map[], [])

  /** `Refuse` ends a session whose check was made, but whose commit the database
      refuses or never sees. */
  datatype Step = Load(session: nat, event: Event) | Commit(session: nat) | Refuse(session: nat)

  /** The session writes the columns whose value differs from its copy. */
  function Written(row: Account, copy: Account, changed: Account): Account {
    Account(if changed.failed == copy.failed then row.failed else changed.failed,
            if changed.lockedUntil == copy.lockedUntil then row.lockedUntil else changed.lockedUntil)
  }

  predicate Enabled(x: System, step: Step) {
    match step
    case Load(session, _) => session !in x.open
    case Commit(session) => session in x.open
    case Refuse(session) => session in x.open
  }

  function Do(s: Settings, x: System, step: Step): System
    requires Enabled(x, step)
  {
    match step
    case Load(session, event) => x.(open := x.open[session := Held(event, x.row)])
    case Commit(session) =>
      var held := x.open[session];
      System(Written(x.row, held.copy, After(s, held.copy, held.event)), x.open - {session},
             x.history + [Done(held.event, Verdict(held.copy, held.event), true)])
    case Refuse(session) =>
      var held := x.open[session];
      System(x.row, x.open - {session}, x.history + [Done(held.event, Verdict(held.copy, held.event), false)])
  }

  /** The steps can be taken in this order with at most `c` sessions open. */
  ghost predicate Possible(s: Settings, x: System, steps: seq<Step>, c: nat)
    decreases |steps|
  {
    && |x.open| <= c
    && (steps == [] || (Enabled(x, steps[0]) && Possible(s, Do(s, x, steps[0]), steps[1..], c)))
  }

  function End(s: Settings, x: System, steps: seq<Step>): System
    decreases |steps|
  {
    if steps == [] || !Enabled(x, steps[0]) then x else End(s, Do(s, x, steps[0]), steps[1..])
  }

  /** A session that meets no other is one login, or one password change. */
  lemma UninterruptedSession(s: Settings, x: System, session: nat, event: Event)
    requires session !in x.open
    ensures var y := Do(s, Do(s, x, Load(session, event)), Commit(session));
            && y.row == After(s, x.row, event) && y.open == x.open
            && y.history == x.history + [Done(event, Verdict(x.row, event), true)]
  {
  }

  ghost predicate CountersBelow(s: Settings, x: System) {
    && 0 <= x.row.failed < Threshold(s)
    && forall session :: session in x.open ==> 0 <= x.open[session].copy.failed < Threshold(s)
  }

  /** In every interleaving the counter stays below the threshold. */
  lemma {:induction false} CounterBelowInEveryInterleaving(s: Settings, x: System, steps: seq<Step>, c: nat)
    requires CountersBelow(s, x) && Possible(s, x, steps, c)
    ensures CountersBelow(s, End(s, x, steps))
    decreases |steps|
  {
    if steps != [] {
      CounterBelowInEveryInterleaving(s, Do(s, x, steps[0]), steps[1..], c);
    }
  }

  // ------------------------------------------------------- the lockout bound

  function EventsOf(history: seq<Done>): seq<Event> {
    seq(|history|, i requires 0 <= i < |history| => history[i].event)
  }

  function OutcomesOf(history: seq<Done>): seq<Outcome> {
    seq(|history|, i requires 0 <= i < |history| => history[i].outcome)
  }

  function Committed(history: seq<Done>): seq<Done> {
    if history == [] then []
    else if history[0].committed then [history[0]] + Committed(history[1..])
    else Committed(history[1..])
  }

  function Refused(history: seq<Done>): nat {
    if history == [] then 0 else (if history[0].committed then 0 else 1) + Refused(history[1..])
  }

  /** A stretch of the history whose readings lie in one window of the lockout's
      length and in which no success and no change is committed. */
  ghost predicate Stretch(s: Settings, part: seq<Done>, t: int) {
    InWindow(EventsOf(part), t, s.lockoutSeconds) && NoReset(OutcomesOf(Committed(part)))
  }

  /** No such stretch holds more than `k` failed checks, counted or not. */
  ghost predicate Bounded(s: Settings, history: seq<Done>, k: int) {
    forall i: nat, j: nat, t: int :: i <= j <= |history| && Stretch(s, history[i..j], t) ==>
      CountFailed(OutcomesOf(history[i..j])) <= k
  }

  /** The bound `k` holds in every run with at most `c` sessions open and at most `r`
      refused commits. */
  ghost predicate BoundHolds(s: Settings, c: nat, r: nat, k: int) {
    forall steps :: Possible(s, START, steps, c) && Refused(End(s, START, steps).history) <= r ==>
      Bounded(s, End(s, START, steps).history, k)
  }

  /** What a run with one session at a time keeps: its commits are a serial run. */
  ghost predicate Serial(s: Settings, x: System) {
    var history := Committed(x.history);
    && OutcomesOf(history) == Outcomes(s, FRESH, EventsOf(history))
    && x.row == Run(s, FRESH, EventsOf(history))
    && forall session :: session in x.open ==> x.open[session].copy == x.row
  }

  lemma {:induction false} Concat(a: seq<Done>, b: seq<Done>)
    ensures Committed(a + b) == Committed(a) + Committed(b) && Refused(a + b) == Refused(a) + Refused(b)
    ensures CountFailed(OutcomesOf(a + b)) == CountFailed(OutcomesOf(a)) + CountFailed(OutcomesOf(b))
    decreases |a|
  {
    if a == [] {
      Sequences.Empty(b);
      Sequences.Empty(Committed(b));
    } else {
      Sequences.ConcatTail(a, b);
      Concat(a[1..], b);
      assert OutcomesOf(a + b)[1..] == OutcomesOf(a[1..] + b) && OutcomesOf(a)[1..] == OutcomesOf(a[1..]);
      if a[0].committed {
        Sequences.Assoc([a[0]], Committed(a[1..]), Committed(b));
      }
    }
  }

  lemma {:induction false} RunSnoc(s: Settings, account: Account, events: seq<Event>, last: Event)
    ensures Run(s, account, events + [last]) == After(s, Run(s, account, events), last)
    ensures Outcomes(s, account, events + [last])
         == Outcomes(s, account, events) + [Verdict(Run(s, account, events), last)]
    decreases |events|
  {
    if events == [] {
      assert [] + [last] == [last] && [last][1..] == [];
    } else {
      RunSnoc(s, After(s, account, events[0]), events[1..], last);
      Sequences.ConcatTail(events, [last]);
      Sequences.Assoc([Verdict(account, events[0])], Outcomes(s, After(s, account, events[0]), events[1..]),
                      [Verdict(Run(s, account, events), last)]);
    }
  }

  lemma OnlySession(open: map<nat, Held>, session: nat)
    requires |open| <= 1 && session in open
    ensures open - {session} == map[]
  {
    assert |open.Keys - {session}| == 0;
    assert (open - {session}).Keys == {};
  }

  lemma CommitKeepsSerial(s: Settings, x: System, session: nat)
    requires Serial(s, x) && session in x.open && |x.open| <= 1
    ensures Serial(s, Do(s, x, Commit(session)))
  {
    var held := x.open[session];
    var history, done := Committed(x.history), Done(held.event, Verdict(held.copy, held.event), true);
    OnlySession(x.open, session);
    RunSnoc(s, FRESH, EventsOf(history), held.event);
    Concat(x.history, [done]);
    assert Committed([done]) == [done] by {
      assert [done][1..] == [];
    }
    assert EventsOf(history + [done]) == EventsOf(history) + [held.event];
    assert OutcomesOf(history + [done]) == OutcomesOf(history) + [done.outcome];
  }

  lemma RefusalKeepsSerial(s: Settings, x: System, session: nat)
    requires Serial(s, x) && session in x.open
    ensures Serial(s, Do(s, x, Refuse(session)))
  {
    var held := x.open[session];
    var done := Done(held.event, Verdict(held.copy, held.event), false);
    Concat(x.history, [done]);
    assert Committed([done]) == [] by {
      assert [done][1..] == [];
    }
    Sequences.Empty(Committed(x.history));
    assert Committed(Do(s, x, Refuse(session)).history) == Committed(x.history);
  }

  lemma {:induction false} OneAtATimeIsSerial(s: Settings, x: System, steps: seq<Step>)
    requires Serial(s, x) && Possible(s, x, steps, 1)
    ensures Serial(s, End(s, x, steps))
    decreases |steps|
  {
    if steps != [] {
      var y := Do(s, x, steps[0]);
      match steps[0] {
        case Load(_, _) =>
        case Commit(session) => CommitKeepsSerial(s, x, session);
        case Refuse(session) => RefusalKeepsSerial(s, x, session);
      }
      OneAtATimeIsSerial(s, y, steps[1..]);
    }
  }

  lemma {:induction false} OutcomesFrom(s: Settings, account: Account, events: seq<Event>, i: nat)
    requires i <= |events|
    ensures Outcomes(s, account, events)[i..] == Outcomes(s, Run(s, account, events[..i]), events[i..])
    decreases |events|
  {
    if i == 0 {
      assert events[..0] == [] && events[0..] == events;
    } else {
      var next := After(s, account, events[0]);
      OutcomesFrom(s, next, events[1..], i - 1);
      assert events[..i][0] == events[0] && events[..i][1..] == events[1..][..i - 1];
      assert events[1..][i - 1..] == events[i..];
      assert Outcomes(s, account, events)[i..] == Outcomes(s, next, events[1..])[i - 1..];
    }
  }

  lemma {:induction false} OutcomesUpTo(s: Settings, account: Account, events: seq<Event>, k: nat)
    requires k <= |events|
    ensures Outcomes(s, account, events)[..k] == Outcomes(s, account, events[..k])
    decreases |events|
  {
    if k == 0 {
      assert events[..0] == [];
    } else {
      var next := After(s, account, events[0]);
      OutcomesUpTo(s, next, events[1..], k - 1);
      assert events[..k][0] == events[0] && events[..k][1..] == events[1..][..k - 1];
      assert Outcomes(s, account, events)[..k]
          == [Verdict(account, events[0])] + Outcomes(s, next, events[1..])[..k - 1];
    }
  }

  /** The failed checks of a stretch are those that are committed and the refused
      ones. */
  lemma {:induction false} FailedAreCommittedOrRefused(part: seq<Done>)
    ensures CountFailed(OutcomesOf(part)) <= CountFailed(OutcomesOf(Committed(part))) + Refused(part)
    decreases |part|
  {
    if part != [] {
      FailedAreCommittedOrRefused(part[1..]);
      assert OutcomesOf(part)[1..] == OutcomesOf(part[1..]);
      if part[0].committed {
        var rest := Committed(part[1..]);
        assert OutcomesOf([part[0]] + rest)[1..] == OutcomesOf(rest);
      }
    }
  }

  lemma {:induction false} CommittedInWindow(part: seq<Done>, t: int, length: int)
    requires InWindow(EventsOf(part), t, length)
    ensures InWindow(EventsOf(Committed(part)), t, length)
    decreases |part|
  {
    if part != [] {
      assert forall i :: 0 <= i < |part[1..]| ==> EventsOf(part[1..])[i] == EventsOf(part)[i + 1];
      CommittedInWindow(part[1..], t, length);
      if part[0].committed {
        var rest := Committed(part[1..]);
        assert forall i :: 0 < i < |rest| + 1 ==> EventsOf([part[0]] + rest)[i] == EventsOf(rest)[i - 1];
        assert EventsOf([part[0]] + rest)[0] == EventsOf(part)[0];
      }
    }
  }

  lemma ThreeParts(a: seq<Done>, b: seq<Done>, c: seq<Done>)
    ensures Committed(a + b + c) == Committed(a) + Committed(b) + Committed(c)
    ensures Refused(b) <= Refused(a + b + c)
  {
    Concat(a + b, c);
    Concat(a, b);
  }

  /** The committed part of a stretch is bounded by the threshold. */
  lemma CommittedIsBounded(s: Settings, before: seq<Done>, part: seq<Done>, after: seq<Done>, t: int)
    requires var history := before + part + after;
             OutcomesOf(history) == Outcomes(s, FRESH, EventsOf(history))
    requires InWindow(EventsOf(part), t, s.lockoutSeconds) && NoReset(OutcomesOf(part))
    ensures CountFailed(OutcomesOf(part)) <= Threshold(s)
  {
    var history := before + part + after;
    var events, i, j := EventsOf(history), |before|, |before| + |part|;
    assert OutcomesOf(history)[i..j] == OutcomesOf(part) && events[i..j] == EventsOf(part);
    StretchOutcomes(s, events, i, j);
    StretchIsBounded(s, events, i, j, t);
  }

  lemma SerialIsBounded(s: Settings, x: System)
    requires Serial(s, x)
    ensures Bounded(s, x.history, Threshold(s) + Refused(x.history))
  {
    var history := x.history;
    forall i: nat, j: nat, t: int | i <= j <= |history| && Stretch(s, history[i..j], t)
      ensures CountFailed(OutcomesOf(history[i..j])) <= Threshold(s) + Refused(history)
    {
      var a, b, c := history[..i], history[i..j], history[j..];
      assert history == a + b + c;
      ThreeParts(a, b, c);
      CommittedInWindow(b, t, s.lockoutSeconds);
      CommittedIsBounded(s, Committed(a), Committed(b), Committed(c), t);
      FailedAreCommittedOrRefused(b);
    }
  }

  lemma StretchOutcomes(s: Settings, events: seq<Event>, i: nat, j: nat)
    requires i <= j <= |events|
    ensures Outcomes(s, FRESH, events)[i..j] == Outcomes(s, Run(s, FRESH, events[..i]), events[i..j])
  {
    var upTo := events[..j];
    OutcomesUpTo(s, FRESH, events, j);
    OutcomesFrom(s, FRESH, upTo, i);
    assert upTo[..i] == events[..i] && upTo[i..] == events[i..j];
    assert Outcomes(s, FRESH, events)[i..j] == Outcomes(s, FRESH, upTo)[i..];
  }

  lemma StretchIsBounded(s: Settings, events: seq<Event>, i: nat, j: nat, t: int)
    requires i <= j <= |events| && InWindow(events[i..j], t, s.lockoutSeconds)
    requires NoReset(Outcomes(s, Run(s, FRESH, events[..i]), events[i..j]))
    ensures CountFailed(Outcomes(s, Run(s, FRESH, events[..i]), events[i..j])) <= Threshold(s)
  {
    LockoutBound(s, events, i, j, t);
  }

  // --------------------------------------------------- overlapping sessions

  /** A wrong password on an active account, read at time 0. */
  const WRONG: Event := Attempt(0, true, false)

  function Failures(n: nat): seq<Done> {
    seq(n, i => Done(WRONG, Outcome.Failed, true))
  }

  lemma OneMoreFailure(n: nat)
    ensures Failures(n) + [Done(WRONG, Outcome.Failed, true)] == Failures(n + 1)
  {
  }

  lemma {:induction false} CountFailures(n: nat)
    ensures CountFailed(OutcomesOf(Failures(n))) == n
  {
    if n > 0 {
      CountFailures(n - 1);
      assert OutcomesOf(Failures(n))[1..] == OutcomesOf(Failures(n - 1));
    }
  }

  lemma {:induction false} Joined(s: Settings, x: System, a: seq<Step>, b: seq<Step>, c: nat)
    requires Possible(s, x, a, c) && Possible(s, End(s, x, a), b, c)
    ensures Possible(s, x, a + b, c) && End(s, x, a + b) == End(s, End(s, x, a), b)
    decreases |a|
  {
    if a == [] {
      Sequences.Empty(b);
    } else {
      Sequences.ConcatTail(a, b);
      Joined(s, Do(s, x, a[0]), a[1..], b, c);
    }
  }

  const COPY: Held := Held(WRONG, FRESH)

  lemma OneStep(s: Settings, x: System, step: Step, rest: seq<Step>, c: nat)
    requires |x.open| <= c && Enabled(x, step) && Possible(s, Do(s, x, step), rest, c)
    ensures Possible(s, x, [step] + rest, c) && End(s, x, [step] + rest) == End(s, Do(s, x, step), rest)
  {
    Sequences.ConsTail(step, rest);
  }

  /** Sessions `k` to `n` that hold a copy of the fresh row. */
  function Waiting(k: nat, n: nat): map<nat, Held>
    decreases n - k
  {
    if k >= n then map[] else Waiting(k + 1, n)[k := COPY]
  }

  lemma {:induction false} WaitingSessions(k: nat, n: nat)
    requires k <= n
    ensures |Waiting(k, n)| == n - k
    ensures forall session: nat :: session in Waiting(k, n) <==> k <= session < n
    ensures forall session: nat :: session in Waiting(k, n) ==> Waiting(k, n)[session] == COPY
    decreases n - k
  {
    if k < n {
      WaitingSessions(k + 1, n);
    }
  }

  lemma OneMoreWaits(n: nat)
    ensures Waiting(0, n)[n := COPY] == Waiting(0, n + 1)
  {
    WaitingSessions(0, n);
    WaitingSessions(0, n + 1);
  }

  lemma OneLessWaits(k: nat, n: nat)
    requires k < n
    ensures Waiting(k, n) - {k} == Waiting(k + 1, n)
  {
    WaitingSessions(k + 1, n);
  }

  function Loads(k: nat, n: nat): seq<Step>
    requires k <= n
    decreases n - k
  {
    if k == n then [] else [Load(k, WRONG)] + Loads(k + 1, n)
  }

  function Commits(n: nat): seq<Step> {
    seq(n, i requires 0 <= i < n => Commit(i))
  }

  lemma {:induction false} AllLoad(s: Settings, k: nat, n: nat)
    requires k <= n
    ensures var x := System(FRESH, Waiting(0, k), []);
            && Possible(s, x, Loads(k, n), n)
            && End(s, x, Loads(k, n)) == System(FRESH, Waiting(0, n), [])
    decreases n - k
  {
    var x := System(FRESH, Waiting(0, k), []);
    WaitingSessions(0, k);
    if k < n {
      OneMoreWaits(k);
      AllLoad(s, k + 1, n);
      OneStep(s, x, Load(k, WRONG), Loads(k + 1, n), n);
    }
  }

  /** The row after `k` of the sessions have committed. */
  function RowAfter(s: Settings, k: nat): Account {
    if k == 0 then FRESH else AfterFailure(s, FRESH, 0)
  }

  function Midway(s: Settings, k: nat, n: nat): System {
    System(RowAfter(s, k), Waiting(k, n), Failures(k))
  }

  lemma OneCommits(s: Settings, k: nat, n: nat)
    requires k < n
    ensures |Midway(s, k, n).open| <= n && Enabled(Midway(s, k, n), Commit(k))
    ensures Do(s, Midway(s, k, n), Commit(k)) == Midway(s, k + 1, n)
  {
    WaitingSessions(k, n);
    OneLessWaits(k, n);
    OneMoreFailure(k);
  }

  lemma OneMoreCommits(s: Settings, k: nat, n: nat)
    requires k < n
    ensures Possible(s, Midway(s, k, n), [Commit(k)], n)
    ensures End(s, Midway(s, k, n), [Commit(k)]) == Midway(s, k + 1, n)
    ensures Commits(k) + [Commit(k)] == Commits(k + 1)
  {
    OneCommits(s, k, n);
    assert |Midway(s, k + 1, n).open| <= n by {
      WaitingSessions(k + 1, n);
    }
    OneStep(s, Midway(s, k, n), Commit(k), [], n);
    Sequences.Empty([Commit(k)]);
  }

  lemma {:induction false} AllCommit(s: Settings, k: nat, n: nat)
    requires k <= n
    ensures Possible(s, Midway(s, 0, n), Commits(k), n)
    ensures End(s, Midway(s, 0, n), Commits(k)) == Midway(s, k, n)
  {
    if k == 0 {
      WaitingSessions(0, n);
    } else {
      AllCommit(s, k - 1, n);
      OneMoreCommits(s, k - 1, n);
      Joined(s, Midway(s, 0, n), Commits(k - 1), [Commit(k - 1)], n);
    }
  }

  function Wave(n: nat): seq<Step> {
    Loads(0, n) + Commits(n)
  }

  /** Sessions that load a fresh account before any of them commits all have their
      password checked and fail, but the account counts a single failure. */
  lemma OverlappingFailuresCountOnce(s: Settings, n: nat)
    requires n >= 1
    ensures Possible(s, START, Wave(n), n)
    ensures End(s, START, Wave(n)) == System(AfterFailure(s, FRESH, 0), map[], Failures(n))
    ensures CountFailed(OutcomesOf(Failures(n))) == n
  {
    assert Failures(0) == [] && Waiting(n, n) == map[];
    AllLoad(s, 0, n);
    AllCommit(s, n, n);
    Joined(s, START, Loads(0, n), Commits(n), n);
    CountFailures(n);
  }

  function Singles(m: nat): seq<Step> {
    if m == 0 then [] else [Load(0, WRONG)] + ([Commit(0)] + Singles(m - 1))
  }

  /** One failure on its own; `y` is what it leaves. */
  lemma SingleFails(s: Settings, x: System, y: System, rest: seq<Step>)
    requires x.open == map[] && x.row.lockedUntil.None?
    requires y == System(AfterFailure(s, x.row, 0), map[], x.history + [Done(WRONG, Outcome.Failed, true)])
    requires Possible(s, y, rest, 1)
    ensures Possible(s, x, [Load(0, WRONG)] + ([Commit(0)] + rest), 1)
    ensures End(s, x, [Load(0, WRONG)] + ([Commit(0)] + rest)) == End(s, y, rest)
  {
    var loaded := Do(s, x, Load(0, WRONG));
    UninterruptedSession(s, x, 0, WRONG);
    assert Do(s, loaded, Commit(0)) == y;
    Sequences.ConsTail(Commit(0), rest);
    Sequences.ConsTail(Load(0, WRONG), [Commit(0)] + rest);
  }

  /** Failures one after the other, up to the one that locks. */
  lemma {:induction false} SinglesFail(s: Settings, failed: nat, n: nat, m: nat)
    requires failed + m <= Threshold(s)
    ensures var x := System(Account(failed, None), map[], Failures(n));
            && Possible(s, x, Singles(m), 1)
            && End(s, x, Singles(m)).history == Failures(n + m)
    decreases m
  {
    if m > 0 {
      var x := System(Account(failed, None), map[], Failures(n));
      var y := System(AfterFailure(s, x.row, 0), map[], Failures(n + 1));
      OneMoreFailure(n);
      if m > 1 {
        SinglesFail(s, failed + 1, n + 1, m - 1);
      }
      SingleFails(s, x, y, Singles(m - 1));
    }
  }

  lemma {:induction false} MoreSessionsAllowed(s: Settings, x: System, steps: seq<Step>, c: nat, d: nat)
    requires Possible(s, x, steps, c) && c <= d
    ensures Possible(s, x, steps, d)
    decreases |steps|
  {
    if steps != [] {
      MoreSessionsAllowed(s, Do(s, x, steps[0]), steps[1..], c, d);
    }
  }

  /** Two overlapping sessions, then one at a time up to the lock: one failure more
      than the threshold, all at one moment. */
  lemma TwoSessionsExceed(s: Settings) returns (steps: seq<Step>)
    ensures Possible(s, START, steps, 2)
    ensures End(s, START, steps).history == Failures(Threshold(s) + 1)
  {
    var m := Threshold(s) - 1;
    OverlappingFailuresCountOnce(s, 2);
    steps := Wave(2);
    if m > 0 {
      var x := System(Account(1, None), map[], Failures(2));
      assert End(s, START, steps) == x;
      SinglesFail(s, 1, 2, m);
      MoreSessionsAllowed(s, x, Singles(m), 1, 2);
      Joined(s, START, steps, Singles(m), 2);
      steps := steps + Singles(m);
    }
  }

  // ---------------------------------------------------------- refused commits

  function Refusals(r: nat): seq<Done> {
    seq(r, i => Done(WRONG, Outcome.Failed, false))
  }

  lemma {:induction false} CountRefusals(r: nat)
    ensures CountFailed(OutcomesOf(Refusals(r))) == r && Refused(Refusals(r)) == r
    ensures Committed(Refusals(r)) == []
  {
    if r > 0 {
      CountRefusals(r - 1);
      assert OutcomesOf(Refusals(r))[1..] == OutcomesOf(Refusals(r - 1));
      assert Refusals(r)[1..] == Refusals(r - 1);
    }
  }

  lemma {:induction false} FailuresAreCommitted(n: nat)
    ensures Committed(Failures(n)) == Failures(n) && Refused(Failures(n)) == 0
  {
    if n > 0 {
      assert Failures(n)[1..] == Failures(n - 1);
      FailuresAreCommitted(n - 1);
    }
  }

  function RefusedSteps(r: nat): seq<Step> {
    if r == 0 then [] else [Load(0, WRONG)] + ([Refuse(0)] + RefusedSteps(r - 1))
  }

  /** Refused failures leave the account as it was. */
  lemma {:induction false} RefusalsLeaveTheRow(s: Settings, r: nat, n: nat)
    ensures var x := System(FRESH, map[], Refusals(n));
            && Possible(s, x, RefusedSteps(r), 1)
            && End(s, x, RefusedSteps(r)) == System(FRESH, map[], Refusals(n + r))
    decreases r
  {
    if r > 0 {
      var x, y := System(FRESH, map[], Refusals(n)), System(FRESH, map[], Refusals(n + 1));
      var loaded := Do(s, x, Load(0, WRONG));
      RefusalsLeaveTheRow(s, r - 1, n + 1);
      assert Refusals(n) + [Done(WRONG, Outcome.Failed, false)] == Refusals(n + 1);
      assert loaded.open - {0} == map[];
      assert Do(s, loaded, Refuse(0)) == y;
      OneStep(s, loaded, Refuse(0), RefusedSteps(r - 1), 1);
      OneStep(s, x, Load(0, WRONG), [Refuse(0)] + RefusedSteps(r - 1), 1);
    }
  }

  /** What has ended before does not matter for what follows. */
  lemma {:induction false} EarlierHistory(s: Settings, x: System, earlier: seq<Done>, steps: seq<Step>, c: nat)
    requires Possible(s, x, steps, c)
    ensures var y := x.(history := earlier + x.history);
            && Possible(s, y, steps, c)
            && End(s, y, steps).history == earlier + End(s, x, steps).history
    decreases |steps|
  {
    if steps != [] {
      var next := Do(s, x, steps[0]);
      if !steps[0].Load? {
        Sequences.Assoc(earlier, x.history, [next.history[|x.history|]]);
      }
      EarlierHistory(s, next, earlier, steps[1..], c);
    }
  }

  /** `r` refused failures, and then a run that starts on the fresh account. */
  lemma RefusedFirst(s: Settings, r: nat, later: seq<Step>, c: nat) returns (steps: seq<Step>)
    requires c >= 1 && Possible(s, START, later, c)
    ensures Possible(s, START, steps, c)
    ensures End(s, START, steps).history == Refusals(r) + End(s, START, later).history
  {
    assert Refusals(0) == [];
    RefusalsLeaveTheRow(s, r, 0);
    EarlierHistory(s, START, Refusals(r), later, c);
    Sequences.Empty(Refusals(r));
    MoreSessionsAllowed(s, START, RefusedSteps(r), 1, c);
    Joined(s, START, RefusedSteps(r), later, c);
    steps := RefusedSteps(r) + later;
  }

  /** Failures at one moment, the first `r` of them refused. */
  lemma FailuresCounted(s: Settings, r: nat, n: nat)
    ensures Refused(Refusals(r) + Failures(n)) == r
    ensures CountFailed(OutcomesOf(Refusals(r) + Failures(n))) == r + n
    ensures NoReset(OutcomesOf(Committed(Refusals(r) + Failures(n))))
  {
    Concat(Refusals(r), Failures(n));
    CountRefusals(r);
    FailuresAreCommitted(n);
    CountFailures(n);
    Sequences.Empty(Failures(n));
  }

  lemma FailuresExceed(s: Settings, r: nat, n: nat, k: int)
    requires s.lockoutSeconds >= 1 && k < r + n
    ensures !Bounded(s, Refusals(r) + Failures(n), k)
  {
    var history := Refusals(r) + Failures(n);
    FailuresCounted(s, r, n);
    assert history[0..|history|] == history;
    assert Stretch(s, history[0..|history|], 0);
  }

  ghost predicate OnlyAttemptsFail(history: seq<Done>) {
    forall k :: 0 <= k < |history| && history[k].outcome == Outcome.Failed ==> history[k].event.Attempt?
  }

  lemma {:induction false} FailuresAreAttempts(s: Settings, x: System, steps: seq<Step>, c: nat)
    requires OnlyAttemptsFail(x.history) && Possible(s, x, steps, c)
    ensures OnlyAttemptsFail(End(s, x, steps).history)
    decreases |steps|
  {
    if steps != [] {
      FailuresAreAttempts(s, Do(s, x, steps[0]), steps[1..], c);
    }
  }

  lemma {:induction false} CountNone(outcomes: seq<Outcome>)
    requires Outcome.Failed !in outcomes
    ensures CountFailed(outcomes) == 0
  {
    if outcomes != [] {
      CountNone(outcomes[1..]);
    }
  }

  /** A window without length holds no reading. */
  lemma NoneInEmptyWindow(s: Settings, part: seq<Done>, t: int)
    requires s.lockoutSeconds <= 0 && Stretch(s, part, t) && OnlyAttemptsFail(part)
    ensures CountFailed(OutcomesOf(part)) == 0
  {
    forall k | 0 <= k < |part|
      ensures OutcomesOf(part)[k] != Outcome.Failed
    {
      assert EventsOf(part)[k] == part[k].event;
    }
    CountNone(OutcomesOf(part));
  }

  /** A lockout without length bounds every run by every bound. */
  lemma EmptyWindowIsBounded(s: Settings, c: nat, r: nat, k: nat)
    requires s.lockoutSeconds <= 0
    ensures BoundHolds(s, c, r, k)
  {
    forall steps | Possible(s, START, steps, c)
      ensures Bounded(s, End(s, START, steps).history, k)
    {
      var history := End(s, START, steps).history;
      FailuresAreAttempts(s, START, steps, c);
      forall i: nat, j: nat, t: int | i <= j <= |history| && Stretch(s, history[i..j], t)
        ensures CountFailed(OutcomesOf(history[i..j])) <= k
      {
        NoneInEmptyWindow(s, history[i..j], t);
      }
    }
  }

  lemma OneAtATimeIsBounded(s: Settings, c: nat, r: nat, k: nat)
    requires c <= 1 && k >= Threshold(s) + r
    ensures BoundHolds(s, c, r, k)
  {
    forall steps | Possible(s, START, steps, c) && Refused(End(s, START, steps).history) <= r
      ensures Bounded(s, End(s, START, steps).history, k)
    {
      MoreSessionsAllowed(s, START, steps, c, 1);
      OneAtATimeIsSerial(s, START, steps);
      SerialIsBounded(s, End(s, START, steps));
    }
  }

  /** The lockout bound, which moves by one for every commit that may be refused,
      holds in every run with at most `c` sessions open exactly when no two overlap, or
      when the lockout has no length. */
  lemma LockoutBoundIffSerial(s: Settings, c: nat, r: nat)
    ensures BoundHolds(s, c, r, Threshold(s) + r) <==> c <= 1 || s.lockoutSeconds <= 0
  {
    if s.lockoutSeconds <= 0 {
      EmptyWindowIsBounded(s, c, r, Threshold(s) + r);
    } else if c <= 1 {
      OneAtATimeIsBounded(s, c, r, Threshold(s) + r);
    } else {
      var n := Threshold(s) + 1;
      var exceeding := TwoSessionsExceed(s);
      MoreSessionsAllowed(s, START, exceeding, 2, c);
      var steps := RefusedFirst(s, r, exceeding, c);
      FailuresCounted(s, r, n);
      FailuresExceed(s, r, n, Threshold(s) + r);
    }
  }

  /** With one session at a time and at most `r` refused commits, exactly the
      threshold and `r` more failed checks fit into a window. */
  lemma RefusalsMoveTheBoundBy(s: Settings, r: nat, k: nat)
    ensures BoundHolds(s, 1, r, k) <==> k >= Threshold(s) + r || s.lockoutSeconds <= 0
  {
    if s.lockoutSeconds <= 0 {
      EmptyWindowIsBounded(s, 1, r, k);
    } else if k >= Threshold(s) + r {
      OneAtATimeIsBounded(s, 1, r, k);
    } else {
      var n := Threshold(s);
      assert Failures(0) == [];
      SinglesFail(s, 0, 0, n);
      var steps := RefusedFirst(s, r, Singles(n), 1);
      FailuresCounted(s, r, n);
      FailuresExceed(s, r, n, k);
    }
  }
}
