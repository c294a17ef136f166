/** Which lock orders threads can produce: every list of events whose readings are at
    most `d` behind has an interleaving in which each thread takes the lock at most
    `d` after its reading. The exact limits on event lists are limits on threads. */
module LimiterThreads {
  import opened LimiterSkew
  import opened Numbers
  import opened RateLimiter
  import Sequences

  ghost predicate Reached(s: Threads, d: nat) {
    exists states: seq<Threads>, steps :: Execution(states, steps, d) && states[|steps|] == s
  }

  lemma Begins(clock: int, d: nat)
    ensures Reached(Threads(clock, map[], []), d)
  {
    var s := Threads(clock, map[], []);
    var none: seq<Step> := [];
    assert Execution([s], none, d) && [s][|none|] == s;
  }

  lemma GoesOn(s: Threads, t: Threads, step: Step, d: nat)
    requires Reached(s, d) && Next(s, t, step, d)
    ensures Reached(t, d)
  {
    var states: seq<Threads>, steps :| Execution(states, steps, d) && states[|steps|] == s;
    var more, n := steps + [step], |steps|;
    assert Execution(states + [t], more, d) by {
      forall i | 0 <= i < |more|
        ensures Next((states + [t])[i], (states + [t])[i + 1], more[i], d)
      {
        if i < n {
          assert Next(states[i], states[i + 1], steps[i], d);
        }
      }
    }
    assert (states + [t])[|more|] == t;
  }

  // ------------------------------------------------------------ the schedule

  /** Thread `i` makes the attempt `events[i]`. The clock shows `clock`, the first `k`
      events have taken the lock, and of the others those have read the clock whose
      reading is due: all before `clock`, and the first `m` events at `clock`. */
  function Due(events: seq<Event>, clock: int, k: nat, m: nat): map<nat, Event> {
    map i: nat | k <= i < |events| && events[i].Attempt?
                 && (events[i].now < clock || (events[i].now == clock && i < m)) :: events[i]
  }

  function At(events: seq<Event>, clock: int, k: nat, m: nat): Threads
    requires k <= |events|
  {
    Threads(clock, Due(events, clock, k, m), events[..k])
  }

  /** One event reads the clock, or has no reading to make. */
  lemma OneReads(events: seq<Event>, clock: int, k: nat, m: nat, d: nat)
    requires k <= |events| && m < |events| && Reached(At(events, clock, k, m), d)
    ensures Reached(At(events, clock, k, m + 1), d)
  {
    var s, t := At(events, clock, k, m), At(events, clock, k, m + 1);
    if k <= m && events[m].Attempt? && events[m].now == clock {
      assert t.pending == s.pending[m := Attempt(events[m].key, clock)];
      GoesOn(s, t, ReadClock(m, events[m].key), d);
    } else {
      assert t.pending == s.pending;
    }
  }

  lemma {:induction false} AllRead(events: seq<Event>, clock: int, k: nat, m: nat, d: nat)
    requires k <= |events| && m <= |events| && Reached(At(events, clock, k, m), d)
    ensures Reached(At(events, clock, k, |events|), d)
    decreases |events| - m
  {
    if m < |events| {
      OneReads(events, clock, k, m, d);
      AllRead(events, clock, k, m + 1, d);
    }
  }

  /** The clock may run on; the readings that are due are made on the way. */
  lemma {:induction false} ClockRuns(events: seq<Event>, clock: int, later: int, k: nat, d: nat)
    requires k <= |events| && clock <= later && Reached(At(events, clock, k, |events|), d)
    ensures Reached(At(events, later, k, |events|), d)
    decreases later - clock
  {
    if clock < later {
      var s, t := At(events, clock, k, |events|), At(events, clock + 1, k, 0);
      assert t.pending == s.pending;
      GoesOn(s, t, Tick(1), d);
      AllRead(events, clock + 1, k, 0, d);
      ClockRuns(events, clock + 1, later, k, d);
    }
  }

  /** The next event gets the lock, unless its reading is not made yet or too old. */
  lemma NextLocks(events: seq<Event>, clock: int, k: nat, d: nat)
    requires k < |events| && Reached(At(events, clock, k, |events|), d)
    requires events[k].Attempt? ==> events[k].now <= clock <= events[k].now + d
    ensures Reached(At(events, clock, k + 1, |events|), d)
  {
    var s, t := At(events, clock, k, |events|), At(events, clock, k + 1, |events|);
    Sequences.TakeSnoc(events, k);
    if events[k].Attempt? {
      assert t.pending == s.pending - {k};
      GoesOn(s, t, TakeLock(k), d);
    } else {
      assert t.pending == s.pending;
      GoesOn(s, t, Administer(events[k]), d);
    }
  }

  /** No reading of the events from `k` on is more than `d` before the clock. */
  ghost predicate InTime(events: seq<Event>, clock: int, k: nat, d: nat) {
    forall i :: k <= i < |events| && events[i].Attempt? ==> clock <= events[i].now + d
  }

  lemma {:induction false} FirstLock(events: seq<Event>, k: nat, d: nat) returns (clock: int)
    requires SkewAtMost(events, d) && k <= |events|
    ensures Reached(At(events, clock, k, |events|), d) && InTime(events, clock, k, d)
  {
    if k == 0 {
      clock := Earliest(events);
      assert At(events, clock, 0, 0) == Threads(clock, map[], []);
      Begins(clock, d);
      AllRead(events, clock, 0, 0, d);
    } else {
      var before := FirstLock(events, k - 1, d);
      var last := events[k - 1];
      clock := if last.Attempt? then Max(before, last.now) else before;
      ClockRuns(events, before, clock, k - 1, d);
      NextLocks(events, clock, k - 1, d);
    }
  }

  /** No reading comes before it. */
  function Earliest(events: seq<Event>): (clock: int)
    ensures forall i :: 0 <= i < |events| && events[i].Attempt? ==> clock <= events[i].now
  {
    if events == [] then 0
    else
      var rest := Earliest(events[1..]);
      assert forall i :: 0 < i < |events| ==> events[i] == events[1..][i - 1];
      if events[0].Attempt? && events[0].now < rest then events[0].now else rest
  }

  /** The lists that threads produce are exactly those of that skew. */
  lemma ScheduleIff(events: seq<Event>, d: nat)
    ensures SkewAtMost(events, d)
       <==> exists states: seq<Threads>, steps :: Execution(states, steps, d) && states[|steps|].locked == events
  {
    if SkewAtMost(events, d) {
      var clock := FirstLock(events, |events|, d);
      Sequences.TakeAll(events);
      var states: seq<Threads>, steps :|
        Execution(states, steps, d) && states[|steps|] == At(events, clock, |events|, |events|);
      assert states[|steps|].locked == events;
    }
    forall states: seq<Threads>, steps | Execution(states, steps, d) && states[|steps|].locked == events
      ensures SkewAtMost(events, d)
    {
      ExecutionKeepsSkew(states, steps, d);
    }
  }

  // ------------------------------------------------------------- the limits

  /** Every thread that gets the lock at most `d` after its reading is let in iff the
      full log holds fewer than `max` stamps of its window. */
  ghost predicate ThreadsRefine(cfg: Config, d: nat) {
    forall states: seq<Threads>, steps, events: seq<Event>, key: string, now: int ::
      Execution(states, steps, d) && states[|steps|].locked == events + [Attempt(key, now)] ==>
        Agrees(cfg, events, key, now)
  }

  ghost predicate ThreadsKeep(cfg: Config, d: nat, length: int) {
    forall states: seq<Threads>, steps, key: string, lo: int :: Execution(states, steps, d) ==>
      WithinBudget(cfg, states[|steps|].locked, key, lo, length)
  }

  /** How long threads may take from reading to lock for the deque to decide like the
      full log. */
  lemma ThreadsRefineIff(cfg: Config, d: nat)
    ensures ThreadsRefine(cfg, d)
       <==> cfg.max <= 0 || d < Max(1, -cfg.window) || (cfg.max == 1 && cfg.window >= -1)
  {
    RefinesIff(cfg, d);
    if Refines(cfg, d) {
      forall states: seq<Threads>, steps, events: seq<Event>, key: string, now: int |
        Execution(states, steps, d) && states[|steps|].locked == events + [Attempt(key, now)]
        ensures Agrees(cfg, events, key, now)
      {
        ExecutionKeepsSkew(states, steps, d);
      }
    }
    if ThreadsRefine(cfg, d) {
      forall events: seq<Event>, key: string, now: int | SkewAtMost(events + [Attempt(key, now)], d)
        ensures Agrees(cfg, events, key, now)
      {
        ScheduleIff(events + [Attempt(key, now)], d);
      }
    }
  }

  /** How long an interval may be that threads keep within the budget. */
  lemma ThreadsKeepIff(cfg: Config, d: nat, length: int)
    ensures ThreadsKeep(cfg, d, length) <==> cfg.max <= 0 || length < 0 || length <= KeptLength(cfg, d)
  {
    KeepsIff(cfg, d, length);
    if Keeps(cfg, d, length) {
      forall states: seq<Threads>, steps, key: string, lo: int | Execution(states, steps, d)
        ensures WithinBudget(cfg, states[|steps|].locked, key, lo, length)
      {
        ExecutionKeepsSkew(states, steps, d);
      }
    }
    if ThreadsKeep(cfg, d, length) {
      forall events: seq<Event>, key: string, lo: int | SkewAtMost(events, d)
        ensures WithinBudget(cfg, events, key, lo, length)
      {
        ScheduleIff(events, d);
      }
    }
  }
}
