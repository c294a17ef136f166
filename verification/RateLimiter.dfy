/** The in-memory sliding-window limiter for login attempts: per key a deque of
    accepted stamps, pruned at its front on every access. */
module RateLimiter {
  import opened Numbers
  import opened Sequences

  datatype Config = Config(max: int, window: int)
  type Buckets = map<string, seq<int>>

  /** What happens to the limiter, in the order in which the lock is taken. An
      attempt carries the clock reading that was made before taking the lock. */
  datatype Event =
    | Attempt(key: string, now: int)
    | ResetKey(key: string)
    | ResetAll

  function Bucket(buckets: Buckets, key: string): seq<int> {
    if key in buckets then buckets[key] else []
  }

  /** Drops the expired stamps at the front, stopping at the first live one. */
  function Prune(bucket: seq<int>, cutoff: int): (r: seq<int>)
    ensures |r| <= |bucket|
  {
    if bucket != [] && bucket[0] < cutoff then Prune(bucket[1..], cutoff) else bucket
  }

  /** `kept` is what remains of `log` after its first stamps, all older than
      `bound`, were dropped. */
  ghost predicate DroppedBelow(log: seq<int>, kept: seq<int>, bound: int) {
    && |kept| <= |log|
    && (forall i :: 0 <= i < |kept| ==> kept[i] == log[|log| - |kept| + i])
    && forall i :: 0 <= i < |log| - |kept| ==> log[i] < bound
  }

  lemma DroppedTrans(log: seq<int>, kept: seq<int>, live: seq<int>, bound: int, cutoff: int)
    requires DroppedBelow(log, kept, bound) && DroppedBelow(kept, live, cutoff) && cutoff <= bound
    ensures DroppedBelow(log, live, bound)
  {
    var more := |log| - |kept|;
    forall i | 0 <= i < |log| - |live|
      ensures log[i] < bound
    {
      if i >= more {
        assert kept[i - more] == log[i];
      }
    }
    forall i | 0 <= i < |live|
      ensures live[i] == log[|log| - |live| + i]
    {
      assert live[i] == kept[|kept| - |live| + i];
    }
  }

  lemma DroppedSnoc(log: seq<int>, kept: seq<int>, x: int, bound: int)
    requires DroppedBelow(log, kept, bound)
    ensures DroppedBelow(log + [x], kept + [x], bound)
  {
  }

  lemma {:induction false} PruneDropsExpired(bucket: seq<int>, cutoff: int)
    ensures DroppedBelow(bucket, Prune(bucket, cutoff), cutoff)
    ensures Prune(bucket, cutoff) != [] ==> Prune(bucket, cutoff)[0] >= cutoff
  {
    if bucket != [] && bucket[0] < cutoff {
      var rest := bucket[1..];
      var r := Prune(rest, cutoff);
      PruneDropsExpired(rest, cutoff);
      forall i | 0 <= i < |bucket| - |r|
        ensures bucket[i] < cutoff
      {
        if i > 0 {
          assert rest[i - 1] == bucket[i];
        }
      }
    }
  }

  function Allows(cfg: Config, buckets: Buckets, key: string, now: int): bool {
    |Prune(Bucket(buckets, key), now - cfg.window)| < cfg.max
  }

  function After(cfg: Config, buckets: Buckets, event: Event): Buckets {
    match event
    case Attempt(key, now) =>
      var live := Prune(Bucket(buckets, key), now - cfg.window);
      buckets[key := if |live| < cfg.max then live + [now] else live]
    case ResetKey(key) => buckets - {key}
    case ResetAll => map[]
  }

  class IpRateLimiter {
    const cfg: Config
    var buckets: Buckets

    constructor (maxAttempts: int, windowSeconds: int)
      ensures cfg == Config(maxAttempts, windowSeconds) && buckets == map[]
    {
      cfg := Config(maxAttempts, windowSeconds);
      buckets := map[];
    }

    /** The part of `is_allowed` that runs under the lock. */
    method IsAllowed(key: string, now: int) returns (ok: bool)
      modifies this
      ensures ok == Allows(cfg, old(buckets), key, now)
      ensures buckets == After(cfg, old(buckets), Attempt(key, now))
    {
      var cutoff := now - cfg.window;
      var bucket := Bucket(buckets, key);
      while bucket != [] && bucket[0] < cutoff
        invariant Prune(bucket, cutoff) == Prune(Bucket(old(buckets), key), cutoff)
        decreases |bucket|
      {
        bucket := bucket[1..];
      }
      buckets := buckets[key := bucket];
      if |bucket| >= cfg.max {
        return false;
      }
      buckets := buckets[key := bucket + [now]];
      return true;
    }

    method Reset(key: string)
      modifies this
      ensures buckets == After(cfg, old(buckets), ResetKey(key))
    {
      buckets := buckets - {key};
    }

    method Clear()
      modifies this
      ensures buckets == After(cfg, old(buckets), ResetAll)
    {
      buckets := map[];
    }
  }

  // ------------------------------------------------------- runs and the log

  function Run(cfg: Config, events: seq<Event>): Buckets {
    if events == [] then map[]
    else After(cfg, Run(cfg, events[..|events| - 1]), events[|events| - 1])
  }

  /** The full log of a key after an event that finds the limiter in `buckets`. */
  function LogAfter(cfg: Config, buckets: Buckets, log: seq<int>, event: Event, key: string): seq<int> {
    match event
    case Attempt(k, now) => if k == key && Allows(cfg, buckets, key, now) then log + [now] else log
    case ResetKey(k) => if k == key then [] else log
    case ResetAll => []
  }

  /** The full log of a key: every accepted stamp since the last reset, in lock
      order, with nothing pruned. */
  function Accepted(cfg: Config, events: seq<Event>, key: string): seq<int> {
    if events == [] then []
    else
      var before := events[..|events| - 1];
      LogAfter(cfg, Run(cfg, before), Accepted(cfg, before, key), events[|events| - 1], key)
  }

  lemma RunSnoc(cfg: Config, events: seq<Event>, last: Event, key: string)
    ensures Run(cfg, events + [last]) == After(cfg, Run(cfg, events), last)
    ensures Accepted(cfg, events + [last], key)
         == LogAfter(cfg, Run(cfg, events), Accepted(cfg, events, key), last, key)
  {
    SnocFront(events, last);
  }

  function CountIn(stamps: seq<int>, lo: int, hi: int): nat {
    if stamps == [] then 0
    else (if lo <= stamps[0] <= hi then 1 else 0) + CountIn(stamps[1..], lo, hi)
  }

  function CountFrom(stamps: seq<int>, lo: int): nat {
    if stamps == [] then 0
    else (if lo <= stamps[0] then 1 else 0) + CountFrom(stamps[1..], lo)
  }

  ghost predicate ReadBy(events: seq<Event>, bound: int) {
    forall i :: 0 <= i < |events| && events[i].Attempt? ==> events[i].now <= bound
  }

  /** A reading is never more than `d` behind one that got the lock earlier. */
  ghost predicate SkewAtMost(events: seq<Event>, d: int) {
    forall i, j :: 0 <= i < j < |events| && events[i].Attempt? && events[j].Attempt?
                   ==> events[i].now - d <= events[j].now
  }

  lemma OtherBucket(cfg: Config, buckets: Buckets, event: Event, key: string)
    requires (event.Attempt? || event.ResetKey?) && event.key != key
    ensures Bucket(After(cfg, buckets, event), key) == Bucket(buckets, key)
  {
  }

  lemma SuffixEvent(cfg: Config, buckets: Buckets, log: seq<int>, event: Event, key: string, bound: int)
    requires DroppedBelow(log, Bucket(buckets, key), bound - cfg.window)
    requires event.Attempt? ==> event.now <= bound
    ensures DroppedBelow(LogAfter(cfg, buckets, log, event, key), Bucket(After(cfg, buckets, event), key),
                         bound - cfg.window)
  {
    if event.Attempt? && event.key == key {
      SuffixAttempt(cfg, buckets, log, event.now, key, bound);
    } else if event.ResetAll? || event.key == key {
      assert LogAfter(cfg, buckets, log, event, key) == [] == Bucket(After(cfg, buckets, event), key);
    } else {
      OtherBucket(cfg, buckets, event, key);
    }
  }

  lemma SuffixAttempt(cfg: Config, buckets: Buckets, log: seq<int>, now: int, key: string, bound: int)
    requires DroppedBelow(log, Bucket(buckets, key), bound - cfg.window) && now <= bound
    ensures DroppedBelow(LogAfter(cfg, buckets, log, Attempt(key, now), key),
                         Bucket(After(cfg, buckets, Attempt(key, now)), key), bound - cfg.window)
  {
    var live := Prune(Bucket(buckets, key), now - cfg.window);
    var after := Bucket(After(cfg, buckets, Attempt(key, now)), key);
    assert DroppedBelow(log, live, bound - cfg.window) by {
      PruneDropsExpired(Bucket(buckets, key), now - cfg.window);
      DroppedTrans(log, Bucket(buckets, key), live, bound - cfg.window, now - cfg.window);
    }
    if |live| < cfg.max {
      DroppedSnoc(log, live, now, bound - cfg.window);
      assert after == live + [now];
    } else {
      assert after == live;
    }
  }

  /** The deque is a suffix of the full log, and what it has dropped is older
      than a window before any bound on the clock readings so far. */
  lemma {:induction false} BucketIsSuffix(cfg: Config, events: seq<Event>, key: string, bound: int)
    requires ReadBy(events, bound)
    ensures DroppedBelow(Accepted(cfg, events, key), Bucket(Run(cfg, events), key), bound - cfg.window)
  {
    if events != [] {
      var before, last := events[..|events| - 1], events[|events| - 1];
      BucketIsSuffix(cfg, before, key, bound);
      SuffixEvent(cfg, Run(cfg, before), Accepted(cfg, before, key), last, key, bound);
    }
  }

  /** What an attempt finds in the deque after pruning: everything of the full
      log that is not older than the given bound. */
  lemma LiveIsSuffix(cfg: Config, events: seq<Event>, key: string, now: int, bound: int)
    requires ReadBy(events, bound) && now <= bound
    ensures DroppedBelow(Accepted(cfg, events, key),
                         Prune(Bucket(Run(cfg, events), key), now - cfg.window), bound - cfg.window)
  {
    BucketIsSuffix(cfg, events, key, bound);
    PruneDropsExpired(Bucket(Run(cfg, events), key), now - cfg.window);
    DroppedTrans(Accepted(cfg, events, key), Bucket(Run(cfg, events), key),
                 Prune(Bucket(Run(cfg, events), key), now - cfg.window), bound - cfg.window, now - cfg.window);
  }

  lemma {:induction false} CountConcat(a: seq<int>, b: seq<int>, lo: int, hi: int)
    ensures CountIn(a + b, lo, hi) == CountIn(a, lo, hi) + CountIn(b, lo, hi)
    ensures CountFrom(a + b, lo) == CountFrom(a, lo) + CountFrom(b, lo)
  {
    if a == [] {
      Empty(b);
    } else {
      CountConcat(a[1..], b, lo, hi);
      ConcatTail(a, b);
    }
  }

  lemma {:induction false} CountNone(stamps: seq<int>, lo: int, hi: int)
    requires forall i :: 0 <= i < |stamps| ==> stamps[i] < lo
    ensures CountIn(stamps, lo, hi) == 0 == CountFrom(stamps, lo)
  {
    if stamps != [] {
      CountNone(stamps[1..], lo, hi);
    }
  }

  lemma CountDropped(log: seq<int>, live: seq<int>, lo: int, hi: int)
    requires DroppedBelow(log, live, lo)
    ensures CountIn(log, lo, hi) == CountIn(live, lo, hi)
    ensures CountFrom(log, lo) == CountFrom(live, lo)
  {
    var gone := log[..|log| - |live|];
    assert log == gone + live;
    CountConcat(gone, live, lo, hi);
    CountNone(gone, lo, hi);
  }

  lemma {:induction false} CountAtMostLength(stamps: seq<int>, lo: int, hi: int)
    ensures CountIn(stamps, lo, hi) <= |stamps|
    ensures (forall i :: 0 <= i < |stamps| ==> stamps[i] >= lo) ==> CountFrom(stamps, lo) == |stamps|
  {
    if stamps != [] {
      CountAtMostLength(stamps[1..], lo, hi);
    }
  }

  lemma CountAfterAccept(log: seq<int>, live: seq<int>, now: int, lo: int, hi: int)
    requires DroppedBelow(log, live, lo)
    ensures CountIn(log + [now], lo, hi) <= |live| + 1
  {
    CountConcat(log, [now], lo, hi);
    assert CountIn([now][1..], lo, hi) == 0;
    CountDropped(log, live, lo, hi);
    CountAtMostLength(live, lo, hi);
  }

  lemma CountOutside(log: seq<int>, now: int, lo: int, hi: int)
    requires !(lo <= now <= hi)
    ensures CountIn(log + [now], lo, hi) == CountIn(log, lo, hi)
  {
    CountConcat(log, [now], lo, hi);
    assert CountIn([now][1..], lo, hi) == 0;
  }

  lemma Prefix(events: seq<Event>, d: nat)
    requires events != [] && SkewAtMost(events, d)
    ensures SkewAtMost(events[..|events| - 1], d)
    ensures events[|events| - 1].Attempt? ==> ReadBy(events[..|events| - 1], events[|events| - 1].now + d)
  {
  }

  /** No closed interval `d` shorter than the window holds more accepted
      attempts of a key than the budget, whenever readings are at most `d`
      behind; with readings in lock order (`d == 0`) the interval is the whole
      window. */
  lemma {:induction false} WindowBound(cfg: Config, events: seq<Event>, key: string, lo: int, d: nat)
    requires SkewAtMost(events, d)
    ensures CountIn(Accepted(cfg, events, key), lo, lo + cfg.window - d) <= if cfg.max > 0 then cfg.max else 0
  {
    if events != [] {
      var before, last := events[..|events| - 1], events[|events| - 1];
      var hi := lo + cfg.window - d;
      Prefix(events, d);
      WindowBound(cfg, before, key, lo, d);
      if last.Attempt? && last.key == key && Allows(cfg, Run(cfg, before), key, last.now) {
        var log := Accepted(cfg, before, key);
        if lo <= last.now <= hi {
          var live := Prune(Bucket(Run(cfg, before), key), last.now - cfg.window);
          assert CountIn(log + [last.now], lo, hi) <= |live| + 1 by {
            LiveIsSuffix(cfg, before, key, last.now, last.now + d);
            DroppedEarlier(log, live, last.now + d - cfg.window, lo);
            CountAfterAccept(log, live, last.now, lo, hi);
          }
        } else {
          CountOutside(log, last.now, lo, hi);
        }
      }
    }
  }

  lemma DroppedEarlier(log: seq<int>, live: seq<int>, bound: int, later: int)
    requires DroppedBelow(log, live, bound) && bound <= later
    ensures DroppedBelow(log, live, later)
  {
  }

  lemma {:induction false} AcceptedInOrder(cfg: Config, events: seq<Event>, key: string, bound: int)
    requires SkewAtMost(events, 0) && ReadBy(events, bound)
    ensures Sorted(Accepted(cfg, events, key))
    ensures forall i :: 0 <= i < |Accepted(cfg, events, key)| ==> Accepted(cfg, events, key)[i] <= bound
  {
    if events != [] {
      var before, last := events[..|events| - 1], events[|events| - 1];
      Prefix(events, 0);
      AcceptedInOrder(cfg, before, key, if last.Attempt? then last.now else bound);
    }
  }

  lemma LiveCount(log: seq<int>, live: seq<int>, cutoff: int)
    requires Sorted(log) && DroppedBelow(log, live, cutoff)
    requires live != [] ==> live[0] >= cutoff
    ensures CountFrom(log, cutoff) == |live|
  {
    var gone := |log| - |live|;
    forall i | 0 <= i < |live|
      ensures live[i] >= cutoff
    {
      assert live[i] == log[gone + i] && live[0] == log[gone + 0];
    }
    CountDropped(log, live, cutoff, cutoff);
    CountAtMostLength(live, cutoff, cutoff);
  }

  /** With readings in lock order the pruned deque decides like the full log:
      an attempt is allowed iff fewer than `max` accepted stamps lie in the
      window that ends with it. */
  lemma RefinesFullLog(cfg: Config, events: seq<Event>, key: string, now: int)
    requires SkewAtMost(events, 0) && ReadBy(events, now)
    ensures Allows(cfg, Run(cfg, events), key, now)
       <==> CountFrom(Accepted(cfg, events, key), now - cfg.window) < cfg.max
  {
    var log := Accepted(cfg, events, key);
    var live := Prune(Bucket(Run(cfg, events), key), now - cfg.window);
    assert CountFrom(log, now - cfg.window) == |live| by {
      AcceptedInOrder(cfg, events, key, now);
      LiveIsSuffix(cfg, events, key, now, now);
      PruneDropsExpired(Bucket(Run(cfg, events), key), now - cfg.window);
      LiveCount(log, live, now - cfg.window);
    }
  }

  // ------------------------------------------------------ rejected attempts

  lemma {:induction false} PruneTwice(bucket: seq<int>, c1: int, c2: int)
    requires c1 <= c2
    ensures Prune(Prune(bucket, c1), c2) == Prune(bucket, c2)
  {
    if bucket != [] && bucket[0] < c1 {
      PruneTwice(bucket[1..], c1, c2);
    }
  }

  /** How a bucket that saw the rejected attempt relates to one that did not. */
  ghost predicate Shadows(cfg: Config, seen: seq<int>, unseen: seq<int>, cutoff: int) {
    seen == unseen || (|seen| >= cfg.max && seen == Prune(unseen, cutoff))
  }

  lemma ShadowStep(cfg: Config, seen: seq<int>, unseen: seq<int>, cutoff: int, now: int)
    requires Shadows(cfg, seen, unseen, cutoff)
    ensures |Prune(seen, now - cfg.window)| < cfg.max <==> |Prune(unseen, now - cfg.window)| < cfg.max
    ensures |Prune(seen, now - cfg.window)| < cfg.max ==>
              Prune(seen, now - cfg.window) == Prune(unseen, now - cfg.window)
    ensures Shadows(cfg, Prune(seen, now - cfg.window), Prune(unseen, now - cfg.window), cutoff)
  {
    var c := now - cfg.window;
    if seen != unseen {
      if c >= cutoff {
        PruneTwice(unseen, cutoff, c);
      } else {
        PruneTwice(unseen, c, cutoff);
        PruneDropsExpired(unseen, cutoff);
        assert Prune(seen, c) == seen;
      }
    }
  }

  lemma ShadowEvent(cfg: Config, long: Buckets, short: Buckets, event: Event, key: string, cutoff: int)
    requires Shadows(cfg, Bucket(long, key), Bucket(short, key), cutoff)
    ensures Shadows(cfg, Bucket(After(cfg, long, event), key), Bucket(After(cfg, short, event), key), cutoff)
    ensures event.Attempt? && event.key == key ==>
              (Allows(cfg, long, key, event.now) <==> Allows(cfg, short, key, event.now))
  {
    if event.Attempt? && event.key == key {
      ShadowStep(cfg, Bucket(long, key), Bucket(short, key), cutoff, event.now);
    }
  }

  lemma RejectionShadows(cfg: Config, buckets: Buckets, rejected: Event, key: string)
    requires rejected.Attempt? && !Allows(cfg, buckets, rejected.key, rejected.now)
    ensures Shadows(cfg, Bucket(After(cfg, buckets, rejected), key), Bucket(buckets, key),
                    rejected.now - cfg.window)
  {
    if rejected.key != key {
      assert Bucket(After(cfg, buckets, rejected), key) == Bucket(buckets, key);
    }
  }

  lemma {:induction false} ShadowRun(
      cfg: Config, long: seq<Event>, short: seq<Event>, later: seq<Event>, key: string, cutoff: int)
    requires Shadows(cfg, Bucket(Run(cfg, long), key), Bucket(Run(cfg, short), key), cutoff)
    requires Accepted(cfg, long, key) == Accepted(cfg, short, key)
    ensures Shadows(cfg, Bucket(Run(cfg, long + later), key), Bucket(Run(cfg, short + later), key), cutoff)
    ensures Accepted(cfg, long + later, key) == Accepted(cfg, short + later, key)
    decreases |later|
  {
    if later == [] {
      Empty(long);
      Empty(short);
    } else {
      var first, rest := later[0], later[1..];
      Uncons(later);
      Assoc(long, [first], rest);
      Assoc(short, [first], rest);
      RunSnoc(cfg, long, first, key);
      RunSnoc(cfg, short, first, key);
      ShadowEvent(cfg, Run(cfg, long), Run(cfg, short), first, key, cutoff);
      ShadowRun(cfg, long + [first], short + [first], rest, key, cutoff);
    }
  }

  /** A rejected attempt changes no later decision, for any key and any clock
      readings, in lock order or not. */
  lemma RejectedAttemptIsInvisible(
      cfg: Config, before: seq<Event>, rejected: Event, later: seq<Event>, key: string, now: int)
    requires rejected.Attempt? && !Allows(cfg, Run(cfg, before), rejected.key, rejected.now)
    ensures Allows(cfg, Run(cfg, before + [rejected] + later), key, now)
       <==> Allows(cfg, Run(cfg, before + later), key, now)
    ensures Accepted(cfg, before + [rejected] + later, key) == Accepted(cfg, before + later, key)
  {
    var cutoff := rejected.now - cfg.window;
    RunSnoc(cfg, before, rejected, key);
    RejectionShadows(cfg, Run(cfg, before), rejected, key);
    RejectionUnlogged(cfg, before, rejected, key);
    ShadowRun(cfg, before + [rejected], before, later, key, cutoff);
    ShadowEvent(cfg, Run(cfg, before + [rejected] + later), Run(cfg, before + later), Attempt(key, now), key, cutoff);
  }

  lemma RejectionUnlogged(cfg: Config, before: seq<Event>, rejected: Event, key: string)
    requires rejected.Attempt? && !Allows(cfg, Run(cfg, before), rejected.key, rejected.now)
    ensures Accepted(cfg, before + [rejected], key) == Accepted(cfg, before, key)
  {
    RunSnoc(cfg, before, rejected, key);
  }

  // ------------------------------------------------------ one such run

  const SKEWED: seq<Event> :=
    [Attempt("ip", 0)] + [Attempt("ip", 0)] + [Attempt("ip", 11)] + [Attempt("ip", 8)]

  lemma SkewedRun(cfg: Config)
    requires cfg == Config(2, 10)
    ensures Accepted(cfg, SKEWED, "ip") == [0, 0, 11, 8]
    ensures Bucket(Run(cfg, SKEWED[..3]), "ip") == [11]
    ensures Accepted(cfg, SKEWED[..3], "ip") == [0, 0, 11]
  {
    var e1 := [] + [Attempt("ip", 0)];
    var e2 := e1 + [Attempt("ip", 0)];
    var e3 := e2 + [Attempt("ip", 11)];
    RunSnoc(cfg, [], Attempt("ip", 0), "ip");
    RunSnoc(cfg, e1, Attempt("ip", 0), "ip");
    assert Bucket(Run(cfg, e2), "ip") == [0, 0] == Accepted(cfg, e2, "ip");
    assert Prune([0, 0], 1) == [] by {
      assert [0, 0][1..] == [0] && [0][1..] == [];
    }
    RunSnoc(cfg, e2, Attempt("ip", 11), "ip");
    assert Bucket(Run(cfg, e3), "ip") == [11] && Accepted(cfg, e3, "ip") == [0, 0, 11];
    RunSnoc(cfg, e3, Attempt("ip", 8), "ip");
    assert SKEWED == e3 + [Attempt("ip", 8)] && SKEWED[..3] == e3;
  }

  /** The interval of `WindowBound` cannot be one longer: with a skew of 3, a
      window of 10 and a budget of 2, three accepted stamps fit into an
      interval of length 10 - 3 + 1. */
  lemma SkewBoundIsTight()
    ensures SkewAtMost(SKEWED, 3)
    ensures CountIn(Accepted(Config(2, 10), SKEWED, "ip"), 0, 0 + 10 - 3 + 1) == 3
  {
    SkewedRun(Config(2, 10));
    var log := [0, 0, 11, 8];
    assert log[1..] == [0, 11, 8] && log[1..][1..] == [11, 8] && [11, 8][1..] == [8] && [8][1..] == [];
  }

  /** Out of lock order the deque and the full log can disagree: a late reading
      is let in because an earlier lock holder has pruned the stamps that its
      own window still holds. */
  lemma RefinementNeedsLockOrder()
    ensures SkewAtMost(SKEWED[..3] + [Attempt("ip", 8)], 3)
    ensures Allows(Config(2, 10), Run(Config(2, 10), SKEWED[..3]), "ip", 8)
    ensures CountFrom(Accepted(Config(2, 10), SKEWED[..3], "ip"), 8 - 10) == 3
  {
    SkewedRun(Config(2, 10));
    var log := [0, 0, 11];
    assert log[1..] == [0, 11] && log[1..][1..] == [11] && [11][1..] == [];
    assert SKEWED[..3] + [Attempt("ip", 8)] == SKEWED;
  }

  // ------------------------------------------------------------- threads

  /** Threads read the clock first and take the lock later. `locked` is the
      sequence of events in lock order. */
  datatype Threads = Threads(clock: int, pending: map<nat, Event>, locked: seq<Event>)

  datatype Step =
    | Tick(elapsed: nat)
    | ReadClock(thread: nat, key: string)
    | TakeLock(thread: nat)
    | Administer(reset: Event)

  /** One step; a thread takes the lock at most `d` after its reading. */
  ghost predicate Next(s: Threads, t: Threads, step: Step, d: nat) {
    match step
    case Tick(elapsed) => t == s.(clock := s.clock + elapsed)
    case ReadClock(thread, key) =>
      thread !in s.pending && t == s.(pending := s.pending[thread := Attempt(key, s.clock)])
    case TakeLock(thread) =>
      && thread in s.pending && s.pending[thread].Attempt?
      && s.clock <= s.pending[thread].now + d
      && t == s.(pending := s.pending - {thread}, locked := s.locked + [s.pending[thread]])
    case Administer(reset) =>
      !reset.Attempt? && t == s.(locked := s.locked + [reset])
  }

  ghost predicate Execution(states: seq<Threads>, steps: seq<Step>, d: nat) {
    && |states| == |steps| + 1
    && states[0].pending == map[] && states[0].locked == []
    && forall i :: 0 <= i < |steps| ==> Next(states[i], states[i + 1], steps[i], d)
  }

  ghost predicate ReadingsInPast(s: Threads, d: nat) {
    && ReadBy(s.locked, s.clock) && SkewAtMost(s.locked, d)
    && forall thread :: thread in s.pending && s.pending[thread].Attempt? ==> s.pending[thread].now <= s.clock
  }

  lemma {:induction false} ExecutionKeepsSkew(states: seq<Threads>, steps: seq<Step>, d: nat)
    requires Execution(states, steps, d)
    ensures ReadingsInPast(states[|steps|], d)
    decreases |steps|
  {
    if steps != [] {
      var n := |steps| - 1;
      ExecutionKeepsSkew(states[..n + 1], steps[..n], d);
      assert Next(states[n], states[n + 1], steps[n], d);
    }
  }

  /** In every interleaving in which threads take the lock at most `d` after
      reading the clock, the interval bound holds with that `d`. */
  lemma ThreadedWindowBound(cfg: Config, states: seq<Threads>, steps: seq<Step>, key: string, lo: int, d: nat)
    requires Execution(states, steps, d)
    ensures CountIn(Accepted(cfg, states[|steps|].locked, key), lo, lo + cfg.window - d)
         <= if cfg.max > 0 then cfg.max else 0
  {
    ExecutionKeepsSkew(states, steps, d);
    WindowBound(cfg, states[|steps|].locked, key, lo, d);
  }
}
