/** How far the order in which threads take the limiter's lock may depart from the
    order of their clock readings: when the pruned deque still agrees with the full
    log, and how long the bounded intervals are. */
module LimiterSkew {
  import opened Numbers
  import opened RateLimiter
  import opened Sequences

  /** In every run of skew at most `d` an attempt is allowed iff the full log
      holds fewer than `max` stamps of its window. */
  ghost predicate Refines(cfg: Config, d: nat) {
    forall events: seq<Event>, key: string, now: int :: SkewAtMost(events + [Attempt(key, now)], d) ==>
      Agrees(cfg, events, key, now)
  }

  predicate Agrees(cfg: Config, events: seq<Event>, key: string, now: int) {
    Allows(cfg, Run(cfg, events), key, now) <==> CountFrom(Accepted(cfg, events, key), now - cfg.window) < cfg.max
  }

  /** In every run of skew at most `d` a closed interval of that length holds at
      most the budget of accepted stamps. */
  ghost predicate Keeps(cfg: Config, d: nat, length: int) {
    forall events: seq<Event>, key: string, lo: int :: SkewAtMost(events, d) ==>
      WithinBudget(cfg, events, key, lo, length)
  }

  predicate WithinBudget(cfg: Config, events: seq<Event>, key: string, lo: int, length: int) {
    CountIn(Accepted(cfg, events, key), lo, lo + length) <= Max(cfg.max, 0)
  }

  lemma AttemptOn(cfg: Config, buckets: Buckets, key: string, now: int, live: seq<int>)
    requires live == Prune(Bucket(buckets, key), now - cfg.window)
    ensures Bucket(After(cfg, buckets, Attempt(key, now)), key) == if |live| < cfg.max then live + [now] else live
    ensures Allows(cfg, buckets, key, now) <==> |live| < cfg.max
  {
  }

  /** What an attempt leaves, given what it finds live. */
  lemma OneMoreAttempt(cfg: Config, events: seq<Event>, key: string, now: int, live: seq<int>)
    requires live == Prune(Bucket(Run(cfg, events), key), now - cfg.window)
    ensures Bucket(Run(cfg, events + [Attempt(key, now)]), key) == if |live| < cfg.max then live + [now] else live
    ensures Accepted(cfg, events + [Attempt(key, now)], key)
         == if |live| < cfg.max then Accepted(cfg, events, key) + [now] else Accepted(cfg, events, key)
  {
    RunSnoc(cfg, events, Attempt(key, now), key);
    AttemptOn(cfg, Run(cfg, events), key, now, live);
  }

  lemma {:induction false} AcceptedReadBy(cfg: Config, events: seq<Event>, key: string, bound: int)
    requires ReadBy(events, bound)
    ensures forall i :: 0 <= i < |Accepted(cfg, events, key)| ==> Accepted(cfg, events, key)[i] <= bound
  {
    if events != [] {
      AcceptedReadBy(cfg, events[..|events| - 1], key, bound);
    }
  }

  lemma PruneAll(bucket: seq<int>, cutoff: int)
    requires forall i :: 0 <= i < |bucket| ==> bucket[i] < cutoff
    ensures Prune(bucket, cutoff) == []
  {
    PruneDropsExpired(bucket, cutoff);
  }

  lemma LastReading(events: seq<Event>, key: string, now: int, d: nat)
    requires SkewAtMost(events + [Attempt(key, now)], d)
    ensures SkewAtMost(events, d) && ReadBy(events, now + d)
  {
    var all := events + [Attempt(key, now)];
    assert forall i :: 0 <= i < |events| ==> all[i] == events[i];
    assert all[|events|] == Attempt(key, now);
  }

  /** Under a negative window that no skew reaches, nothing is ever live. */
  lemma NothingIsLive(cfg: Config, events: seq<Event>, key: string, now: int, d: nat)
    requires ReadBy(events, now + d) && d < -cfg.window
    ensures Prune(Bucket(Run(cfg, events), key), now - cfg.window) == []
    ensures CountFrom(Accepted(cfg, events, key), now - cfg.window) == 0
  {
    var log, bucket := Accepted(cfg, events, key), Bucket(Run(cfg, events), key);
    AcceptedReadBy(cfg, events, key, now + d);
    BucketIsSuffix(cfg, events, key, now + d);
    PruneAll(bucket, now - cfg.window);
    CountNone(log, now - cfg.window, now);
  }

  // ------------------------------------------------------ a budget of one

  /** Each stamp is more than `gap` after every earlier one. */
  ghost predicate Spread(log: seq<int>, gap: int) {
    forall i, j :: 0 <= i < j < |log| ==> log[i] + gap < log[j]
  }

  /** A log under a budget of one, and the deque that goes with it. */
  ghost predicate OneStamp(cfg: Config, log: seq<int>, deque: seq<int>) {
    && deque == (if log == [] then [] else [log[|log| - 1]])
    && Sorted(log) && (cfg.window >= 0 ==> Spread(log, cfg.window))
  }

  lemma AttemptKeepsOneStamp(cfg: Config, buckets: Buckets, log: seq<int>, key: string, now: int)
    requires cfg.max == 1 && cfg.window >= -1 && OneStamp(cfg, log, Bucket(buckets, key))
    ensures OneStamp(cfg, LogAfter(cfg, buckets, log, Attempt(key, now), key),
                     Bucket(After(cfg, buckets, Attempt(key, now)), key))
  {
    var live := Prune(Bucket(buckets, key), now - cfg.window);
    OneMoreStamp(cfg, Bucket(buckets, key), log, now);
    AttemptOn(cfg, buckets, key, now, live);
    Empty([now]);
  }

  lemma OtherKeepsOneStamp(cfg: Config, buckets: Buckets, log: seq<int>, event: Event, key: string)
    requires OneStamp(cfg, log, Bucket(buckets, key)) && !(event.Attempt? && event.key == key)
    ensures OneStamp(cfg, LogAfter(cfg, buckets, log, event, key), Bucket(After(cfg, buckets, event), key))
  {
    if !event.ResetAll? && event.key != key {
      OtherBucket(cfg, buckets, event, key);
    }
  }

  /** With a budget of one the deque holds the last accepted stamp, in whatever
      order the readings come. */
  lemma {:induction false} BudgetOfOne(cfg: Config, events: seq<Event>, key: string)
    requires cfg.max == 1 && cfg.window >= -1
    ensures OneStamp(cfg, Accepted(cfg, events, key), Bucket(Run(cfg, events), key))
  {
    if events != [] {
      var before, last := events[..|events| - 1], events[|events| - 1];
      BudgetOfOne(cfg, before, key);
      if last.Attempt? && last.key == key {
        AttemptKeepsOneStamp(cfg, Run(cfg, before), Accepted(cfg, before, key), key, last.now);
      } else {
        OtherKeepsOneStamp(cfg, Run(cfg, before), Accepted(cfg, before, key), last, key);
      }
    }
  }

  lemma OneMoreStamp(cfg: Config, bucket: seq<int>, log: seq<int>, now: int)
    requires cfg.max == 1 && cfg.window >= -1
    requires bucket == if log == [] then [] else [log[|log| - 1]]
    requires Sorted(log) && (cfg.window >= 0 ==> Spread(log, cfg.window))
    ensures var live := Prune(bucket, now - cfg.window);
            && (live == [] <==> log == [] || log[|log| - 1] < now - cfg.window)
            && (live != [] ==> live == bucket)
            && (live == [] ==> Sorted(log + [now]) && (cfg.window >= 0 ==> Spread(log + [now], cfg.window)))
  {
    if bucket != [] {
      assert bucket[1..] == [];
    }
  }

  lemma BudgetOfOneRefines(cfg: Config, events: seq<Event>, key: string, now: int)
    requires cfg.max == 1 && cfg.window >= -1
    ensures Agrees(cfg, events, key, now)
  {
    var log := Accepted(cfg, events, key);
    BudgetOfOne(cfg, events, key);
    OneMoreStamp(cfg, Bucket(Run(cfg, events), key), log, now);
    CountOfSorted(log, now - cfg.window);
  }

  lemma CountOfSorted(log: seq<int>, lo: int)
    requires Sorted(log)
    ensures CountFrom(log, lo) == 0 <==> log == [] || log[|log| - 1] < lo
  {
    if log != [] {
      var front, last := log[..|log| - 1], log[|log| - 1];
      Unsnoc(log);
      CountConcat(front, [last], lo, lo);
      assert CountFrom([last][1..], lo) == 0;
      if last < lo {
        CountNone(log, lo, lo);
      }
    }
  }

  lemma {:induction false} SpreadCount(log: seq<int>, gap: int, lo: int, length: int)
    requires Spread(log, gap) && length <= gap
    ensures CountIn(log, lo, lo + length) <= 1
  {
    if log != [] {
      var rest := log[1..];
      assert forall i :: 0 <= i < |rest| ==> rest[i] == log[i + 1] > log[0] + gap;
      if lo <= log[0] <= lo + length {
        CountAbove(rest, lo, lo + length);
      } else {
        SpreadCount(rest, gap, lo, length);
      }
    }
  }

  lemma {:induction false} CountAbove(stamps: seq<int>, lo: int, hi: int)
    requires forall i :: 0 <= i < |stamps| ==> stamps[i] > hi
    ensures CountIn(stamps, lo, hi) == 0
  {
    if stamps != [] {
      CountAbove(stamps[1..], lo, hi);
    }
  }

  // ------------------------------------------------------- repeated attempts

  const IP: string := "ip"

  /** `n` attempts of one key at time 0. */
  function Zeros(n: nat): seq<Event> {
    if n == 0 then [] else Zeros(n - 1) + [Attempt(IP, 0)]
  }

  function ZeroStamps(n: nat): seq<int> {
    if n == 0 then [] else ZeroStamps(n - 1) + [0]
  }

  lemma {:induction false} ZeroFacts(n: nat, lo: int, hi: int)
    ensures |ZeroStamps(n)| == n && forall i :: 0 <= i < n ==> ZeroStamps(n)[i] == 0
    ensures lo <= 0 <= hi ==> CountIn(ZeroStamps(n), lo, hi) == n
    ensures lo <= 0 ==> CountFrom(ZeroStamps(n), lo) == n
    ensures |Zeros(n)| == n && forall i :: 0 <= i < n ==> Zeros(n)[i] == Attempt(IP, 0)
  {
    if n > 0 {
      ZeroFacts(n - 1, lo, hi);
      CountConcat(ZeroStamps(n - 1), [0], lo, hi);
      assert CountIn([0][1..], lo, hi) == 0 == CountFrom([0][1..], lo);
    }
  }

  lemma PruneZeros(n: nat, cutoff: int)
    ensures Prune(ZeroStamps(n), cutoff) == if cutoff <= 0 then ZeroStamps(n) else []
  {
    ZeroFacts(n, 0, 0);
    if cutoff > 0 {
      PruneAll(ZeroStamps(n), cutoff);
    }
  }

  /** The log and the deque of the key after the events. */
  ghost predicate Leaves(cfg: Config, events: seq<Event>, log: seq<int>, deque: seq<int>) {
    Accepted(cfg, events, IP) == log && Bucket(Run(cfg, events), IP) == deque
  }

  /** An attempt that finds `live` and is let in. */
  lemma LetIn(
      cfg: Config, before: seq<Event>, after: seq<Event>, now: int, log: seq<int>, deque: seq<int>, live: seq<int>)
    requires after == before + [Attempt(IP, now)] && Leaves(cfg, before, log, deque)
    requires Prune(deque, now - cfg.window) == live && |live| < cfg.max
    ensures Leaves(cfg, after, log + [now], live + [now])
  {
    OneMoreAttempt(cfg, before, IP, now, live);
  }

  lemma NothingYet(cfg: Config, n: nat)
    requires n == 0
    ensures Leaves(cfg, Zeros(n), ZeroStamps(n), ZeroStamps(n)) && Leaves(cfg, Zeros(n), ZeroStamps(n), [])
  {
  }

  lemma StampsOfLength(n: nat)
    ensures |ZeroStamps(n)| == n
  {
    ZeroFacts(n, 0, 0);
  }

  lemma OneMoreFits(cfg: Config, n: nat)
    requires cfg.window >= 0 && 0 < n <= cfg.max
    requires Leaves(cfg, Zeros(n - 1), ZeroStamps(n - 1), ZeroStamps(n - 1))
    ensures Leaves(cfg, Zeros(n), ZeroStamps(n), ZeroStamps(n))
  {
    PruneZeros(n - 1, 0 - cfg.window);
    StampsOfLength(n - 1);
    LetIn(cfg, Zeros(n - 1), Zeros(n), 0, ZeroStamps(n - 1), ZeroStamps(n - 1), ZeroStamps(n - 1));
  }

  /** With a window the deque fills up to the budget. */
  lemma {:induction false} ZerosFillUp(cfg: Config, n: nat)
    requires cfg.window >= 0 && n <= cfg.max
    ensures Leaves(cfg, Zeros(n), ZeroStamps(n), ZeroStamps(n))
  {
    if n == 0 {
      NothingYet(cfg, n);
    } else {
      ZerosFillUp(cfg, n - 1);
      OneMoreFits(cfg, n);
    }
  }

  lemma OneMorePasses(cfg: Config, n: nat, deque: seq<int>)
    requires cfg.window < 0 && cfg.max >= 1 && (deque == [] || deque == [0])
    requires n > 0 && Leaves(cfg, Zeros(n - 1), ZeroStamps(n - 1), deque)
    ensures Leaves(cfg, Zeros(n), ZeroStamps(n), [0])
  {
    PruneAll(deque, 0 - cfg.window);
    LetIn(cfg, Zeros(n - 1), Zeros(n), 0, ZeroStamps(n - 1), deque, []);
    Empty([0]);
  }

  /** Under a negative window every attempt is let in and forgets the one before. */
  lemma {:induction false} ZerosAllPass(cfg: Config, n: nat)
    requires cfg.window < 0 && cfg.max >= 1 && n >= 1
    ensures Leaves(cfg, Zeros(n), ZeroStamps(n), [0])
  {
    if n == 1 {
      NothingYet(cfg, n - 1);
      OneMorePasses(cfg, n, []);
    } else {
      ZerosAllPass(cfg, n - 1);
      OneMorePasses(cfg, n, [0]);
    }
  }

  lemma ZerosThen(n: nat, a: int, d: nat)
    requires 0 - d <= a
    ensures SkewAtMost(Zeros(n) + [Attempt(IP, a)], d)
  {
    ZeroFacts(n, 0, 0);
  }

  /** The budget at time 0, then an attempt just after the window, which clears the
      deque. */
  function Cleared(cfg: Config): seq<Event>
    requires cfg.max >= 1
  {
    Zeros(cfg.max) + [Attempt(IP, cfg.window + 1)]
  }

  lemma ClearedRun(cfg: Config)
    requires cfg.max >= 1 && cfg.window >= 0
    ensures Leaves(cfg, Cleared(cfg), ZeroStamps(cfg.max) + [cfg.window + 1], [cfg.window + 1])
  {
    ZerosFillUp(cfg, cfg.max);
    PruneZeros(cfg.max, cfg.window + 1 - cfg.window);
    LetIn(cfg, Zeros(cfg.max), Cleared(cfg), cfg.window + 1, ZeroStamps(cfg.max), ZeroStamps(cfg.max), []);
    Empty([cfg.window + 1]);
  }

  lemma ClearedSkew(cfg: Config, now: int, d: nat)
    requires cfg.max >= 1 && cfg.window >= 0 && 0 <= now && cfg.window + 1 - d <= now
    ensures SkewAtMost(Cleared(cfg) + [Attempt(IP, now)], d)
  {
    ZeroFacts(cfg.max, 0, 0);
  }

  /** A late reading within the cleared window is let in although the full log
      still holds the budget. */
  lemma LateReadingIsLetIn(cfg: Config, now: int)
    requires cfg.max >= 2 && cfg.window >= 0 && 0 <= now <= cfg.window + 1
    ensures Allows(cfg, Run(cfg, Cleared(cfg)), IP, now)
    ensures Accepted(cfg, Cleared(cfg) + [Attempt(IP, now)], IP) == ZeroStamps(cfg.max) + [cfg.window + 1] + [now]
  {
    ClearedRun(cfg);
    assert Prune([cfg.window + 1], now - cfg.window) == [cfg.window + 1];
    AttemptOn(cfg, Run(cfg, Cleared(cfg)), IP, now, [cfg.window + 1]);
    OneMoreAttempt(cfg, Cleared(cfg), IP, now, [cfg.window + 1]);
  }

  lemma ClearedCount(cfg: Config, lo: int)
    requires cfg.max >= 1 && cfg.window >= 0 && lo <= 0
    ensures CountFrom(Accepted(cfg, Cleared(cfg), IP), lo) == cfg.max + 1
  {
    ClearedRun(cfg);
    ZeroFacts(cfg.max, lo, 0);
    CountConcat(ZeroStamps(cfg.max), [cfg.window + 1], lo, 0);
    assert CountFrom([cfg.window + 1][1..], lo) == 0;
  }

  // --------------------------------------------------------- the exact limits

  lemma RefinesIfLittleSkew(cfg: Config, d: nat)
    requires cfg.max <= 0 || d < Max(1, -cfg.window) || (cfg.max == 1 && cfg.window >= -1)
    ensures Refines(cfg, d)
  {
    forall events: seq<Event>, key: string, now: int | SkewAtMost(events + [Attempt(key, now)], d)
      ensures Agrees(cfg, events, key, now)
    {
      LittleSkewAgrees(cfg, events, key, now, d);
    }
  }

  lemma LittleSkewAgrees(cfg: Config, events: seq<Event>, key: string, now: int, d: nat)
    requires cfg.max <= 0 || d < Max(1, -cfg.window) || (cfg.max == 1 && cfg.window >= -1)
    requires SkewAtMost(events + [Attempt(key, now)], d)
    ensures Agrees(cfg, events, key, now)
  {
    LastReading(events, key, now, d);
    if cfg.max <= 0 {
    } else if cfg.max == 1 && cfg.window >= -1 {
      BudgetOfOneRefines(cfg, events, key, now);
    } else if d < -cfg.window {
      NothingIsLive(cfg, events, key, now, d);
    } else {
      RefinesFullLog(cfg, events, key, now);
    }
  }

  lemma ClearedBreaks(cfg: Config, d: nat)
    requires cfg.max >= 2 && cfg.window >= 0 && d >= 1
    ensures !Refines(cfg, d)
  {
    ClearedSkew(cfg, cfg.window, d);
    LateReadingIsLetIn(cfg, cfg.window);
    ClearedCount(cfg, 0);
    assert !Agrees(cfg, Cleared(cfg), IP, cfg.window);
  }

  lemma NegativeWindowBreaks(cfg: Config, d: nat)
    requires cfg.max >= 2 && cfg.window < 0 && d >= -cfg.window
    ensures !Refines(cfg, d)
  {
    var events, now := Zeros(cfg.max), cfg.window;
    ZerosAllPass(cfg, cfg.max);
    ZerosThen(cfg.max, now, d);
    ZeroFacts(cfg.max, 0, 0);
    assert Prune([0], 0) == [0];
    assert !Agrees(cfg, events, IP, now);
  }

  /** Under a budget of one and a window below -1: an attempt at 0, then one just
      after the (negative) window. */
  lemma BackwardsRun(cfg: Config, events: seq<Event>)
    requires cfg.max == 1 && cfg.window <= -2
    requires events == Zeros(1) + [Attempt(IP, cfg.window + 1)]
    ensures Leaves(cfg, events, ZeroStamps(1) + [cfg.window + 1], [cfg.window + 1])
  {
    ZerosAllPass(cfg, 1);
    PruneAll([0], 1);
    LetIn(cfg, Zeros(1), events, cfg.window + 1, ZeroStamps(1), [0], []);
    Empty([cfg.window + 1]);
  }

  lemma BackwardsCount(w: int)
    requires w <= -2
    ensures CountFrom(ZeroStamps(1) + [w + 1], 0) == 1
    ensures Prune([w + 1], 0) == []
  {
    ZeroFacts(1, 0, 0);
    CountConcat(ZeroStamps(1), [w + 1], 0, 0);
    assert CountFrom([w + 1][1..], 0) == 0;
    PruneAll([w + 1], 0);
  }

  lemma BudgetOfOneBreaks(cfg: Config, d: nat)
    requires cfg.max == 1 && cfg.window <= -2 && d >= -cfg.window
    ensures !Refines(cfg, d)
  {
    var w := cfg.window;
    var events := Zeros(1) + [Attempt(IP, w + 1)];
    BackwardsRun(cfg, events);
    BackwardsCount(w);
    AttemptOn(cfg, Run(cfg, events), IP, w, []);
    ZeroFacts(1, 0, 0);
    assert SkewAtMost(events + [Attempt(IP, w)], d);
    assert !Agrees(cfg, events, IP, w);
  }

  /** How far the lock order may depart from the clock order. With a budget of at
      least two and a window that is not negative, not at all: every run of skew at
      most `d` refines the full log iff `d` is 0. A budget of one needs no order. */
  lemma RefinesIff(cfg: Config, d: nat)
    ensures Refines(cfg, d)
       <==> cfg.max <= 0 || d < Max(1, -cfg.window) || (cfg.max == 1 && cfg.window >= -1)
  {
    if cfg.max <= 0 || d < Max(1, -cfg.window) || (cfg.max == 1 && cfg.window >= -1) {
      RefinesIfLittleSkew(cfg, d);
    } else if cfg.max == 1 {
      BudgetOfOneBreaks(cfg, d);
    } else if cfg.window < 0 {
      NegativeWindowBreaks(cfg, d);
    } else {
      ClearedBreaks(cfg, d);
    }
  }

  lemma {:induction false} NoneAccepted(cfg: Config, events: seq<Event>, key: string)
    requires cfg.max <= 0
    ensures Accepted(cfg, events, key) == []
  {
    if events != [] {
      NoneAccepted(cfg, events[..|events| - 1], key);
    }
  }

  lemma {:induction false} CountMonotone(stamps: seq<int>, lo: int, hi: int, more: int)
    requires hi <= more
    ensures CountIn(stamps, lo, hi) <= CountIn(stamps, lo, more)
    ensures hi < lo ==> CountIn(stamps, lo, hi) == 0
  {
    if stamps != [] {
      CountMonotone(stamps[1..], lo, hi, more);
    }
  }

  /** The longest interval that is kept. */
  function KeptLength(cfg: Config, d: nat): int {
    if cfg.max == 1 then cfg.window else cfg.window - d
  }

  lemma KeepsShortIntervals(cfg: Config, d: nat, length: int)
    requires cfg.max <= 0 || length < 0 || length <= KeptLength(cfg, d)
    ensures Keeps(cfg, d, length)
  {
    forall events: seq<Event>, key: string, lo: int | SkewAtMost(events, d)
      ensures WithinBudget(cfg, events, key, lo, length)
    {
      ShortIntervalWithinBudget(cfg, events, key, lo, d, length);
    }
  }

  lemma ShortIntervalWithinBudget(cfg: Config, events: seq<Event>, key: string, lo: int, d: nat, length: int)
    requires cfg.max <= 0 || length < 0 || length <= KeptLength(cfg, d)
    requires SkewAtMost(events, d)
    ensures WithinBudget(cfg, events, key, lo, length)
  {
    var log := Accepted(cfg, events, key);
    if cfg.max <= 0 {
      NoneAccepted(cfg, events, key);
    } else if length < 0 {
      CountMonotone(log, lo, lo + length, lo + length);
    } else if cfg.max == 1 {
      BudgetOfOne(cfg, events, key);
      SpreadCount(log, cfg.window, lo, length);
    } else {
      WindowBound(cfg, events, key, lo, d);
      CountMonotone(log, lo, lo + length, lo + cfg.window - d);
    }
  }

  lemma ManyZerosBreak(cfg: Config, d: nat, length: int)
    requires cfg.max >= 1 && cfg.window < 0 && length >= 0
    ensures !Keeps(cfg, d, length)
  {
    var n := cfg.max + 1;
    ZerosAllPass(cfg, n);
    ZeroFacts(n, 0, length);
    assert SkewAtMost(Zeros(n), d);
    assert !WithinBudget(cfg, Zeros(n), IP, 0, length);
  }

  lemma TwoStampsBreak(cfg: Config, d: nat, length: int)
    requires cfg.max == 1 && 0 <= cfg.window < length
    ensures !Keeps(cfg, d, length)
  {
    ClearedRun(cfg);
    ZerosThen(1, cfg.window + 1, d);
    ZeroFacts(1, 0, length);
    CountConcat(ZeroStamps(1), [cfg.window + 1], 0, length);
    assert CountIn([cfg.window + 1][1..], 0, length) == 0;
    assert !WithinBudget(cfg, Cleared(cfg), IP, 0, length);
  }

  lemma LateStampBreaks(cfg: Config, d: nat, length: int)
    requires cfg.max >= 2 && cfg.window >= 0 && length >= 0 && length > cfg.window - d
    ensures !Keeps(cfg, d, length)
  {
    var now := Max(0, cfg.window + 1 - d);
    var events := Cleared(cfg) + [Attempt(IP, now)];
    ClearedSkew(cfg, now, d);
    LateReadingIsLetIn(cfg, now);
    ZeroFacts(cfg.max, 0, length);
    CountConcat(ZeroStamps(cfg.max), [cfg.window + 1], 0, length);
    CountConcat(ZeroStamps(cfg.max) + [cfg.window + 1], [now], 0, length);
    assert CountIn([now][1..], 0, length) == 0;
    assert !WithinBudget(cfg, events, IP, 0, length);
  }

  /** How long an interval may be. With a budget of at least two every run of skew
      at most `d` keeps the intervals up to `d` shorter than the window, and no
      longer ones; with a budget of one, those up to the window, at any skew. */
  lemma KeepsIff(cfg: Config, d: nat, length: int)
    ensures Keeps(cfg, d, length) <==> cfg.max <= 0 || length < 0 || length <= KeptLength(cfg, d)
  {
    if cfg.max <= 0 || length < 0 || length <= KeptLength(cfg, d) {
      KeepsShortIntervals(cfg, d, length);
    } else if cfg.window < 0 {
      ManyZerosBreak(cfg, d, length);
    } else if cfg.max == 1 {
      TwoStampsBreak(cfg, d, length);
    } else {
      LateStampBreaks(cfg, d, length);
    }
  }
}
