/** The grammar of the focus log: every session number is started once, then has
    checkpoints that follow one another without a gap, and ends with one final
    interval exactly when its session is over. */
module FocusLog {
  import opened FocusTracker
  import opened Numbers
  import opened Sequences

  function EntriesOf(log: seq<Entry>, n: nat): seq<Entry> {
    if log == [] then []
    else
      var last := log[|log| - 1];
      EntriesOf(log[..|log| - 1], n) + (if last.number == n then [last] else [])
  }

  lemma EntriesSnoc(log: seq<Entry>, e: Entry, n: nat)
    ensures EntriesOf(log + [e], n) == EntriesOf(log, n) + (if e.number == n then [e] else [])
  {
    SnocFront(log, e);
  }

  /** The start of the session, and intervals that begin where the one before ends. */
  ghost predicate Chained(entries: seq<Entry>, n: nat, root: string) {
    && entries != [] && entries[0] == Started(root, n)
    && (forall k :: 0 < k < |entries| ==>
          && entries[k].Interval? && entries[k].root == root && entries[k].number == n
          && entries[k].duration == if entries[k].endedAt >= entries[k].startedAt
                                    then entries[k].endedAt - entries[k].startedAt else 0)
    && forall j, k :: 0 < j && k == j + 1 < |entries| ==> entries[k].startedAt == entries[j].endedAt
  }

  /** An open session has only checkpoints, and goes on from the last one. */
  ghost predicate IsOpenEntry(entries: seq<Entry>, s: Session) {
    && Chained(entries, s.number, s.root)
    && (forall k :: 0 < k < |entries| ==> entries[k].kind == Checkpoint)
    && (|entries| > 1 ==> s.startedAt == entries[|entries| - 1].endedAt)
  }

  /** A session that is over has one final interval, at its end. */
  ghost predicate IsOver(entries: seq<Entry>, n: nat) {
    && |entries| > 1 && Chained(entries, n, entries[0].root)
    && forall k :: 0 < k < |entries| ==> (entries[k].kind == Final <==> k == |entries| - 1)
  }

  function NumberCount(sessions: seq<Session>, n: nat): nat {
    if sessions == [] then 0 else (if sessions[0].number == n then 1 else 0) + NumberCount(sessions[1..], n)
  }

  /** A number is of one session at most; a started one is open or over, and others have
      no entries. */
  ghost predicate Fits(log: seq<Entry>, sessions: seq<Session>, counter: nat, n: nat) {
    && NumberCount(sessions, n) <= 1
    && (forall s :: s in sessions && s.number == n ==> 1 <= n <= counter && IsOpenEntry(EntriesOf(log, n), s))
    && (NumberCount(sessions, n) == 0 && 1 <= n <= counter ==> IsOver(EntriesOf(log, n), n))
    && (n == 0 || n > counter ==> EntriesOf(log, n) == [])
  }

  lemma {:induction false} NumberCountConcat(a: seq<Session>, b: seq<Session>, n: nat)
    ensures NumberCount(a + b, n) == NumberCount(a, n) + NumberCount(b, n)
  {
    if a == [] {
      Empty(b);
    } else {
      NumberCountConcat(a[1..], b, n);
      ConcatTail(a, b);
    }
  }

  lemma {:induction false} NumberCountMembers(sessions: seq<Session>, n: nat)
    ensures NumberCount(sessions, n) == 0 <==> forall s :: s in sessions ==> s.number != n
  {
    if sessions != [] {
      NumberCountMembers(sessions[1..], n);
      Uncons(sessions);
    }
  }

  lemma NumberCountMiddle(a: seq<Session>, s: Session, b: seq<Session>, n: nat)
    ensures NumberCount(a + [s] + b, n) == NumberCount(a + b, n) + (if s.number == n then 1 else 0)
    ensures s in a + [s] + b && forall x :: x in a + [s] + b <==> x == s || x in a + b
  {
    NumberCountConcat(a + [s], b, n);
    NumberCountConcat(a, [s], n);
    NumberCountConcat(a, b, n);
    assert [s][1..] == [];
    assert (a + [s] + b)[|a|] == s;
  }

  lemma CloseEntries(entries: seq<Entry>, s: Session, now: int)
    requires IsOpenEntry(entries, s)
    ensures IsOver(entries + [Closing(s, Final, now)], s.number)
  {
  }

  lemma RollEntries(entries: seq<Entry>, s: Session, now: int)
    requires IsOpenEntry(entries, s)
    ensures IsOpenEntry(entries + [Closing(s, Checkpoint, now)], s.(startedAt := now))
  {
  }

  /** A session ends: its entries get their final interval. */
  lemma CloseFits(log: seq<Entry>, a: seq<Session>, s: Session, b: seq<Session>, counter: nat, now: int, n: nat)
    requires Fits(log, a + [s] + b, counter, n)
    ensures Fits(log + [Closing(s, Final, now)], a + b, counter, n)
  {
    NumberCountMiddle(a, s, b, n);
    EntriesSnoc(log, Closing(s, Final, now), n);
    if s.number == n {
      NumberCountMembers(a + b, n);
      CloseEntries(EntriesOf(log, n), s, now);
    } else {
      Empty(EntriesOf(log, n));
    }
  }

  /** A checkpoint: the session goes on from now. */
  lemma RollFits(log: seq<Entry>, a: seq<Session>, s: Session, b: seq<Session>, counter: nat, now: int, n: nat)
    requires Fits(log, a + [s] + b, counter, n)
    ensures Fits(log + [Closing(s, Checkpoint, now)], a + [s.(startedAt := now)] + b, counter, n)
  {
    NumberCountMiddle(a, s, b, n);
    NumberCountMiddle(a, s.(startedAt := now), b, n);
    EntriesSnoc(log, Closing(s, Checkpoint, now), n);
    if s.number == n {
      NumberCountMembers(a + b, n);
      RollEntries(EntriesOf(log, n), s, now);
    } else {
      Empty(EntriesOf(log, n));
    }
  }

  lemma StartEntries(root: string, n: nat, now: int)
    ensures IsOpenEntry([Started(root, n)], Session(root, n, now))
  {
  }

  lemma OneMore(sessions: seq<Session>, added: Session, n: nat)
    ensures NumberCount(sessions + [added], n) == NumberCount(sessions, n) + (if added.number == n then 1 else 0)
    ensures forall x :: x in sessions + [added] <==> x == added || x in sessions
  {
    NumberCountConcat(sessions, [added], n);
    assert [added][1..] == [];
  }

  lemma FirstEntry(log: seq<Entry>, sessions: seq<Session>, counter: nat, added: Session)
    requires Fits(log, sessions, counter, counter + 1) && added.number == counter + 1
    ensures Fits(log + [Started(added.root, counter + 1)], sessions + [added], counter + 1, counter + 1)
  {
    var n := counter + 1;
    NumberCountMembers(sessions, n);
    OneMore(sessions, added, n);
    EntriesSnoc(log, Started(added.root, n), n);
    Empty([Started(added.root, n)]);
    StartEntries(added.root, n, added.startedAt);
  }

  lemma OthersStay(log: seq<Entry>, sessions: seq<Session>, counter: nat, added: Session, n: nat)
    requires Fits(log, sessions, counter, n) && added.number == counter + 1 != n
    ensures Fits(log + [Started(added.root, counter + 1)], sessions + [added], counter + 1, n)
  {
    OneMore(sessions, added, n);
    EntriesSnoc(log, Started(added.root, counter + 1), n);
    Empty(EntriesOf(log, n));
  }

  /** A session starts with the next number. */
  lemma StartFits(log: seq<Entry>, sessions: seq<Session>, counter: nat, root: string, now: int, n: nat)
    requires Fits(log, sessions, counter, n)
    ensures Fits(log + [Started(root, counter + 1)], sessions + [Session(root, counter + 1, now)], counter + 1, n)
  {
    var added := Session(root, counter + 1, now);
    if n == counter + 1 {
      FirstEntry(log, sessions, counter, added);
    } else {
      OthersStay(log, sessions, counter, added, n);
    }
  }

  lemma {:induction false} EndAllFits(log: seq<Entry>, sessions: seq<Session>, counter: nat, now: int, n: nat)
    requires Fits(log, sessions, counter, n)
    ensures Fits(EndAll(log, sessions, now), [], counter, n)
    decreases |sessions|
  {
    if sessions != [] {
      var s, rest := sessions[0], sessions[1..];
      Uncons(sessions);
      Empty([s]);
      Empty(rest);
      CloseFits(log, [], s, rest, counter, now, n);
      EndAllFits(log + [Closing(s, Final, now)], rest, counter, now, n);
    }
  }

  lemma {:induction false} RollAllFits(
      log: seq<Entry>, done: seq<Session>, rest: seq<Session>, counter: nat, now: int, n: nat)
    requires Fits(log, done + rest, counter, n)
    ensures var r := RollAll(log, done, rest, now);
            Fits(r.0, r.1, counter, n)
    decreases |rest|
  {
    if rest == [] {
      Empty(done);
    } else {
      var s, tail := rest[0], rest[1..];
      Uncons(rest);
      Assoc(done, [s], tail);
      if now - s.startedAt <= 0 {
        RollAllFits(log, done + [s], tail, counter, now, n);
      } else {
        RollFits(log, done, s, tail, counter, now, n);
        RollAllFits(log + [Closing(s, Checkpoint, now)], done + [s.(startedAt := now)], tail, counter, now, n);
      }
    }
  }

  lemma {:induction false} EndUnlistedFits(
      log: seq<Entry>, kept: seq<Session>, rest: seq<Session>, roots: seq<string>, counter: nat, now: int,
      n: nat)
    requires Fits(log, kept + rest, counter, n)
    ensures var r := EndUnlisted(log, kept, rest, roots, now);
            Fits(r.0, r.1, counter, n)
    decreases |rest|
  {
    if rest == [] {
      Empty(kept);
    } else {
      var s, tail := rest[0], rest[1..];
      Uncons(rest);
      Assoc(kept, [s], tail);
      if s.root in roots {
        EndUnlistedFits(log, kept + [s], tail, roots, counter, now, n);
      } else {
        CloseFits(log, kept, s, tail, counter, now, n);
        EndUnlistedFits(log + [Closing(s, Final, now)], kept, tail, roots, counter, now, n);
      }
    }
  }

  lemma {:induction false} StartMissingFits(s: State, roots: seq<string>, now: int, n: nat)
    requires Fits(s.log, s.sessions, s.counter, n)
    ensures var t := StartMissing(s, roots, now);
            Fits(t.log, t.sessions, t.counter, n)
    decreases |roots|
  {
    if roots != [] {
      if Has(s.sessions, roots[0]) {
        StartMissingFits(s, roots[1..], now, n);
      } else {
        StartFits(s.log, s.sessions, s.counter, roots[0], now, n);
        StartMissingFits(
          s.(sessions := s.sessions + [Session(roots[0], s.counter + 1, now)], counter := s.counter + 1,
             log := s.log + [Started(roots[0], s.counter + 1)]), roots[1..], now, n);
      }
    }
  }

  lemma EventFits(enabled: bool, s: State, event: Event, n: nat)
    requires Fits(s.log, s.sessions, s.counter, n)
    ensures var t := After(enabled, s, event);
            Fits(t.log, t.sessions, t.counter, n)
  {
    match event
    case Sync(now, focused, roots) =>
      if !enabled || !focused || roots == [] {
        EndAllFits(s.log, s.sessions, s.counter, now, n);
      } else {
        var started := StartMissing(s, roots, now);
        StartMissingFits(s, roots, now, n);
        Empty(started.sessions);
        EndUnlistedFits(started.log, [], started.sessions, roots, started.counter, now, n);
      }
    case Tick(now) =>
      Empty(s.sessions);
      RollAllFits(s.log, [], s.sessions, s.counter, now, n);
    case Flush(now) =>
      Empty(s.sessions);
      RollAllFits(s.log, [], s.sessions, s.counter, now, n);
    case Dispose(now) => EndAllFits(s.log, s.sessions, s.counter, now, n);
  }

  /** For every sequence of events and every clock, also one that goes back: each number
      is started once, and its session is open or has a chain of checkpoints and one
      final interval in the log. */
  lemma {:induction false} LogIsSound(enabled: bool, events: seq<Event>, n: nat)
    ensures var s := Run(enabled, events);
            Fits(s.log, s.sessions, s.counter, n)
  {
    if events != [] {
      LogIsSound(enabled, events[..|events| - 1], n);
      EventFits(enabled, Run(enabled, events[..|events| - 1]), events[|events| - 1], n);
    }
  }

  /** The checkpoint timer runs exactly after a synchronisation that found focus and a
      folder, up to the next one that does not, or the disposal. */
  lemma TimerIff(enabled: bool, s: State, event: Event)
    ensures After(enabled, s, event).timer
       <==> match event
            case Sync(_, focused, roots) => enabled && focused && roots != []
            case Tick(_) => s.timer
            case Flush(_) => s.timer
            case Dispose(_) => false
  {
  }
}
