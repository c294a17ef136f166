/** Inbound messages: any number of sessions look a message up, then try to
    commit a new version of it; two unique constraints decide who aborts. */
module Messages {
  import opened Options
  import opened Sequences

  datatype Key = Key(group: string, providerMessage: string)
  datatype Kind = Created | Edited | Deleted
  datatype Event = Event(key: Key, kind: Kind, text: Option<string>, media: seq<string>)

  /** A message's row id is its position; rows are only ever added. */
  datatype Message = Message(key: Key, latest: nat)
  datatype Version = Version(message: nat, no: nat, event: Event)
  datatype Media = Media(message: nat, providerMedia: string)
  datatype Db = Db(messages: seq<Message>, versions: seq<Version>, media: seq<Media>)

  const EMPTY: Db := Db([], [], [])

  /** Which row the lookup of a session finds, and its version counter then. */
  datatype Seen = Nothing | Row(message: nat, latest: nat)
  datatype Tx = Tx(event: Event, seen: Seen)

  function Find(messages: seq<Message>, key: Key): (r: Option<nat>)
    ensures r.Some? ==> r.value < |messages| && messages[r.value].key == key
    ensures r.None? ==> forall i :: 0 <= i < |messages| ==> messages[i].key != key
  {
    if messages == [] then None
    else
      var last := |messages| - 1;
      if messages[last].key == key then Some(last) else Find(messages[..last], key)
  }

  function Look(db: Db, key: Key): Seen {
    match Find(db.messages, key)
    case None => Nothing
    case Some(id) => Row(id, db.messages[id].latest)
  }

  /** A second delivery of the creation is recognised at the lookup. */
  predicate Deduped(db: Db, event: Event) {
    Look(db, event.key).Row? && event.kind == Created
  }

  function MediaRows(message: nat, media: seq<string>): seq<Media> {
    seq(|media|, i requires 0 <= i < |media| => Media(message, media[i]))
  }

  /** The rows that a transaction leaves if the database accepts it. */
  function Write(db: Db, tx: Tx): Db
    requires tx.seen.Row? ==> tx.seen.message < |db.messages|
  {
    match tx.seen
    case Nothing =>
      var id := |db.messages|;
      Db(db.messages + [Message(tx.event.key, 1)],
         db.versions + [Version(id, 1, tx.event)],
         db.media + MediaRows(id, tx.event.media))
    case Row(id, latest) =>
      Db(db.messages[id := db.messages[id].(latest := latest + 1)],
         db.versions + [Version(id, latest + 1, tx.event)],
         db.media + MediaRows(id, tx.event.media))
  }

  predicate UniqueMessages(messages: seq<Message>) {
    forall i, j :: 0 <= i < j < |messages| ==> messages[i].key != messages[j].key
  }

  predicate UniqueVersions(versions: seq<Version>) {
    forall i, j :: 0 <= i < j < |versions| ==>
      versions[i].message != versions[j].message || versions[i].no != versions[j].no
  }

  predicate Accepts(db: Db) {
    UniqueMessages(db.messages) && UniqueVersions(db.versions)
  }

  function Commit(db: Db, tx: Tx): Db
    requires tx.seen.Row? ==> tx.seen.message < |db.messages|
  {
    if Accepts(Write(db, tx)) then Write(db, tx) else db
  }

  class Session {
    var db: Db

    constructor (db: Db)
      ensures this.db == db
    {
      this.db := db;
    }

    /** One uninterrupted run; `None` stands for the integrity error. */
    method PersistInboundEvent(event: Event) returns (deduped: Option<bool>)
      modifies this
      ensures Deduped(old(db), event) ==> deduped == Some(true) && db == old(db)
      ensures !Deduped(old(db), event) ==>
                && db == Commit(old(db), Tx(event, Look(old(db), event.key)))
                && deduped == if Accepts(Write(old(db), Tx(event, Look(old(db), event.key)))) then Some(false) else None
      ensures deduped == Some(true) <==>
                event.kind == Created && exists i :: 0 <= i < |old(db).messages| && old(db).messages[i].key == event.key
      ensures deduped == Some(false) ==>
                exists id: nat, no: nat :: db.versions == old(db).versions + [Version(id, no, event)]
    {
      var messages, versions, media := db.messages, db.versions, db.media;
      var message := Find(messages, event.key);
      var versionNo, id;
      if message.None? {
        id := |messages|;
        messages := messages + [Message(event.key, 1)];
        versionNo := 1;
      } else {
        if event.kind == Created {
          return Some(true);
        }
        id := message.value;
        versionNo := messages[id].latest + 1;
        messages := messages[id := messages[id].(latest := versionNo)];
      }
      versions := versions + [Version(id, versionNo, event)];
      for i := 0 to |event.media|
        invariant media == db.media + MediaRows(id, event.media)[..i]
      {
        media := media + [Media(id, event.media[i])];
      }
      var written := Db(messages, versions, media);
      assert written == Write(db, Tx(event, Look(db, event.key)));
      if !Accepts(written) {
        return None;
      }
      db := written;
      return Some(false);
    }
  }

  // ---------------------------------------------------- concurrent sessions

  /** `history` lists the events of the committed transactions, in commit order. */
  datatype System = System(db: Db, open: map<nat, Tx>, history: seq<Event>)

  datatype Step =
    | Begin(session: nat, event: Event)
    | TryCommit(session: nat)
    | Crash(session: nat)

  ghost predicate Next(s: System, t: System, step: Step) {
    match step
    case Begin(session, event) =>
      && session !in s.open
      && t == if Deduped(s.db, event) then s
              else s.(open := s.open[session := Tx(event, Look(s.db, event.key))])
    case TryCommit(session) =>
      && session in s.open
      && var tx := s.open[session];
         && (tx.seen.Row? ==> tx.seen.message < |s.db.messages|)
         && t == System(Commit(s.db, tx), s.open - {session},
                        if Accepts(Write(s.db, tx)) then s.history + [tx.event] else s.history)
    case Crash(session) =>
      session in s.open && t == s.(open := s.open - {session})
  }

  ghost predicate Execution(states: seq<System>, steps: seq<Step>) {
    && |states| == |steps| + 1
    && states[0] == System(EMPTY, map[], [])
    && forall i :: 0 <= i < |steps| ==> Next(states[i], states[i + 1], steps[i])
  }

  function VersionsOf(versions: seq<Version>, message: nat): seq<Version> {
    if versions == [] then []
    else VersionsOf(versions[..|versions| - 1], message)
         + (if versions[|versions| - 1].message == message then [versions[|versions| - 1]] else [])
  }

  function MediaOf(media: seq<Media>, message: nat): seq<string> {
    if media == [] then []
    else MediaOf(media[..|media| - 1], message)
         + (if media[|media| - 1].message == message then [media[|media| - 1].providerMedia] else [])
  }

  function EventsOf(history: seq<Event>, key: Key): seq<Event> {
    if history == [] then []
    else EventsOf(history[..|history| - 1], key)
         + (if history[|history| - 1].key == key then [history[|history| - 1]] else [])
  }

  function AllMedia(events: seq<Event>): seq<string> {
    if events == [] then [] else AllMedia(events[..|events| - 1]) + events[|events| - 1].media
  }

  /** The rows are numbered from 1, record the events in order, and only the
      first can be a creation. */
  ghost predicate Records(rows: seq<Version>, events: seq<Event>) {
    && |rows| == |events|
    && (forall n :: 0 <= n < |rows| ==> rows[n].no == n + 1 && rows[n].event == events[n])
    && (forall n :: 0 < n < |rows| ==> rows[n].event.kind != Created)
  }

  lemma RecordsSnoc(rows: seq<Version>, events: seq<Event>, v: Version)
    requires Records(rows, events) && v.no == |rows| + 1 && (rows != [] ==> v.event.kind != Created)
    ensures Records(rows + [v], events + [v.event])
  {
  }

  /** A message's versions are numbered 1, 2, ... up to its counter and record,
      in order, the committed events of its key; only the first can be a
      creation; its media are those of the events. */
  ghost predicate MessageMatches(db: Db, history: seq<Event>, id: nat)
    requires id < |db.messages|
  {
    var rows, events := VersionsOf(db.versions, id), EventsOf(history, db.messages[id].key);
    && Records(rows, events) && |rows| == db.messages[id].latest >= 1
    && MediaOf(db.media, id) == AllMedia(events)
  }

  ghost predicate TxFits(db: Db, tx: Tx) {
    tx.seen.Row? ==>
      && tx.seen.message < |db.messages|
      && db.messages[tx.seen.message].key == tx.event.key
      && tx.seen.latest <= db.messages[tx.seen.message].latest
      && tx.event.kind != Created
  }

  ghost predicate Inv(s: System) {
    && Accepts(s.db)
    && (forall id :: 0 <= id < |s.db.messages| ==> MessageMatches(s.db, s.history, id))
    && (forall i :: 0 <= i < |s.db.versions| ==> s.db.versions[i].message < |s.db.messages|)
    && (forall i :: 0 <= i < |s.db.media| ==> s.db.media[i].message < |s.db.messages|)
    && (forall key :: Find(s.db.messages, key).None? ==> EventsOf(s.history, key) == [])
    && (forall session :: session in s.open ==> TxFits(s.db, s.open[session]))
  }

  // ------------------------------------------------------------ one commit

  lemma {:induction false} VersionsOfMember(versions: seq<Version>, message: nat, n: nat)
    requires n < |VersionsOf(versions, message)|
    ensures exists i :: 0 <= i < |versions| && versions[i] == VersionsOf(versions, message)[n]
                        && versions[i].message == message
  {
    var last := |versions| - 1;
    if n < |VersionsOf(versions[..last], message)| {
      VersionsOfMember(versions[..last], message, n);
    } else {
      assert versions[last] == VersionsOf(versions, message)[n];
    }
  }

  lemma {:induction false} NoRowsOfNewMessage(db: Db, message: nat)
    requires forall i :: 0 <= i < |db.versions| ==> db.versions[i].message != message
    ensures VersionsOf(db.versions, message) == []
    decreases |db.versions|
  {
    if db.versions != [] {
      NoRowsOfNewMessage(db.(versions := db.versions[..|db.versions| - 1]), message);
    }
  }

  lemma {:induction false} NoMediaOfNewMessage(media: seq<Media>, message: nat)
    requires forall i :: 0 <= i < |media| ==> media[i].message != message
    ensures MediaOf(media, message) == []
  {
    if media != [] {
      NoMediaOfNewMessage(media[..|media| - 1], message);
    }
  }

  lemma MediaRowsSnoc(target: nat, added: seq<string>)
    requires added != []
    ensures var n := |added| - 1;
            MediaRows(target, added) == MediaRows(target, added[..n]) + [Media(target, added[n])]
  {
  }

  lemma MediaOfSnoc(media: seq<Media>, m: Media, message: nat)
    ensures MediaOf(media + [m], message)
         == MediaOf(media, message) + (if m.message == message then [m.providerMedia] else [])
  {
    SnocFront(media, m);
    Empty(MediaOf(media, message));
  }

  lemma {:induction false} MediaOfAdded(media: seq<Media>, target: nat, added: seq<string>, message: nat)
    ensures MediaOf(media + MediaRows(target, added), message)
         == MediaOf(media, message) + (if target == message then added else [])
    decreases |added|
  {
    if added == [] {
      assert MediaRows(target, added) == [];
      Empty(media);
      Empty(MediaOf(media, message));
    } else {
      var n := |added| - 1;
      var front, last := MediaRows(target, added[..n]), Media(target, added[n]);
      MediaOfAdded(media, target, added[..n], message);
      MediaRowsSnoc(target, added);
      Assoc(media, front, [last]);
      MediaOfSnoc(media + front, last, message);
      Assoc(MediaOf(media, message), added[..n], [added[n]]);
      Unsnoc(added);
      Empty(MediaOf(media, message));
    }
  }

  lemma VersionsOfSnoc(versions: seq<Version>, v: Version, message: nat)
    ensures VersionsOf(versions + [v], message)
         == VersionsOf(versions, message) + (if v.message == message then [v] else [])
  {
    SnocFront(versions, v);
    Empty(VersionsOf(versions, message));
  }

  lemma EventsOfSnoc(history: seq<Event>, e: Event, key: Key)
    ensures EventsOf(history + [e], key) == EventsOf(history, key) + (if e.key == key then [e] else [])
  {
    SnocFront(history, e);
    Empty(EventsOf(history, key));
  }

  lemma AllMediaSnoc(events: seq<Event>, e: Event)
    ensures AllMedia(events + [e]) == AllMedia(events) + e.media
  {
    SnocFront(events, e);
  }

  /** The database accepts a transaction exactly when nobody has committed for
      its message since it looked. */
  lemma CommitsIffNothingMoved(s: System, session: nat)
    requires Inv(s) && session in s.open
    ensures var tx := s.open[session];
            Accepts(Write(s.db, tx)) <==> Look(s.db, tx.event.key) == tx.seen
  {
    var tx := s.open[session];
    var db, written := s.db, Write(s.db, tx);
    match tx.seen
    case Nothing =>
      if Look(db, tx.event.key) == Nothing {
        assert UniqueMessages(written.messages);
        assert UniqueVersions(written.versions);
      } else {
        var id := Look(db, tx.event.key).message;
        assert written.messages[id].key == written.messages[|db.messages|].key;
      }
    case Row(id, latest) =>
      LookIsUnique(db, id);
      assert MessageMatches(db, s.history, id);
      if latest == db.messages[id].latest {
        assert UniqueVersions(written.versions) by {
          forall i | 0 <= i < |db.versions| && db.versions[i].message == id
            ensures db.versions[i].no <= latest
          {
            VersionNumberBounded(db.versions, i, s.history, db, id);
          }
        }
        assert UniqueMessages(written.messages);
      } else {
        VersionsOfMember(db.versions, id, latest);
        var i :| 0 <= i < |db.versions| && db.versions[i] == VersionsOf(db.versions, id)[latest]
                 && db.versions[i].message == id;
        assert written.versions[i].no == latest + 1 == written.versions[|db.versions|].no;
        assert !UniqueVersions(written.versions);
      }
  }

  lemma LookIsUnique(db: Db, id: nat)
    requires UniqueMessages(db.messages) && id < |db.messages|
    ensures Look(db, db.messages[id].key) == Row(id, db.messages[id].latest)
  {
    var found := Find(db.messages, db.messages[id].key);
    assert found.Some?;
    assert found.value == id;
  }

  lemma {:induction false} VersionIsListed(versions: seq<Version>, i: nat)
    requires i < |versions|
    ensures versions[i] in VersionsOf(versions, versions[i].message)
  {
    if i < |versions| - 1 {
      VersionIsListed(versions[..|versions| - 1], i);
    }
  }

  lemma VersionNumberBounded(versions: seq<Version>, i: nat, history: seq<Event>, db: Db, id: nat)
    requires versions == db.versions && i < |versions| && versions[i].message == id < |db.messages|
    requires MessageMatches(db, history, id)
    ensures 1 <= versions[i].no <= db.messages[id].latest
  {
    VersionIsListed(versions, i);
    var n :| 0 <= n < |VersionsOf(versions, id)| && VersionsOf(versions, id)[n] == versions[i];
  }

  function Target(db: Db, tx: Tx): nat {
    if tx.seen.Row? then tx.seen.message else |db.messages|
  }

  function NewNumber(tx: Tx): nat {
    if tx.seen.Row? then tx.seen.latest + 1 else 1
  }

  /** What a commit adds to the rows of a message. */
  lemma RowsAfterWrite(db: Db, tx: Tx, history: seq<Event>, id: nat, key: Key)
    requires TxFits(db, tx)
    ensures id == Target(db, tx) ==>
              && VersionsOf(Write(db, tx).versions, id)
                   == VersionsOf(db.versions, id) + [Version(id, NewNumber(tx), tx.event)]
              && MediaOf(Write(db, tx).media, id) == MediaOf(db.media, id) + tx.event.media
    ensures id != Target(db, tx) ==>
              && VersionsOf(Write(db, tx).versions, id) == VersionsOf(db.versions, id)
              && MediaOf(Write(db, tx).media, id) == MediaOf(db.media, id)
    ensures EventsOf(history + [tx.event], key)
         == if key == tx.event.key then EventsOf(history, key) + [tx.event] else EventsOf(history, key)
  {
    var target := Target(db, tx);
    assert Write(db, tx).versions == db.versions + [Version(target, NewNumber(tx), tx.event)];
    assert Write(db, tx).media == db.media + MediaRows(target, tx.event.media);
    VersionsOfSnoc(db.versions, Version(target, NewNumber(tx), tx.event), id);
    MediaOfAdded(db.media, target, tx.event.media, id);
    EventsOfSnoc(history, tx.event, key);
    if id != target {
      Empty(VersionsOf(db.versions, id));
      Empty(MediaOf(db.media, id));
    }
    Empty(EventsOf(history, key));
  }

  /** What the message of an unmoved transaction has before the commit. */
  lemma TargetBefore(s: System, session: nat)
    requires Inv(s) && session in s.open
    requires Look(s.db, s.open[session].event.key) == s.open[session].seen
    ensures var tx := s.open[session];
            var id, key := Target(s.db, tx), tx.event.key;
            var rows, events := VersionsOf(s.db.versions, id), EventsOf(s.history, key);
            && Records(rows, events) && |rows| == |events| == NewNumber(tx) - 1
            && (rows != [] ==> tx.event.kind != Created)
            && MediaOf(s.db.media, id) == AllMedia(events)
  {
    var tx := s.open[session];
    var id := Target(s.db, tx);
    if tx.seen.Nothing? {
      NoRowsOfNewMessage(s.db, id);
      NoMediaOfNewMessage(s.db.media, id);
    } else {
      assert MessageMatches(s.db, s.history, id);
    }
  }

  lemma CommitKeepsTarget(s: System, session: nat)
    requires Inv(s) && session in s.open
    requires Look(s.db, s.open[session].event.key) == s.open[session].seen
    ensures var tx := s.open[session];
            MessageMatches(Write(s.db, tx), s.history + [tx.event], Target(s.db, tx))
  {
    var tx := s.open[session];
    var id, key := Target(s.db, tx), tx.event.key;
    var rows, events := VersionsOf(s.db.versions, id), EventsOf(s.history, key);
    RowsAfterWrite(s.db, tx, s.history, id, key);
    AllMediaSnoc(events, tx.event);
    assert Write(s.db, tx).messages[id] == Message(key, NewNumber(tx));
    TargetBefore(s, session);
    RecordsSnoc(rows, events, Version(id, NewNumber(tx), tx.event));
  }

  lemma CommitKeepsOthers(s: System, session: nat, id: nat)
    requires Inv(s) && session in s.open
    requires Look(s.db, s.open[session].event.key) == s.open[session].seen
    requires id < |s.db.messages| && id != Target(s.db, s.open[session])
    ensures MessageMatches(Write(s.db, s.open[session]), s.history + [s.open[session].event], id)
  {
    var tx := s.open[session];
    var key := s.db.messages[id].key;
    assert Write(s.db, tx).messages[id] == s.db.messages[id];
    LookIsUnique(s.db, id);
    assert key != tx.event.key;
    RowsAfterWrite(s.db, tx, s.history, id, key);
    assert MessageMatches(s.db, s.history, id);
  }

  lemma CommitKeepsInv(s: System, session: nat, t: System)
    requires Inv(s) && Next(s, t, TryCommit(session))
    ensures Inv(t)
  {
    var tx := s.open[session];
    CommitsIffNothingMoved(s, session);
    if Accepts(Write(s.db, tx)) {
      forall id | 0 <= id < |t.db.messages|
        ensures MessageMatches(t.db, t.history, id)
      {
        if id == Target(s.db, tx) {
          CommitKeepsTarget(s, session);
        } else {
          CommitKeepsOthers(s, session, id);
        }
      }
      forall key | Find(t.db.messages, key).None?
        ensures EventsOf(t.history, key) == []
      {
        EventsOfSnoc(s.history, tx.event, key);
        FindAfterWrite(s.db, tx, key);
      }
    }
  }

  lemma FindAfterWrite(db: Db, tx: Tx, key: Key)
    requires TxFits(db, tx)
    requires Find(Write(db, tx).messages, key).None?
    ensures key != tx.event.key && Find(db.messages, key).None?
  {
    var after := Write(db, tx).messages;
    match tx.seen
    case Nothing =>
      assert after[|db.messages|].key == tx.event.key;
      forall i | 0 <= i < |db.messages| ensures db.messages[i].key != key { assert after[i] == db.messages[i]; }
    case Row(id, latest) =>
      assert after[id].key == tx.event.key;
      forall i | 0 <= i < |db.messages| ensures db.messages[i].key != key { assert after[i].key == db.messages[i].key; }
  }

  lemma StepKeepsInv(s: System, t: System, step: Step)
    requires Inv(s) && Next(s, t, step)
    ensures Inv(t)
  {
    match step
    case Begin(session, event) =>
    case TryCommit(session) => CommitKeepsInv(s, session, t);
    case Crash(session) =>
  }

  // ---------------------------------------------------------- main results

  lemma {:induction false} Reachable(states: seq<System>, steps: seq<Step>)
    requires Execution(states, steps)
    ensures Inv(states[|steps|])
    decreases |steps|
  {
    if steps != [] {
      var n := |steps| - 1;
      Reachable(states[..n + 1], steps[..n]);
      StepKeepsInv(states[n], states[n + 1], steps[n]);
    }
  }

  /** In every interleaving there is one message per key, its versions are
      numbered 1 to its counter, only version 1 can be a creation, and the
      latest version is the last committed event of its key. */
  lemma VersionsAreTheCommittedEvents(states: seq<System>, steps: seq<Step>, id: nat)
    requires Execution(states, steps)
    requires id < |states[|steps|].db.messages|
    ensures var db, history := states[|steps|].db, states[|steps|].history;
            var rows, events := VersionsOf(db.versions, id), EventsOf(history, db.messages[id].key);
            && (forall other :: 0 <= other < |db.messages| && other != id ==>
                  db.messages[other].key != db.messages[id].key)
            && |rows| == |events| == db.messages[id].latest >= 1
            && (forall n :: 0 <= n < |rows| ==> rows[n].no == n + 1 && rows[n].event == events[n])
            && (forall n :: 0 < n < |rows| ==> rows[n].event.kind != Created)
            && rows[|rows| - 1].no == db.messages[id].latest
            && rows[|rows| - 1].event == events[|events| - 1]
            && MediaOf(db.media, id) == AllMedia(events)
  {
    Reachable(states, steps);
    assert MessageMatches(states[|steps|].db, states[|steps|].history, id);
  }

  /** A creation delivered again changes nothing: it is recognised at the lookup
      when the message is there by then, and refused at the commit when the
      message has appeared since. */
  lemma RedeliveredCreationChangesNothing(s: System, t: System, step: Step)
    requires Inv(s) && Next(s, t, step)
    requires match step
             case Begin(_, event) => event.kind == Created && Look(s.db, event.key).Row?
             case TryCommit(session) =>
               s.open[session].event.kind == Created && Look(s.db, s.open[session].event.key).Row?
             case Crash(_) => false
    ensures t.db == s.db && t.history == s.history
    ensures step.Begin? ==> t == s
  {
    if step.TryCommit? {
      CommitsIffNothingMoved(s, step.session);
    }
  }
}
