/** Overlapping runs of the indexing job: a run deletes the rows that it sees and
    commits its own later. No constraint makes a version's chunk numbers unique. */
module IndexingRuns {
  import opened Chunker
  import opened Indexing
  import Sequences
  import Text

  /** A row with the number of the commit that inserted it. */
  datatype Stamped = Stamped(commit: nat, row: Row)

  /** An open run: it has deleted the rows of its version that were committed before
      `since`, and holds the rows that it adds. */
  datatype Held = Held(id: VersionId, since: nat, rows: seq<Row>)

  /** `commits` lists the versions of the committed runs. */
  datatype System = System(table: seq<Stamped>, commits: seq<VersionId>, open: map<nat, Held>)
  const EMPTY: System := System([], [], map[])

  datatype Step =
    | Delete(session: nat, id: VersionId, version: Version, vectors: seq<Vector>)
    | Commit(session: nat)
    | Abort(session: nat)

  function Chunks(version: Version): seq<string> {
    ChunkSpec(version.content, MAX_CHUNK_CHARS)
  }

  predicate Enabled(x: System, step: Step) {
    match step
    case Delete(session, _, version, vectors) => session !in x.open && |vectors| == |Chunks(version)|
    case Commit(session) => session in x.open
    case Abort(session) => session in x.open
  }

  /** What a delete leaves that saw the commits before `since`. */
  function Kept(table: seq<Stamped>, id: VersionId, since: nat): seq<Stamped> {
    if table == [] then []
    else
      (if table[0].row.version == id && table[0].commit < since then [] else [table[0]]) + Kept(table[1..], id, since)
  }

  function Stamp(rows: seq<Row>, commit: nat): seq<Stamped> {
    seq(|rows|, i requires 0 <= i < |rows| => Stamped(commit, rows[i]))
  }

  function Do(x: System, step: Step): System
    requires Enabled(x, step)
  {
    match step
    case Delete(session, id, version, vectors) =>
      x.(open := x.open[session := Held(id, |x.commits|, NewRows(id, version, Chunks(version), vectors))])
    case Commit(session) =>
      var held := x.open[session];
      System(Kept(x.table, held.id, held.since) + Stamp(held.rows, |x.commits|), x.commits + [held.id],
             x.open - {session})
    case Abort(session) => x.(open := x.open - {session})
  }

  ghost predicate Possible(x: System, steps: seq<Step>)
    decreases |steps|
  {
    steps == [] || (Enabled(x, steps[0]) && Possible(Do(x, steps[0]), steps[1..]))
  }

  function After(x: System, steps: seq<Step>): System
    decreases |steps|
  {
    if steps == [] || !Enabled(x, steps[0]) then x else After(Do(x, steps[0]), steps[1..])
  }

  /** The committed rows of a version. */
  function Live(table: seq<Stamped>, id: VersionId): seq<Row> {
    if table == [] then []
    else (if table[0].row.version == id then [table[0].row] else []) + Live(table[1..], id)
  }

  /** Number of the version's last commit, or -1. */
  function LastCommit(commits: seq<VersionId>, id: VersionId): (n: int)
    ensures -1 <= n < |commits|
    ensures n >= 0 ==> commits[n] == id
    ensures forall k :: n < k < |commits| ==> commits[k] != id
  {
    if commits == [] then -1
    else if commits[|commits| - 1] == id then |commits| - 1
    else LastCommit(commits[..|commits| - 1], id)
  }

  ghost predicate IsAdded(held: Held, commits: seq<VersionId>) {
    && held.since <= |commits| && held.rows != []
    && forall i :: 0 <= i < |held.rows| ==> held.rows[i].version == held.id && held.rows[i].chunkNo == i + 1
  }

  /** Rows carry commits of their version, and the last commit of a version has left
      rows. */
  ghost predicate Inv(x: System) {
    && (forall i :: 0 <= i < |x.table| ==>
          x.table[i].commit < |x.commits| && x.commits[x.table[i].commit] == x.table[i].row.version)
    && (forall id :: LastCommit(x.commits, id) >= 0 ==>
          exists i :: 0 <= i < |x.table| && x.table[i].row.version == id
                      && x.table[i].commit == LastCommit(x.commits, id))
    && (forall session :: session in x.open ==> IsAdded(x.open[session], x.commits))
  }

  lemma {:induction false} KeptMembers(table: seq<Stamped>, id: VersionId, since: nat)
    ensures forall s :: s in Kept(table, id, since) <==> s in table && !(s.row.version == id && s.commit < since)
  {
    if table != [] {
      Sequences.Uncons(table);
      KeptMembers(table[1..], id, since);
    }
  }

  lemma ChunksExist(version: Version)
    ensures Chunks(version) != []
  {
    if Text.Blank(version.content) {
      BlankDocument(version.content, MAX_CHUNK_CHARS);
    } else {
      ChunkLaws(version.content, MAX_CHUNK_CHARS);
    }
  }

  lemma LastCommitSnoc(commits: seq<VersionId>, last: VersionId, id: VersionId)
    ensures LastCommit(commits + [last], id) == if id == last then |commits| else LastCommit(commits, id)
  {
    Sequences.SnocFront(commits, last);
  }

  lemma CommitStampsRows(x: System, session: nat)
    requires Inv(x) && session in x.open
    ensures var y := Do(x, Commit(session));
            forall i :: 0 <= i < |y.table| ==>
              y.table[i].commit < |y.commits| && y.commits[y.table[i].commit] == y.table[i].row.version
  {
    var held, y := x.open[session], Do(x, Commit(session));
    var kept, added := Kept(x.table, held.id, held.since), Stamp(held.rows, |x.commits|);
    KeptMembers(x.table, held.id, held.since);
    forall i | 0 <= i < |y.table|
      ensures y.table[i].commit < |y.commits| && y.commits[y.table[i].commit] == y.table[i].row.version
    {
      if i < |kept| {
        assert y.table[i] == kept[i] && kept[i] in x.table;
      } else {
        assert y.table[i] == added[i - |kept|];
      }
    }
  }

  lemma CommitLeavesRows(x: System, session: nat, id: VersionId)
    requires Inv(x) && session in x.open && LastCommit(Do(x, Commit(session)).commits, id) >= 0
    ensures var y := Do(x, Commit(session));
            exists i :: 0 <= i < |y.table| && y.table[i].row.version == id
                        && y.table[i].commit == LastCommit(y.commits, id)
  {
    var held, y := x.open[session], Do(x, Commit(session));
    var kept, added := Kept(x.table, held.id, held.since), Stamp(held.rows, |x.commits|);
    LastCommitSnoc(x.commits, held.id, id);
    if id == held.id {
      assert y.table[|kept|] == added[0];
    } else {
      KeptMembers(x.table, held.id, held.since);
      var i :| 0 <= i < |x.table| && x.table[i].row.version == id && x.table[i].commit == LastCommit(x.commits, id);
      assert x.table[i] in kept;
      var j :| 0 <= j < |kept| && kept[j] == x.table[i];
      assert y.table[j] == kept[j];
    }
  }

  lemma CommitKeepsInv(x: System, session: nat)
    requires Inv(x) && session in x.open
    ensures Inv(Do(x, Commit(session)))
  {
    CommitStampsRows(x, session);
    forall id | LastCommit(Do(x, Commit(session)).commits, id) >= 0 {
      CommitLeavesRows(x, session, id);
    }
  }

  lemma NewRowsAreAdded(id: VersionId, version: Version, vectors: seq<Vector>, commits: seq<VersionId>)
    requires |vectors| == |Chunks(version)|
    ensures IsAdded(Held(id, |commits|, NewRows(id, version, Chunks(version), vectors)), commits)
  {
    ChunksExist(version);
  }

  lemma StepKeepsInv(x: System, step: Step)
    requires Inv(x) && Enabled(x, step)
    ensures Inv(Do(x, step))
  {
    match step
    case Delete(_, id, version, vectors) => NewRowsAreAdded(id, version, vectors, x.commits);
    case Commit(session) => CommitKeepsInv(x, session);
    case Abort(_) =>
  }

  lemma {:induction false} StepsKeepInv(x: System, steps: seq<Step>)
    requires Inv(x) && Possible(x, steps)
    ensures Inv(After(x, steps))
    decreases |steps|
  {
    if steps != [] {
      StepKeepsInv(x, steps[0]);
      StepsKeepInv(Do(x, steps[0]), steps[1..]);
    }
  }

  /** Every interleaving of runs on an empty table keeps the invariant. */
  lemma Reachable(steps: seq<Step>)
    requires Possible(EMPTY, steps)
    ensures Inv(After(EMPTY, steps))
  {
    StepsKeepInv(EMPTY, steps);
  }

  lemma {:induction false} LiveConcat(a: seq<Stamped>, b: seq<Stamped>, id: VersionId)
    ensures Live(a + b, id) == Live(a, id) + Live(b, id)
  {
    if a == [] {
      Sequences.Empty(b);
      Sequences.Empty(Live(b, id));
    } else {
      LiveConcat(a[1..], b, id);
      Sequences.ConcatTail(a, b);
      if a[0].row.version == id {
        Sequences.Assoc([a[0].row], Live(a[1..], id), Live(b, id));
      }
    }
  }

  lemma {:induction false} LiveOfStamp(rows: seq<Row>, commit: nat, id: VersionId)
    requires forall i :: 0 <= i < |rows| ==> rows[i].version == id
    ensures Live(Stamp(rows, commit), id) == rows
  {
    if rows != [] {
      assert Stamp(rows, commit)[1..] == Stamp(rows[1..], commit);
      LiveOfStamp(rows[1..], commit, id);
      Sequences.Uncons(rows);
    }
  }

  lemma {:induction false} LiveMembers(table: seq<Stamped>, id: VersionId)
    ensures Live(table, id) == [] <==> forall s :: s in table ==> s.row.version != id
  {
    if table != [] {
      Sequences.Uncons(table);
      LiveMembers(table[1..], id);
    }
  }

  lemma RowsAfterCommit(x: System, session: nat)
    requires Inv(x) && session in x.open
    ensures var held := x.open[session];
            Live(Do(x, Commit(session)).table, held.id) == Live(Kept(x.table, held.id, held.since), held.id) + held.rows
  {
    var held := x.open[session];
    LiveConcat(Kept(x.table, held.id, held.since), Stamp(held.rows, |x.commits|), held.id);
    LiveOfStamp(held.rows, |x.commits|, held.id);
  }

  lemma NothingKeptIff(x: System, id: VersionId, since: nat)
    requires Inv(x)
    ensures Live(Kept(x.table, id, since), id) == [] <==> LastCommit(x.commits, id) < since
  {
    var last := LastCommit(x.commits, id);
    KeptMembers(x.table, id, since);
    LiveMembers(Kept(x.table, id, since), id);
    if last >= since {
      var i :| 0 <= i < |x.table| && x.table[i].row.version == id && x.table[i].commit == last;
      assert x.table[i] in Kept(x.table, id, since);
    }
  }

  /** A commit leaves exactly the run's own rows, numbered 1 to n, iff no other run of
      the version has committed since this one deleted the old rows. */
  lemma RowsAreExactIff(x: System, session: nat)
    requires Inv(x) && session in x.open
    ensures var held := x.open[session];
            && (Live(Do(x, Commit(session)).table, held.id) == held.rows
                <==> LastCommit(x.commits, held.id) < held.since)
            && forall i :: 0 <= i < |held.rows| ==> held.rows[i].chunkNo == i + 1
  {
    var held := x.open[session];
    RowsAfterCommit(x, session);
    NothingKeptIff(x, held.id, held.since);
    Sequences.Empty(held.rows);
  }

  /** Two runs of one version that have both deleted the old rows before either
      commits leave the rows of both. Contents with equally many chunks then have
      every chunk number twice; of unequal ones the longer's last numbers appear once. */
  lemma OverlappingRunsDouble(x: System, a: nat, b: nat)
    requires Inv(x) && a in x.open && b in x.open && a != b && x.open[a].id == x.open[b].id
    requires LastCommit(x.commits, x.open[a].id) < x.open[a].since
    requires LastCommit(x.commits, x.open[b].id) < x.open[b].since
    ensures var y := Do(Do(x, Commit(a)), Commit(b));
            Live(y.table, x.open[a].id) == x.open[a].rows + x.open[b].rows
  {
    var y := Do(x, Commit(a));
    var id, since := x.open[a].id, x.open[b].since;
    CommitKeepsInv(x, a);
    RowsAfterCommit(y, b);
    LiveKept(x, a, since);
  }

  /** Such runs exist: two jobs for a version without rows, with any contents. */
  lemma OverlapFromEmpty(id: VersionId, v: Version, w: Version, vs: seq<Vector>, ws: seq<Vector>)
    requires |vs| == |Chunks(v)| && |ws| == |Chunks(w)|
    ensures var steps := [Delete(0, id, v, vs)] + ([Delete(1, id, w, ws)] + ([Commit(0)] + [Commit(1)]));
            && Possible(EMPTY, steps)
            && Live(After(EMPTY, steps).table, id) == NewRows(id, v, Chunks(v), vs) + NewRows(id, w, Chunks(w), ws)
  {
    var a := Do(EMPTY, Delete(0, id, v, vs));
    var b := Do(a, Delete(1, id, w, ws));
    StepKeepsInv(EMPTY, Delete(0, id, v, vs));
    StepKeepsInv(a, Delete(1, id, w, ws));
    OverlappingRunsDouble(b, 0, 1);
    OneStep(Do(b, Commit(0)), Commit(1), []);
    Sequences.Empty([Commit(1)]);
    OneStep(b, Commit(0), [Commit(1)]);
    OneStep(a, Delete(1, id, w, ws), [Commit(0)] + [Commit(1)]);
    OneStep(EMPTY, Delete(0, id, v, vs), [Delete(1, id, w, ws)] + ([Commit(0)] + [Commit(1)]));
  }

  lemma OneStep(x: System, step: Step, rest: seq<Step>)
    requires Enabled(x, step) && Possible(Do(x, step), rest)
    ensures Possible(x, [step] + rest) && After(x, [step] + rest) == After(Do(x, step), rest)
  {
    Sequences.ConsTail(step, rest);
  }

  lemma {:induction false} KeptConcat(a: seq<Stamped>, b: seq<Stamped>, id: VersionId, since: nat)
    ensures Kept(a + b, id, since) == Kept(a, id, since) + Kept(b, id, since)
  {
    if a == [] {
      Sequences.Empty(b);
      Sequences.Empty(Kept(b, id, since));
    } else {
      KeptConcat(a[1..], b, id, since);
      Sequences.ConcatTail(a, b);
      if !(a[0].row.version == id && a[0].commit < since) {
        Sequences.Assoc([a[0]], Kept(a[1..], id, since), Kept(b, id, since));
      }
    }
  }

  lemma {:induction false} KeptNew(table: seq<Stamped>, id: VersionId, since: nat)
    requires forall i :: 0 <= i < |table| ==> table[i].commit >= since
    ensures Kept(table, id, since) == table
  {
    if table != [] {
      KeptNew(table[1..], id, since);
      Sequences.Uncons(table);
    }
  }

  /** What the second run keeps of the version: the rows of the first. */
  lemma LiveKept(x: System, a: nat, since: nat)
    requires Inv(x) && a in x.open && since <= |x.commits|
    requires LastCommit(x.commits, x.open[a].id) < x.open[a].since
    requires LastCommit(x.commits, x.open[a].id) < since
    ensures Live(Kept(Do(x, Commit(a)).table, x.open[a].id, since), x.open[a].id) == x.open[a].rows
  {
    var held := x.open[a];
    var kept, added := Kept(x.table, held.id, held.since), Stamp(held.rows, |x.commits|);
    KeptConcat(kept, added, held.id, since);
    KeptNew(added, held.id, since);
    LiveConcat(Kept(kept, held.id, since), added, held.id);
    LiveOfStamp(held.rows, |x.commits|, held.id);
    assert Live(Kept(kept, held.id, since), held.id) == [] by {
      NothingKeptIff(x, held.id, held.since);
      LiveMembers(kept, held.id);
      KeptMembers(kept, held.id, since);
      LiveMembers(Kept(kept, held.id, since), held.id);
    }
    Sequences.Empty(held.rows);
  }
}
