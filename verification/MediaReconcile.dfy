/** Media reconciliation: failed assets without a media id are deleted, pending
    assets are queued, failed assets are queued again. */
module MediaReconcile {
  import opened Numbers
  import opened Options
  import opened Sequences

  const BOGUS: string := "b''"
  const ERROR_KEY: string := "error"

  type Id = nat
  datatype Status = Pending | Ready | Failed
  datatype Asset = Asset(
    group: string, mediaId: string, status: Status, metadata: map<string, string>, created: int, updated: int)
  type Table = map<Id, Asset>

  /** No group and the empty group both mean every group. */
  predicate InScope(asset: Asset, group: Option<string>) {
    group.None? || group.value == "" || asset.group == group.value
  }

  function WithStatus(assets: Table, group: Option<string>, status: Status): set<Id> {
    set id | id in assets && InScope(assets[id], group) && assets[id].status == status
  }

  function BogusFailed(assets: Table, group: Option<string>): set<Id> {
    set id | id in WithStatus(assets, group, Failed) && assets[id].mediaId == BOGUS
  }

  datatype Snapshot = Snapshot(pending: nat, failed: nat, failedBogus: nat, ready: nat)

  function SnapshotOf(assets: Table, group: Option<string>): Snapshot {
    Snapshot(|WithStatus(assets, group, Pending)|, |WithStatus(assets, group, Failed)|,
             |BogusFailed(assets, group)|, |WithStatus(assets, group, Ready)|)
  }

  function Elements(ids: seq<Id>): set<Id> {
    set id | id in ids
  }

  /** Distinct ids in ascending order of a key, none of which comes after an id
      that is left. */
  ghost predicate Leads(ids: seq<Id>, left: set<Id>, key: map<Id, int>)
    requires Elements(ids) + left <= key.Keys
  {
    && |Elements(ids)| == |ids| && Elements(ids) !! left
    && (forall i, j :: 0 <= i < j < |ids| ==>
          ids[i] in Elements(ids) && ids[j] in Elements(ids) && key[ids[i]] <= key[ids[j]])
    && (forall a, c :: a in Elements(ids) && c in left ==> key[a] <= key[c])
  }

  /** The first `limit` candidates by a key; ties may come in any order. */
  ghost predicate IsFirst(ids: seq<Id>, candidates: set<Id>, key: map<Id, int>, limit: nat)
    requires candidates <= key.Keys
  {
    && |ids| == Min(limit, |candidates|) && Elements(ids) <= candidates
    && Leads(ids, candidates - Elements(ids), key)
  }

  lemma {:induction false} LeastExists(candidates: set<Id>, key: map<Id, int>)
    requires candidates != {} && candidates <= key.Keys
    ensures exists id :: id in candidates && forall c :: c in candidates ==> key[id] <= key[c]
  {
    var x :| x in candidates;
    var rest := candidates - {x};
    if rest == {} {
      assert candidates == {x};
    } else {
      LeastExists(rest, key);
      var y :| y in rest && forall c :: c in rest ==> key[y] <= key[c];
      var least := if key[x] <= key[y] then x else y;
      assert forall c :: c in candidates ==> c == x || c in rest;
      assert least in candidates;
    }
  }

  lemma ElementsSnoc(ids: seq<Id>, id: Id)
    ensures Elements(ids + [id]) == Elements(ids) + {id}
  {
  }

  /** The selection so far: `ids` lead the candidates, `left` are the others. */
  ghost predicate Selecting(ids: seq<Id>, left: set<Id>, candidates: set<Id>, key: map<Id, int>)
    requires candidates <= key.Keys
  {
    && Elements(ids) <= candidates && left == candidates - Elements(ids)
    && |ids| + |left| == |candidates| && Leads(ids, left, key)
  }

  lemma SelectingNothing(candidates: set<Id>, key: map<Id, int>)
    requires candidates <= key.Keys
    ensures Selecting([], candidates, candidates, key)
  {
    assert Elements([]) == {};
  }

  lemma TakeLeast(ids: seq<Id>, left: set<Id>, candidates: set<Id>, key: map<Id, int>, id: Id)
    requires candidates <= key.Keys && Selecting(ids, left, candidates, key)
    requires id in left && forall c :: c in left ==> key[id] <= key[c]
    ensures Selecting(ids + [id], left - {id}, candidates, key)
  {
    ElementsSnoc(ids, id);
    assert id !in Elements(ids);
    assert left - {id} == candidates - Elements(ids + [id]);
  }

  /** A query with `ORDER BY key LIMIT limit`. */
  method Select(candidates: set<Id>, key: map<Id, int>, limit: nat) returns (ids: seq<Id>)
    requires candidates <= key.Keys
    ensures IsFirst(ids, candidates, key, limit)
  {
    ids := [];
    var left := candidates;
    SelectingNothing(candidates, key);
    while |ids| < limit && left != {}
      invariant |ids| <= limit && Selecting(ids, left, candidates, key)
      decreases |left|
    {
      LeastExists(left, key);
      var id :| id in left && forall c :: c in left ==> key[id] <= key[c];
      TakeLeast(ids, left, candidates, key, id);
      ids := ids + [id];
      left := left - {id};
    }
  }

  // ----------------------------------------------------------- the actions

  function Created(assets: Table): map<Id, int> {
    map id | id in assets :: assets[id].created
  }

  function Updated(assets: Table): map<Id, int> {
    map id | id in assets :: assets[id].updated
  }

  /** A failed asset that is tried again. */
  function Reset(asset: Asset, now: int): Asset {
    asset.(status := Pending, metadata := asset.metadata - {ERROR_KEY}, updated := now)
  }

  function Retried(assets: Table, picked: set<Id>, now: int): Table {
    map id | id in assets :: if id in picked then Reset(assets[id], now) else assets[id]
  }

  lemma RetryNone(assets: Table, now: int)
    ensures Retried(assets, Elements([]), now) == assets
  {
  }

  lemma RetryOne(assets: Table, rows: seq<Id>, n: nat, now: int)
    requires n < |rows| && Elements(rows) <= assets.Keys
    ensures rows[n] in assets
    ensures Retried(assets, Elements(rows[..n]), now)[rows[n] := Reset(assets[rows[n]], now)]
         == Retried(assets, Elements(rows[..n + 1]), now)
  {
    assert rows[n] in Elements(rows);
    TakeSnoc(rows, n);
    ElementsSnoc(rows[..n], rows[n]);
  }

  /** A retried asset is pending and has lost its error; what else it has stays. */
  lemma RetriedAsset(assets: Table, picked: set<Id>, now: int, id: Id)
    requires id in assets
    ensures id in Retried(assets, picked, now)
    ensures var before, after := assets[id], Retried(assets, picked, now)[id];
            && after.group == before.group && after.mediaId == before.mediaId && after.created == before.created
            && (id !in picked ==> after == before)
            && (id in picked ==>
                  && after.status == Pending && after.updated == now && "error" !in after.metadata
                  && forall key :: key != "error" ==>
                       && (key in after.metadata <==> key in before.metadata)
                       && (key in before.metadata ==> after.metadata[key] == before.metadata[key]))
  {
  }

  /** No candidate was created before an asset that a query by creation yields. */
  lemma FirstCreated(ids: seq<Id>, candidates: set<Id>, assets: Table, limit: nat)
    requires candidates <= assets.Keys && IsFirst(ids, candidates, Created(assets), limit)
    ensures forall i, j :: 0 <= i < j < |ids| ==>
              ids[i] in assets && ids[j] in assets && assets[ids[i]].created <= assets[ids[j]].created
    ensures forall id, c :: id in ids && c in candidates && c !in ids ==>
              id in assets && assets[id].created <= assets[c].created
  {
    var key := Created(assets);
    forall i, j | 0 <= i < j < |ids|
      ensures ids[i] in assets && ids[j] in assets && assets[ids[i]].created <= assets[ids[j]].created
    {
      assert ids[i] in Elements(ids) && ids[j] in Elements(ids);
      assert key[ids[i]] <= key[ids[j]];
    }
    forall id, c | id in ids && c in candidates && c !in ids
      ensures id in assets && assets[id].created <= assets[c].created
    {
      assert id in Elements(ids) && c in candidates - Elements(ids);
      assert key[id] <= key[c];
    }
  }

  /** Nor was one updated before an asset that a query by its last change yields. */
  lemma FirstUpdated(ids: seq<Id>, candidates: set<Id>, assets: Table, limit: nat)
    requires candidates <= assets.Keys && IsFirst(ids, candidates, Updated(assets), limit)
    ensures forall i, j :: 0 <= i < j < |ids| ==>
              ids[i] in assets && ids[j] in assets && assets[ids[i]].updated <= assets[ids[j]].updated
    ensures forall id, c :: id in ids && c in candidates && c !in ids ==>
              id in assets && assets[id].updated <= assets[c].updated
  {
    var key := Updated(assets);
    forall i, j | 0 <= i < j < |ids|
      ensures ids[i] in assets && ids[j] in assets && assets[ids[i]].updated <= assets[ids[j]].updated
    {
      assert ids[i] in Elements(ids) && ids[j] in Elements(ids);
      assert key[ids[i]] <= key[ids[j]];
    }
    forall id, c | id in ids && c in candidates && c !in ids
      ensures id in assets && assets[id].updated <= assets[c].updated
    {
      assert id in Elements(ids) && c in candidates - Elements(ids);
      assert key[id] <= key[c];
    }
  }

  /** Which assets a request for a group is about: no name and the empty name mean
      all groups. */
  lemma ScopeOfRequest(assets: Table, group: Option<string>, status: Status, id: Id)
    ensures id in WithStatus(assets, group, status)
       <==> id in assets && assets[id].status == status
            && (group == None || group == Some("") || group == Some(assets[id].group))
    ensures id in BogusFailed(assets, group)
       <==> id in WithStatus(assets, group, Failed) && assets[id].mediaId == "b''"
  {
  }

  // ------------------------------------------------------------- counting

  /** Assets outside the group are what they were. */
  ghost predicate OthersUntouched(before: Table, after: Table, group: Option<string>) {
    forall id :: id in before && !InScope(before[id], group) ==> id in after && after[id] == before[id]
  }

  lemma OthersStayUntouched(a: Table, b: Table, c: Table, group: Option<string>)
    requires OthersUntouched(a, b, group) && OthersUntouched(b, c, group)
    ensures OthersUntouched(a, c, group)
  {
  }

  /** `n` failed assets without a media id are gone, and nothing else changed in
      number. */
  ghost predicate CleanedUp(before: Table, after: Table, group: Option<string>, n: nat) {
    var b, a := SnapshotOf(before, group), SnapshotOf(after, group);
    && a.failed + n == b.failed && a.failedBogus + n == b.failedBogus && a.pending == b.pending && a.ready == b.ready
    && WithStatus(after, group, Pending) == WithStatus(before, group, Pending)
    && |after| + n == |before| && OthersUntouched(before, after, group)
  }

  /** `n` failed assets have become pending. */
  ghost predicate TriedAgain(before: Table, after: Table, group: Option<string>, n: nat) {
    var b, a := SnapshotOf(before, group), SnapshotOf(after, group);
    && a.failed + n == b.failed && a.pending == b.pending + n && a.ready == b.ready
    && a.failedBogus <= b.failedBogus <= a.failedBogus + n
    && |after| == |before| && OthersUntouched(before, after, group)
  }

  lemma CleanupSets(assets: Table, group: Option<string>, gone: set<Id>)
    requires gone <= BogusFailed(assets, group)
    ensures WithStatus(assets - gone, group, Failed) == WithStatus(assets, group, Failed) - gone
    ensures BogusFailed(assets - gone, group) == BogusFailed(assets, group) - gone
    ensures WithStatus(assets - gone, group, Pending) == WithStatus(assets, group, Pending)
    ensures WithStatus(assets - gone, group, Ready) == WithStatus(assets, group, Ready)
    ensures gone <= assets.Keys && OthersUntouched(assets, assets - gone, group)
  {
  }

  lemma RemovedCount(assets: Table, gone: set<Id>)
    requires gone <= assets.Keys
    ensures |assets - gone| + |gone| == |assets|
  {
    assert (assets - gone).Keys == assets.Keys - gone;
    assert |assets - gone| == |(assets - gone).Keys| && |assets| == |assets.Keys|;
  }

  lemma CleanupCounts(assets: Table, group: Option<string>, gone: set<Id>)
    requires gone <= BogusFailed(assets, group)
    ensures CleanedUp(assets, assets - gone, group, |gone|)
  {
    CleanupSets(assets, group, gone);
    RemovedCount(assets, gone);
    assert gone <= WithStatus(assets, group, Failed);
  }

  lemma RetrySets(assets: Table, group: Option<string>, picked: set<Id>, now: int)
    requires picked <= WithStatus(assets, group, Failed)
    ensures var after := Retried(assets, picked, now);
            && WithStatus(after, group, Failed) == WithStatus(assets, group, Failed) - picked
            && WithStatus(after, group, Pending) == WithStatus(assets, group, Pending) + picked
            && WithStatus(after, group, Ready) == WithStatus(assets, group, Ready)
            && BogusFailed(after, group) == BogusFailed(assets, group) - picked
  {
  }

  lemma BogusLeft(bogus: set<Id>, picked: set<Id>)
    ensures |bogus - picked| <= |bogus| <= |bogus - picked| + |picked|
  {
    assert |bogus - picked| + |bogus * picked| == |bogus| by {
      assert (bogus - picked) + (bogus * picked) == bogus;
    }
    SubsetIsSmaller(bogus * picked, picked);
  }

  lemma RetriedCount(assets: Table, picked: set<Id>, now: int)
    ensures |Retried(assets, picked, now)| == |assets|
  {
    assert Retried(assets, picked, now).Keys == assets.Keys;
    assert |Retried(assets, picked, now)| == |Retried(assets, picked, now).Keys| && |assets| == |assets.Keys|;
  }

  lemma RetryLeavesOthers(assets: Table, group: Option<string>, picked: set<Id>, now: int)
    requires picked <= WithStatus(assets, group, Failed)
    ensures OthersUntouched(assets, Retried(assets, picked, now), group)
  {
  }

  lemma RetryCounts(assets: Table, group: Option<string>, picked: set<Id>, now: int)
    requires picked <= WithStatus(assets, group, Failed)
    ensures TriedAgain(assets, Retried(assets, picked, now), group, |picked|)
  {
    var pending, failed := WithStatus(assets, group, Pending), WithStatus(assets, group, Failed);
    RetrySets(assets, group, picked, now);
    assert |pending + picked| == |pending| + |picked| by {
      assert pending !! picked;
    }
    assert |failed - picked| == |failed| - |picked|;
    BogusLeft(BogusFailed(assets, group), picked);
    RetriedCount(assets, picked, now);
    RetryLeavesOthers(assets, group, picked, now);
  }

  lemma SubsetIsSmaller(a: set<Id>, b: set<Id>)
    requires a <= b
    ensures |a| <= |b|
  {
    assert |b - a| + |a| == |b| by {
      assert (b - a) + a == b;
    }
  }

  datatype Request = Request(
    group: Option<string>, limit: nat, cleanupBogus: bool, enqueuePending: bool, retryFailed: bool, dryRun: bool)
  datatype Response = Response(before: Snapshot, after: Snapshot, cleaned: nat, enqueued: nat, retried: nat)

  /** What an action may do at most: `limit` of the assets it applies to. */
  function Quota(on: bool, limit: nat, available: nat): nat {
    if on then Min(limit, available) else 0
  }

  /** The numbers of a response: each action takes its quota, retried assets turn
      from failed to pending, and cleaned assets are gone. */
  ghost predicate Balanced(r: Request, response: Response) {
    var before, after := response.before, response.after;
    && response.cleaned == Quota(r.cleanupBogus && !r.dryRun, r.limit, before.failedBogus)
    && response.enqueued == Quota(r.enqueuePending && !r.dryRun, r.limit, before.pending)
    && response.cleaned <= before.failed
    && response.retried == Quota(r.retryFailed && !r.dryRun, r.limit, before.failed - response.cleaned)
    && after.pending == before.pending + response.retried
    && after.failed + response.cleaned + response.retried == before.failed
    && after.ready == before.ready
    && after.failedBogus + response.cleaned <= before.failedBogus
                                             <= after.failedBogus + response.cleaned + response.retried
  }

  lemma ActionsBalance(
      start: Table, left: Table, end: Table, r: Request, cleaned: nat, enqueued: nat, retried: nat)
    requires CleanedUp(start, left, r.group, cleaned) && TriedAgain(left, end, r.group, retried)
    requires cleaned == Quota(r.cleanupBogus && !r.dryRun, r.limit, SnapshotOf(start, r.group).failedBogus)
    requires enqueued == Quota(r.enqueuePending && !r.dryRun, r.limit, SnapshotOf(left, r.group).pending)
    requires retried == Quota(r.retryFailed && !r.dryRun, r.limit, SnapshotOf(left, r.group).failed)
    ensures Balanced(r, Response(SnapshotOf(start, r.group), SnapshotOf(end, r.group), cleaned, enqueued, retried))
    ensures |end| == |start| - cleaned && OthersUntouched(start, end, r.group)
  {
    OthersStayUntouched(start, left, end, r.group);
  }

  class MediaStore {
    var assets: Table
    var queued: seq<Id>

    method CleanupBogus(limit: nat, group: Option<string>) returns (cleaned: nat, ghost gone: set<Id>)
      modifies this`assets
      ensures gone <= BogusFailed(old(assets), group)
      ensures |gone| == cleaned == Min(limit, |BogusFailed(old(assets), group)|)
      ensures assets == old(assets) - gone
    {
      var anyOrder := map id | id in assets :: 0;
      var bogusIds := Select(BogusFailed(assets, group), anyOrder, limit);
      gone := Elements(bogusIds);
      if bogusIds == [] {
        assert assets - gone == assets;
        return 0, gone;
      }
      assets := assets - Elements(bogusIds);
      return |bogusIds|, gone;
    }

    /** The queue takes `room` jobs and refuses the next one; `None` stands for the
        exception. */
    method EnqueuePending(limit: nat, group: Option<string>, room: nat)
      returns (count: Option<nat>, ghost picked: seq<Id>)
      modifies this`queued
      ensures IsFirst(picked, WithStatus(assets, group, Pending), Created(assets), limit)
      ensures count == if |picked| <= room then Some(|picked|) else None
      ensures queued == old(queued) + if |picked| <= room then picked else picked[..room]
      ensures |queued| == |old(queued)| + Min(|picked|, room) && old(queued) <= queued
    {
      var rows := Select(WithStatus(assets, group, Pending), Created(assets), limit);
      picked := rows;
      var n := 0;
      TakeAll(rows);
      while n < |rows|
        invariant n <= |rows| && n <= room
        invariant queued == old(queued) + rows[..n]
      {
        if n == room {
          return None, picked;
        }
        TakeSnoc(rows, n);
        Assoc(old(queued), rows[..n], [rows[n]]);
        queued := queued + [rows[n]];
        n := n + 1;
      }
      return Some(n), picked;
    }

    /** The rows change in the session as their jobs are queued, and are committed
        after the last one. */
    method RetryFailed(limit: nat, group: Option<string>, room: nat, now: int)
      returns (count: Option<nat>, ghost picked: seq<Id>)
      modifies this
      ensures IsFirst(picked, WithStatus(old(assets), group, Failed), Updated(old(assets)), limit)
      ensures count == if |picked| <= room then Some(|picked|) else None
      ensures queued == old(queued) + if |picked| <= room then picked else picked[..room]
      ensures |queued| == |old(queued)| + Min(|picked|, room) && old(queued) <= queued
      ensures assets == if |picked| <= room then Retried(old(assets), Elements(picked), now) else old(assets)
    {
      var table := assets;
      var rows := Select(WithStatus(table, group, Failed), Updated(table), limit);
      picked := rows;
      var changed, n := table, 0;
      TakeAll(rows);
      RetryNone(table, now);
      while n < |rows|
        invariant n <= |rows| && n <= room && assets == table
        invariant queued == old(queued) + rows[..n]
        invariant changed == Retried(table, Elements(rows[..n]), now)
      {
        if n == room {
          return None, picked;
        }
        RetryOne(table, rows, n, now);
        changed := changed[rows[n] := Reset(table[rows[n]], now)];
        TakeSnoc(rows, n);
        Assoc(old(queued), rows[..n], [rows[n]]);
        queued := queued + [rows[n]];
        n := n + 1;
      }
      assets := changed;
      return Some(n), picked;
    }

    method CleanIfAsked(r: Request) returns (cleaned: nat)
      modifies this`assets
      ensures CleanedUp(old(assets), assets, r.group, cleaned)
      ensures cleaned == Quota(r.cleanupBogus, r.limit, SnapshotOf(old(assets), r.group).failedBogus)
    {
      if !r.cleanupBogus {
        return 0;
      }
      ghost var start, gone := assets, {};
      cleaned, gone := CleanupBogus(r.limit, r.group);
      CleanupCounts(start, r.group, gone);
    }

    /** The actions of a request that is no dry run: how many assets were cleaned,
        queued and retried; `None` when the queue refuses a job. */
    method Act(r: Request, room: nat, now: int) returns (done: Option<(nat, nat, nat)>)
      requires !r.dryRun
      modifies this
      ensures done.Some? ==>
                && var (cleaned, enqueued, retried) := done.value;
                && Balanced(r, Response(SnapshotOf(old(assets), r.group), SnapshotOf(assets, r.group),
                                        cleaned, enqueued, retried))
                && |assets| == |old(assets)| - cleaned && |queued| == |old(queued)| + enqueued + retried
      ensures done.None? ==>
                && WithStatus(assets, r.group, Pending) == WithStatus(old(assets), r.group, Pending)
                && |queued| == |old(queued)| + room
      ensures old(queued) <= queued && OthersUntouched(old(assets), assets, r.group)
    {
      ghost var start := assets;
      var cleaned := CleanIfAsked(r);
      ghost var left := assets;
      var enqueued, retried := 0, 0;
      if r.enqueuePending {
        var count, picked := EnqueuePending(r.limit, r.group, room);
        if count.None? {
          return None;
        }
        enqueued := count.value;
      }
      if r.retryFailed {
        var count, picked := RetryFailed(r.limit, r.group, room - enqueued, now);
        if count.None? {
          return None;
        }
        retried := count.value;
        RetryCounts(left, r.group, Elements(picked), now);
      }
      ActionsBalance(start, left, assets, r, cleaned, enqueued, retried);
      return Some((cleaned, enqueued, retried));
    }

    /** The reconcile endpoint; `room` is how many jobs the queue still takes. */
    method Reconcile(r: Request, room: nat, now: int) returns (response: Option<Response>)
      modifies this
      ensures response.Some? ==>
                && response.value.before == SnapshotOf(old(assets), r.group)
                && response.value.after == SnapshotOf(assets, r.group)
                && Balanced(r, response.value)
                && |assets| == |old(assets)| - response.value.cleaned
                && |queued| == |old(queued)| + response.value.enqueued + response.value.retried
      ensures response.None? ==>
                && WithStatus(assets, r.group, Pending) == WithStatus(old(assets), r.group, Pending)
                && |queued| == |old(queued)| + room
      ensures old(queued) <= queued && OthersUntouched(old(assets), assets, r.group)
      ensures r.dryRun ==> response.Some? && assets == old(assets) && queued == old(queued)
    {
      var before := SnapshotOf(assets, r.group);
      if r.dryRun {
        return Some(Response(before, SnapshotOf(assets, r.group), 0, 0, 0));
      }
      var done := Act(r, room, now);
      if done.None? {
        return None;
      }
      return Some(Response(before, SnapshotOf(assets, r.group), done.value.0, done.value.1, done.value.2));
    }
  }
}
