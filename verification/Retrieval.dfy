/** Context retrieval: recent messages first, then the best knowledge chunks of
    two scopes, merged by a stable sort and cut to a limit. */
module Retrieval {
  import opened Numbers
  import opened Sequences
  import opened Text

  datatype Scope = Conversation | Group | Common
  datatype Hit = Hit(scope: Scope, score: real, occurredAt: int, content: string, source: nat)

  /** A result row of a knowledge query; `source` identifies the chunk. */
  datatype ChunkRow = ChunkRow(source: nat, chunkNo: nat, content: string, occurredAt: int, score: real)
  datatype MessageRow = MessageRow(source: nat, content: string, occurredAt: int)

  function Priority(scope: Scope): int {
    match scope
    case Conversation => 3
    case Group => 2
    case Common => 1
  }

  /** Comparison of the sort keys (priority, score, time). */
  predicate Above(a: Hit, b: Hit) {
    || Priority(a.scope) > Priority(b.scope)
    || (Priority(a.scope) == Priority(b.scope)
        && (a.score > b.score || (a.score == b.score && a.occurredAt > b.occurredAt)))
  }

  predicate SortedHits(hits: seq<Hit>) {
    forall i, j :: 0 <= i < j < |hits| ==> !Above(hits[j], hits[i])
  }

  // ------------------------------------------------- the library's sort

  /** How many hits stay in front of `h`. */
  function Place(h: Hit, hits: seq<Hit>): (p: nat)
    ensures p <= |hits|
    ensures forall i :: 0 <= i < p ==> Above(hits[i], h)
    ensures p < |hits| ==> !Above(hits[p], h)
  {
    if hits != [] && Above(hits[0], h) then 1 + Place(h, hits[1..]) else 0
  }

  function Insert(h: Hit, hits: seq<Hit>): seq<Hit> {
    hits[..Place(h, hits)] + [h] + hits[Place(h, hits)..]
  }

  /** `hits.sort(key=..., reverse=True)`: descending and stable. */
  function Sort(hits: seq<Hit>): seq<Hit> {
    if hits == [] then [] else Insert(hits[0], Sort(hits[1..]))
  }

  predicate SameKey(a: Hit, b: Hit) {
    a.scope == b.scope && a.score == b.score && a.occurredAt == b.occurredAt
  }

  function WithKey(hits: seq<Hit>, key: Hit): seq<Hit> {
    if hits == [] then []
    else (if SameKey(hits[0], key) then [hits[0]] else []) + WithKey(hits[1..], key)
  }

  lemma InsertSorts(h: Hit, hits: seq<Hit>)
    requires SortedHits(hits)
    ensures SortedHits(Insert(h, hits))
  {
    var p, r := Place(h, hits), Insert(h, hits);
    forall i, j | 0 <= i < j < |r|
      ensures !Above(r[j], r[i])
    {
      var i', j' := if i < p then i else i - 1, if j < p then j else j - 1;
      assert i != p ==> r[i] == hits[i'];
      assert j != p ==> r[j] == hits[j'];
      if i == p && j' > p {
        assert !Above(hits[j'], hits[p]);
      }
    }
  }

  lemma InsertKeepsAll(h: Hit, hits: seq<Hit>)
    ensures multiset(Insert(h, hits)) == multiset(hits) + multiset{h}
  {
    Cut(hits, Place(h, hits));
  }

  lemma {:induction false} WithKeyConcat(a: seq<Hit>, b: seq<Hit>, key: Hit)
    ensures WithKey(a + b, key) == WithKey(a, key) + WithKey(b, key)
  {
    if a == [] {
      Empty(b);
      Empty(WithKey(b, key));
    } else {
      WithKeyConcat(a[1..], b, key);
      ConcatTail(a, b);
      Assoc(if SameKey(a[0], key) then [a[0]] else [], WithKey(a[1..], key), WithKey(b, key));
    }
  }

  lemma {:induction false} NoneWithKey(hits: seq<Hit>, key: Hit)
    requires forall i :: 0 <= i < |hits| ==> !SameKey(hits[i], key)
    ensures WithKey(hits, key) == []
  {
    if hits != [] {
      NoneWithKey(hits[1..], key);
    }
  }

  lemma InsertKeepsKeys(h: Hit, hits: seq<Hit>, key: Hit)
    ensures WithKey(Insert(h, hits), key) == WithKey([h], key) + WithKey(hits, key)
  {
    var p := Place(h, hits);
    var front, back := hits[..p], hits[p..];
    Cut(hits, p);
    WithKeyConcat(front, back, key);
    WithKeyConcat(front + [h], back, key);
    WithKeyConcat(front, [h], key);
    if SameKey(h, key) {
      NoneWithKey(front, key);
      Empty(WithKey([h], key));
      Empty(WithKey(back, key));
    } else {
      NoneWithKey([h], key);
      Empty(WithKey(front, key));
      Empty(WithKey(hits, key));
    }
  }

  /** The sort orders the hits, keeps them all, and keeps the order of hits with
      equal keys; these three facts determine its result. */
  lemma {:induction false} SortIsStable(hits: seq<Hit>, key: Hit)
    ensures SortedHits(Sort(hits))
    ensures multiset(Sort(hits)) == multiset(hits)
    ensures WithKey(Sort(hits), key) == WithKey(hits, key)
  {
    if hits != [] {
      SortIsStable(hits[1..], key);
      InsertSorts(hits[0], Sort(hits[1..]));
      InsertKeepsAll(hits[0], Sort(hits[1..]));
      InsertKeepsKeys(hits[0], Sort(hits[1..]), key);
      Uncons(hits);
      WithKeyConcat([hits[0]], hits[1..], key);
    }
  }

  lemma {:induction false} SortedStays(hits: seq<Hit>)
    requires SortedHits(hits)
    ensures Sort(hits) == hits
  {
    if hits != [] {
      SortedStays(hits[1..]);
      Uncons(hits);
      assert Place(hits[0], hits[1..]) == 0;
    }
  }

  function Take<T>(s: seq<T>, n: int): seq<T> {
    if n <= 0 then [] else if n < |s| then s[..n] else s
  }

  /** `top` is the best `n` of `all`: nothing left out ranks above anything kept. */
  ghost predicate IsTop(all: seq<Hit>, top: seq<Hit>, n: nat) {
    && |top| == (if n < |all| then n else |all|)
    && exists rest: seq<Hit> ::
         && multiset(top) + multiset(rest) == multiset(all)
         && forall i, j :: 0 <= i < |top| && 0 <= j < |rest| ==> !Above(rest[j], top[i])
  }

  lemma CutOfSorted(sorted: seq<Hit>, n: nat)
    requires SortedHits(sorted)
    ensures IsTop(sorted, Take(sorted, n), n)
  {
    var k := if n < |sorted| then n else |sorted|;
    var top, rest := sorted[..k], sorted[k..];
    Cut(sorted, k);
    assert Take(sorted, n) == top;
    assert multiset(top) + multiset(rest) == multiset(sorted);
    forall i, j | 0 <= i < |top| && 0 <= j < |rest|
      ensures !Above(rest[j], top[i])
    {
      assert rest[j] == sorted[k + j];
    }
  }

  lemma SameElements(a: seq<Hit>, b: seq<Hit>, top: seq<Hit>, n: nat)
    requires multiset(a) == multiset(b) && IsTop(a, top, n)
    ensures IsTop(b, top, n)
  {
    assert |a| == |multiset(a)| == |b|;
  }

  lemma SortAndCutIsTop(all: seq<Hit>, n: nat)
    ensures IsTop(all, Take(Sort(all), n), n)
  {
    SortIsStable(all, Hit(Group, 0.0, 0, "", 0));
    CutOfSorted(Sort(all), n);
    SameElements(Sort(all), all, Take(Sort(all), n), n);
  }

  // ------------------------------------------------------ building the hits

  function HitsOf(rows: seq<ChunkRow>, scope: Scope): seq<Hit> {
    if rows == [] then []
    else
      var front, last := rows[..|rows| - 1], rows[|rows| - 1];
      HitsOf(front, scope)
      + (if Blank(last.content) then []
         else [Hit(scope, last.score, last.occurredAt, Strip(last.content), last.source)])
  }

  method BuildKnowledgeHits(rows: seq<ChunkRow>, scope: Scope) returns (hits: seq<Hit>)
    ensures hits == HitsOf(rows, scope)
  {
    hits := [];
    for i := 0 to |rows|
      invariant hits == HitsOf(rows[..i], scope)
    {
      assert rows[..i + 1][..i] == rows[..i];
      var content := Strip(rows[i].content);
      if content == "" {
        continue;
      }
      hits := hits + [Hit(scope, rows[i].score, rows[i].occurredAt, content, rows[i].source)];
    }
    assert rows[..|rows|] == rows;
  }

  function VisibleChunks(rows: seq<ChunkRow>): nat {
    if rows == [] then 0
    else VisibleChunks(rows[..|rows| - 1]) + if Strip(rows[|rows| - 1].content) == "" then 0 else 1
  }

  function ChunkHit(row: ChunkRow, scope: Scope): Hit {
    Hit(scope, row.score, row.occurredAt, Strip(row.content), row.source)
  }

  lemma {:induction false} HitCount(rows: seq<ChunkRow>, scope: Scope)
    ensures |HitsOf(rows, scope)| == VisibleChunks(rows)
  {
    if rows != [] {
      HitCount(rows[..|rows| - 1], scope);
    }
  }

  lemma TakeOfFront<T>(s: seq<T>, i: nat)
    requires i < |s|
    ensures s[..|s| - 1][..i] == s[..i]
  {
  }

  /** There is a hit for every row that is not blank, in order: its scope, score, time,
      stripped content and source. */
  lemma {:induction false} HitOfRow(rows: seq<ChunkRow>, scope: Scope, i: nat)
    requires i < |rows| && Strip(rows[i].content) != ""
    ensures VisibleChunks(rows[..i]) < |HitsOf(rows, scope)| == VisibleChunks(rows)
    ensures HitsOf(rows, scope)[VisibleChunks(rows[..i])] == ChunkHit(rows[i], scope)
  {
    var front := rows[..|rows| - 1];
    HitCount(rows, scope);
    HitCount(front, scope);
    TakeOfFront(rows, i);
    if i < |front| {
      HitOfRow(front, scope, i);
    }
  }

  /** The order in which the knowledge queries return their rows. */
  ghost predicate QueryOrdered(rows: seq<ChunkRow>) {
    forall i, j :: 0 <= i < j < |rows| ==>
      || rows[i].score > rows[j].score
      || (rows[i].score == rows[j].score
          && (rows[i].occurredAt > rows[j].occurredAt
              || (rows[i].occurredAt == rows[j].occurredAt && rows[i].chunkNo <= rows[j].chunkNo)))
  }

  lemma {:induction false} HitsComeFromRows(rows: seq<ChunkRow>, scope: Scope)
    ensures forall k :: 0 <= k < |HitsOf(rows, scope)| ==>
              && HitsOf(rows, scope)[k].scope == scope
              && exists i :: 0 <= i < |rows| && rows[i].score == HitsOf(rows, scope)[k].score
                             && rows[i].occurredAt == HitsOf(rows, scope)[k].occurredAt
  {
    if rows != [] {
      var front := rows[..|rows| - 1];
      HitsComeFromRows(front, scope);
      forall k | 0 <= k < |HitsOf(rows, scope)|
        ensures HitsOf(rows, scope)[k].scope == scope
        ensures exists i :: 0 <= i < |rows| && rows[i].score == HitsOf(rows, scope)[k].score
                            && rows[i].occurredAt == HitsOf(rows, scope)[k].occurredAt
      {
        if k < |HitsOf(front, scope)| {
          var i :| 0 <= i < |front| && front[i].score == HitsOf(front, scope)[k].score
                   && front[i].occurredAt == HitsOf(front, scope)[k].occurredAt;
          assert rows[i] == front[i];
        } else {
          assert rows[|rows| - 1].score == HitsOf(rows, scope)[k].score;
        }
      }
    }
  }

  lemma {:induction false} HitsAreSorted(rows: seq<ChunkRow>, scope: Scope)
    requires QueryOrdered(rows)
    ensures SortedHits(HitsOf(rows, scope))
  {
    if rows != [] {
      var front, last := rows[..|rows| - 1], rows[|rows| - 1];
      var hits := HitsOf(front, scope);
      HitsAreSorted(front, scope);
      HitsComeFromRows(front, scope);
      forall k | 0 <= k < |hits|
        ensures !Above(Hit(scope, last.score, last.occurredAt, Strip(last.content), last.source), hits[k])
      {
        var i :| 0 <= i < |front| && front[i].score == hits[k].score && front[i].occurredAt == hits[k].occurredAt;
        assert rows[i] == front[i];
      }
    }
  }

  lemma {:induction false} HitsOfConcat(a: seq<ChunkRow>, b: seq<ChunkRow>, scope: Scope)
    ensures HitsOf(a + b, scope) == HitsOf(a, scope) + HitsOf(b, scope)
  {
    if b == [] {
      Empty(a);
      Empty(HitsOf(a, scope));
    } else {
      var front := b[..|b| - 1];
      HitsOfConcat(a, front, scope);
      Unsnoc(b);
      Assoc(a, front, [b[|b| - 1]]);
      SnocFront(a + front, b[|b| - 1]);
      Assoc(HitsOf(a, scope), HitsOf(front, scope),
            if Blank(b[|b| - 1].content) then []
            else [Hit(scope, b[|b| - 1].score, b[|b| - 1].occurredAt, Strip(b[|b| - 1].content), b[|b| - 1].source)]);
    }
  }

  // -------------------------------------------------------- knowledge hits

  /** What the two knowledge queries would return without a limit; `available`
      is false when the tables or the database cannot be queried. */
  datatype Knowledge = Knowledge(available: bool, group: seq<ChunkRow>, common: seq<ChunkRow>)

  ghost predicate Ordered(k: Knowledge) {
    QueryOrdered(k.group) && QueryOrdered(k.common)
  }

  function PerScope(limit: int): nat {
    if limit > 4 then limit else 4
  }

  /** The hits of one scope that a query with the per-scope limit yields. */
  function Fetched(rows: seq<ChunkRow>, scope: Scope, limit: int): seq<Hit> {
    HitsOf(Take(rows, PerScope(limit)), scope)
  }

  /** The per-scope results one after the other, cut to the limit. */
  function KnowledgeHits(k: Knowledge, limit: int): (r: seq<Hit>)
    ensures |r| <= if limit > 0 then limit else 0
  {
    if limit <= 0 || !k.available then []
    else Take(Fetched(k.group, Group, limit) + Fetched(k.common, Common, limit), limit)
  }

  /** Sorting the merged hits moves none of them. */
  method RetrieveKnowledgeHits(k: Knowledge, limit: int) returns (hits: seq<Hit>)
    requires Ordered(k)
    ensures hits == KnowledgeHits(k, limit)
  {
    if limit <= 0 {
      return [];
    }
    if !k.available {
      return [];
    }
    var perScopeLimit := if limit > 4 then limit else 4;
    var groupHits := BuildKnowledgeHits(Take(k.group, perScopeLimit), Group);
    var commonHits := BuildKnowledgeHits(Take(k.common, perScopeLimit), Common);
    hits := groupHits + commonHits;
    assert Sort(hits) == hits by {
      MergedIsSorted(Take(k.group, perScopeLimit), Take(k.common, perScopeLimit));
      SortedStays(hits);
    }
    hits := Sort(hits);
    return Take(hits, limit);
  }

  lemma MergedIsSorted(group: seq<ChunkRow>, common: seq<ChunkRow>)
    requires QueryOrdered(group) && QueryOrdered(common)
    ensures SortedHits(HitsOf(group, Group) + HitsOf(common, Common))
  {
    HitsAreSorted(group, Group);
    HitsAreSorted(common, Common);
    HitsComeFromRows(group, Group);
    HitsComeFromRows(common, Common);
  }

  /** The best `limit` of all eligible non-blank chunks of both scopes. */
  function TopOfAll(k: Knowledge, limit: int): seq<Hit> {
    Take(Sort(HitsOf(k.group, Group) + HitsOf(k.common, Common)), limit)
  }

  lemma FetchedIsPrefix(rows: seq<ChunkRow>, scope: Scope, limit: int)
    ensures HitsOf(rows, scope)
         == Fetched(rows, scope, limit) + HitsOf(rows[|Take(rows, PerScope(limit))|..], scope)
  {
    var n := |Take(rows, PerScope(limit))|;
    Cut(rows, n);
    assert Take(rows, PerScope(limit)) == rows[..n];
    HitsOfConcat(rows[..n], rows[n..], scope);
  }

  /** Blank chunks take up places of the per-scope limit. Merging the per-scope
      results equals the best of the union exactly when the group scope yields
      enough hits, or has no further non-blank chunk and the same holds of the
      common scope for the places that are left. */
  lemma MergeIsTopIff(k: Knowledge, limit: nat)
    requires Ordered(k)
    ensures var group, common := Fetched(k.group, Group, limit), Fetched(k.common, Common, limit);
            Take(group + common, limit) == TopOfAll(k, limit)
            <==> || |group| >= limit
                 || (&& group == HitsOf(k.group, Group)
                     && (|group| + |common| >= limit || common == HitsOf(k.common, Common)))
  {
    var group, common := Fetched(k.group, Group, limit), Fetched(k.common, Common, limit);
    var allGroup, allCommon := HitsOf(k.group, Group), HitsOf(k.common, Common);
    FetchedIsPrefix(k.group, Group, limit);
    FetchedIsPrefix(k.common, Common, limit);
    MergedIsSorted(k.group, k.common);
    SortedStays(allGroup + allCommon);
    HitsComeFromRows(k.group, Group);
    HitsComeFromRows(Take(k.common, PerScope(limit)), Common);
    PrefixesCutAlike(group, common, allGroup, allCommon, limit);
  }

  lemma PrefixesCutAlike(group: seq<Hit>, common: seq<Hit>, allGroup: seq<Hit>, allCommon: seq<Hit>, limit: nat)
    requires group <= allGroup && common <= allCommon
    requires forall i :: 0 <= i < |allGroup| ==> allGroup[i].scope == Group
    requires forall i :: 0 <= i < |common| ==> common[i].scope == Common
    ensures Take(group + common, limit) == Take(allGroup + allCommon, limit)
       <==> || |group| >= limit
            || (group == allGroup && (|group| + |common| >= limit || common == allCommon))
  {
    var some, all := Take(group + common, limit), Take(allGroup + allCommon, limit);
    if |group| >= limit {
      assert some == group[..limit] == all;
    } else if group != allGroup {
      assert |all| > |group| && all[|group|] == allGroup[|group|];
      assert |some| > |group| ==> some[|group|] == common[0];
    } else if |group| + |common| >= limit {
      assert some == group + common[..limit - |group|] == all;
    } else if common != allCommon {
      assert |some| == |group| + |common| < |all|;
    }
  }

  lemma {:induction false} AllVisible(rows: seq<ChunkRow>, scope: Scope)
    requires forall i :: 0 <= i < |rows| ==> !Blank(rows[i].content)
    ensures |HitsOf(rows, scope)| == |rows|
  {
    if rows != [] {
      AllVisible(rows[..|rows| - 1], scope);
    }
  }

  lemma FetchedSuffices(rows: seq<ChunkRow>, scope: Scope, limit: nat)
    requires forall i :: 0 <= i < |rows| && i < PerScope(limit) ==> !Blank(rows[i].content)
    ensures |Fetched(rows, scope, limit)| >= limit || Fetched(rows, scope, limit) == HitsOf(rows, scope)
  {
    var taken := Take(rows, PerScope(limit));
    assert |HitsOf(taken, scope)| == |taken| by {
      AllVisible(taken, scope);
    }
    if |rows| <= PerScope(limit) {
      assert taken == rows;
    }
  }

  /** When the rows the queries return hold no blank chunk, merging the per-scope
      results gives the best of the union. */
  lemma MergeIsTopWithoutBlanks(k: Knowledge, limit: nat)
    requires Ordered(k)
    requires forall i :: 0 <= i < |k.group| && i < PerScope(limit) ==> !Blank(k.group[i].content)
    requires forall i :: 0 <= i < |k.common| && i < PerScope(limit) ==> !Blank(k.common[i].content)
    ensures Take(Fetched(k.group, Group, limit) + Fetched(k.common, Common, limit), limit) == TopOfAll(k, limit)
    ensures IsTop(HitsOf(k.group, Group) + HitsOf(k.common, Common), TopOfAll(k, limit), limit)
  {
    FetchedSuffices(k.group, Group, limit);
    FetchedSuffices(k.common, Common, limit);
    MergeIsTopIff(k, limit);
    SortAndCutIsTop(HitsOf(k.group, Group) + HitsOf(k.common, Common), limit);
  }

  /** Four blank chunks in front of a good one and a limit of 1: nothing is
      found, although the scope holds an eligible chunk. */
  lemma BlankChunksHideOthers(blank: ChunkRow, good: ChunkRow)
    requires Blank(blank.content) && !Blank(good.content) && blank.score > good.score
    ensures var k := Knowledge(true, [], [blank, blank, blank, blank] + [good]);
            && Ordered(k)
            && Take(Fetched(k.group, Group, 1) + Fetched(k.common, Common, 1), 1) == []
            && |TopOfAll(k, 1)| == 1
  {
    var rows := [blank, blank, blank, blank];
    var k := Knowledge(true, [], rows + [good]);
    BetterFirst(rows, blank, good);
    assert Fetched(k.common, Common, 1) == [] by {
      assert Take(k.common, PerScope(1)) == rows;
      NoHits(rows, Common);
    }
    assert |HitsOf(k.common, Common)| == 1 by {
      NoHits(rows, Common);
      HitsOfConcat(rows, [good], Common);
      assert [good][..0] == [];
    }
    assert HitsOf(k.group, Group) == [] == Fetched(k.group, Group, 1);
    Empty(HitsOf(k.common, Common));
    SingleIsTop(HitsOf(k.common, Common));
  }

  lemma BetterFirst(rows: seq<ChunkRow>, better: ChunkRow, last: ChunkRow)
    requires forall i :: 0 <= i < |rows| ==> rows[i] == better
    requires better.score > last.score
    ensures QueryOrdered(rows + [last])
  {
  }

  lemma SingleIsTop(hits: seq<Hit>)
    requires |hits| == 1
    ensures |Take(Sort(hits), 1)| == 1
  {
    SortedStays(hits);
  }

  lemma {:induction false} NoHits(rows: seq<ChunkRow>, scope: Scope)
    requires forall i :: 0 <= i < |rows| ==> Blank(rows[i].content)
    ensures HitsOf(rows, scope) == []
  {
    if rows != [] {
      NoHits(rows[..|rows| - 1], scope);
    }
  }

  // -------------------------------------------------------- whole context

  function RecentTarget(limit: int): int {
    var half := if limit / 2 < 4 then limit / 2 else 4;
    var target := if half > 1 then half else 1;
    if limit < target then limit else target
  }

  /** The hits of the latest messages; a blank message still uses up a rank. */
  function RecentHits(rows: seq<MessageRow>): seq<Hit> {
    if rows == [] then []
    else
      var n := |rows| - 1;
      RecentHits(rows[..n]) + (if Blank(rows[n].content) then [] else [RecentHit(rows[n], n)])
  }

  function RecentHit(row: MessageRow, index: nat): Hit {
    Hit(Conversation, 300.0 - index as real, row.occurredAt, Strip(row.content), row.source)
  }

  method RetrieveRecentMessageHits(rows: seq<MessageRow>, limit: int) returns (hits: seq<Hit>)
    ensures hits == RecentHits(Take(rows, limit))
  {
    var fetched := Take(rows, limit);
    hits := [];
    for index := 0 to |fetched|
      invariant hits == RecentHits(fetched[..index])
    {
      assert fetched[..index + 1][..index] == fetched[..index];
      if Strip(fetched[index].content) == "" {
        continue;
      }
      hits := hits + [RecentHit(fetched[index], index)];
    }
    assert fetched[..|fetched|] == fetched;
  }

  lemma {:induction false} RecentIsSorted(rows: seq<MessageRow>)
    ensures |RecentHits(rows)| <= |rows|
    ensures SortedHits(RecentHits(rows))
    ensures forall i :: 0 <= i < |RecentHits(rows)| ==>
              RecentHits(rows)[i].scope == Conversation && RecentHits(rows)[i].score > 300.0 - |rows| as real
  {
    if rows != [] {
      RecentIsSorted(rows[..|rows| - 1]);
    }
  }

  function VisibleMessages(rows: seq<MessageRow>): nat {
    if rows == [] then 0
    else VisibleMessages(rows[..|rows| - 1]) + if Strip(rows[|rows| - 1].content) == "" then 0 else 1
  }

  function MessageHit(row: MessageRow, index: nat): Hit {
    Hit(Conversation, 300.0 - index as real, row.occurredAt, Strip(row.content), row.source)
  }

  lemma {:induction false} RecentCount(rows: seq<MessageRow>)
    ensures |RecentHits(rows)| == VisibleMessages(rows)
  {
    if rows != [] {
      RecentCount(rows[..|rows| - 1]);
    }
  }

  /** There is a hit for every message that is not blank, in order; the score falls with
      the rank of the message. */
  lemma {:induction false} HitOfMessage(rows: seq<MessageRow>, i: nat)
    requires i < |rows| && Strip(rows[i].content) != ""
    ensures VisibleMessages(rows[..i]) < |RecentHits(rows)| == VisibleMessages(rows)
    ensures RecentHits(rows)[VisibleMessages(rows[..i])] == MessageHit(rows[i], i)
  {
    var front := rows[..|rows| - 1];
    RecentCount(rows);
    RecentCount(front);
    TakeOfFront(rows, i);
    if i < |front| {
      HitOfMessage(front, i);
    }
  }

  /** How many of the latest messages are looked at. */
  function Share(limit: int): nat {
    if limit >= 8 then 4 else if limit >= 2 then limit / 2 else if limit == 1 then 1 else 0
  }

  /** The recent messages, then as much knowledge as the limit leaves room for. */
  function ContextHits(recent: seq<MessageRow>, k: Knowledge, query: string, limit: int): seq<Hit> {
    var recentHits := RecentHits(Take(recent, RecentTarget(limit)));
    recentHits + (if Blank(query) then [] else KnowledgeHits(k, limit - |recentHits|))
  }

  /** The two lists one after the other, before the final sort. */
  method CollectHits(recent: seq<MessageRow>, k: Knowledge, query: string, limit: int) returns (hits: seq<Hit>)
    requires Ordered(k) && limit > 0
    ensures hits == ContextHits(recent, k, query, limit)
    ensures IsContext(hits, recent, k, query, limit)
  {
    ContextShare(recent, k, query, limit);
    var normalizedQuery := Strip(query);
    var recentHits := RetrieveRecentMessageHits(recent, RecentTarget(limit));
    var remaining := if limit - |recentHits| > 0 then limit - |recentHits| else 0;
    if remaining == 0 || normalizedQuery == "" {
      NoRoom(k, limit - |recentHits|);
      Empty(recentHits);
      return recentHits;
    }
    var knowledgeHits := RetrieveKnowledgeHits(k, remaining);
    return recentHits + knowledgeHits;
  }

  /** What knowledge a query finds for the places that are left: the group's hits, then
      the common ones. Each scope is asked for at least four rows. */
  function Told(k: Knowledge, query: string, room: nat): seq<Hit> {
    if Strip(query) == "" || !k.available then []
    else
      var asked: nat := if room > 4 then room else 4;
      Take(HitsOf(Take(k.group, asked), Group) + HitsOf(Take(k.common, asked), Common), room)
  }

  /** The context is the hits of the first messages of their share, and then what
      knowledge the remaining places hold. */
  ghost predicate IsContext(hits: seq<Hit>, recent: seq<MessageRow>, k: Knowledge, query: string, limit: int) {
    var messages := RecentHits(Take(recent, Share(limit)));
    |messages| <= limit && hits == messages + Told(k, query, limit - |messages|)
  }

  lemma KnowledgeIsTold(k: Knowledge, query: string, room: nat)
    ensures (if Blank(query) then [] else KnowledgeHits(k, room)) == Told(k, query, room)
  {
  }

  lemma ContextShare(recent: seq<MessageRow>, k: Knowledge, query: string, limit: int)
    requires limit > 0
    ensures IsContext(ContextHits(recent, k, query, limit), recent, k, query, limit)
  {
    TargetIsShare(limit);
    RecentFits(recent, limit);
    KnowledgeIsTold(k, query, limit - |RecentHits(Take(recent, Share(limit)))|);
  }

  function MessageHits(rows: seq<MessageRow>): seq<Hit> {
    seq(|rows|, i requires 0 <= i < |rows| => MessageHit(rows[i], i))
  }

  function ChunkHits(rows: seq<ChunkRow>, scope: Scope): seq<Hit> {
    seq(|rows|, i requires 0 <= i < |rows| => ChunkHit(rows[i], scope))
  }

  lemma MessageHitsSnoc(rows: seq<MessageRow>)
    requires rows != []
    ensures var n := |rows| - 1;
            MessageHits(rows) == MessageHits(rows[..n]) + [MessageHit(rows[n], n)]
  {
  }

  lemma ChunkHitsSnoc(rows: seq<ChunkRow>, scope: Scope)
    requires rows != []
    ensures var n := |rows| - 1;
            ChunkHits(rows, scope) == ChunkHits(rows[..n], scope) + [ChunkHit(rows[n], scope)]
  {
  }

  lemma {:induction false} AllMessagesVisible(rows: seq<MessageRow>)
    requires forall i :: 0 <= i < |rows| ==> !Blank(rows[i].content)
    ensures RecentHits(rows) == MessageHits(rows)
  {
    if rows != [] {
      AllMessagesVisible(rows[..|rows| - 1]);
      MessageHitsSnoc(rows);
    }
  }

  lemma {:induction false} AllChunksVisible(rows: seq<ChunkRow>, scope: Scope)
    requires forall i :: 0 <= i < |rows| ==> !Blank(rows[i].content)
    ensures HitsOf(rows, scope) == ChunkHits(rows, scope)
  {
    if rows != [] {
      AllChunksVisible(rows[..|rows| - 1], scope);
      ChunkHitsSnoc(rows, scope);
    }
  }

  lemma TakeChunkHits(rows: seq<ChunkRow>, scope: Scope, n: nat)
    ensures ChunkHits(Take(rows, n), scope) == Take(ChunkHits(rows, scope), n)
  {
  }

  lemma TakeMessageHits(rows: seq<MessageRow>, n: nat)
    ensures MessageHits(Take(rows, n)) == Take(MessageHits(rows), n)
  {
  }

  lemma TakeOfTaken(a: seq<Hit>, b: seq<Hit>, each: nat, n: nat)
    requires each >= n
    ensures Take(Take(a, each) + Take(b, each), n) == Take(a + b, n)
  {
  }

  /** What a knowledge query finds without blank rows. */
  lemma KnowledgeOfVisibleRows(k: Knowledge, room: nat)
    requires forall i :: 0 <= i < |k.group| ==> !Blank(k.group[i].content)
    requires forall i :: 0 <= i < |k.common| ==> !Blank(k.common[i].content)
    requires k.available
    ensures KnowledgeHits(k, room) == Take(ChunkHits(k.group, Group) + ChunkHits(k.common, Common), room)
  {
    AllChunksVisible(Take(k.group, PerScope(room)), Group);
    AllChunksVisible(Take(k.common, PerScope(room)), Common);
    TakeChunkHits(k.group, Group, PerScope(room));
    TakeChunkHits(k.common, Common, PerScope(room));
    TakeOfTaken(ChunkHits(k.group, Group), ChunkHits(k.common, Common), PerScope(room), room);
  }

  lemma MessagesOfVisibleRows(recent: seq<MessageRow>, n: nat)
    requires forall i :: 0 <= i < |recent| ==> !Blank(recent[i].content)
    ensures RecentHits(Take(recent, n)) == Take(MessageHits(recent), n)
    ensures |RecentHits(Take(recent, n))| == Min(|recent|, n)
  {
    AllMessagesVisible(Take(recent, n));
    TakeMessageHits(recent, n);
  }

  lemma TargetIsShare(limit: int)
    requires limit > 0
    ensures RecentTarget(limit) == Share(limit) <= limit
  {
  }

  /** Without blank rows: the first messages of the share, then the group's and the
      common chunks, as far as the limit and the scopes reach. */
  lemma ContextOfVisibleRows(
      recent: seq<MessageRow>, k: Knowledge, query: string, limit: int, shown: nat, chunks: seq<Hit>)
    requires limit > 0 && k.available && Strip(query) != ""
    requires forall i :: 0 <= i < |recent| ==> !Blank(recent[i].content)
    requires forall i :: 0 <= i < |k.group| ==> !Blank(k.group[i].content)
    requires forall i :: 0 <= i < |k.common| ==> !Blank(k.common[i].content)
    requires shown == Min(|recent|, Share(limit))
    requires chunks == ChunkHits(k.group, Group) + ChunkHits(k.common, Common)
    ensures shown <= limit
    ensures ContextHits(recent, k, query, limit)
         == Take(MessageHits(recent), Share(limit)) + Take(chunks, limit - shown)
  {
    TargetIsShare(limit);
    MessagesOfVisibleRows(recent, Share(limit));
    KnowledgeOfVisibleRows(k, limit - shown);
  }

  /** For every limit the result is the recent messages of their share followed by the
      knowledge hits: the final sort moves nothing, the final cut drops nothing, and
      the limit is kept. */
  method RetrieveContext(recent: seq<MessageRow>, k: Knowledge, query: string, limit: int) returns (hits: seq<Hit>)
    requires Ordered(k)
    ensures hits == if limit <= 0 then [] else ContextHits(recent, k, query, limit)
    ensures |hits| <= if limit > 0 then limit else 0
    ensures limit > 0 ==> IsContext(hits, recent, k, query, limit)
  {
    if limit <= 0 {
      return [];
    }
    hits := CollectHits(recent, k, query, limit);
    ContextIsUnmoved(recent, k, query, limit);
    ContextShare(recent, k, query, limit);
    hits := Sort(hits);
    return Take(hits, limit);
  }

  lemma NoRoom(k: Knowledge, limit: int)
    ensures limit <= 0 ==> KnowledgeHits(k, limit) == []
  {
  }

  lemma ContextIsUnmoved(recent: seq<MessageRow>, k: Knowledge, query: string, limit: int)
    requires Ordered(k) && limit > 0
    ensures Take(Sort(ContextHits(recent, k, query, limit)), limit) == ContextHits(recent, k, query, limit)
    ensures |ContextHits(recent, k, query, limit)| <= limit
  {
    ContextIsFinal(recent, k, query, limit);
    UnmovedByCut(ContextHits(recent, k, query, limit), limit);
  }

  lemma RecentFits(recent: seq<MessageRow>, limit: int)
    requires limit > 0
    ensures |RecentHits(Take(recent, RecentTarget(limit)))| <= limit
  {
    RecentIsSorted(Take(recent, RecentTarget(limit)));
  }

  lemma ContextIsFinal(recent: seq<MessageRow>, k: Knowledge, query: string, limit: int)
    requires Ordered(k) && limit > 0
    ensures SortedHits(ContextHits(recent, k, query, limit)) && |ContextHits(recent, k, query, limit)| <= limit
  {
    var rows := Take(recent, RecentTarget(limit));
    var remaining := limit - |RecentHits(rows)|;
    var knowledgeHits := if Blank(query) then [] else KnowledgeHits(k, remaining);
    assert ContextHits(recent, k, query, limit) == RecentHits(rows) + knowledgeHits;
    assert |knowledgeHits| <= remaining by {
      RecentFits(recent, limit);
    }
    assert SortedHits(RecentHits(rows) + knowledgeHits) by {
      ContextIsSorted(rows, k, remaining, knowledgeHits);
    }
  }

  lemma UnmovedByCut(hits: seq<Hit>, limit: int)
    requires SortedHits(hits) && 0 < limit && |hits| <= limit
    ensures Take(Sort(hits), limit) == hits
  {
    SortedStays(hits);
  }

  lemma ContextIsSorted(recent: seq<MessageRow>, k: Knowledge, remaining: int, knowledgeHits: seq<Hit>)
    requires Ordered(k)
    requires knowledgeHits == [] || knowledgeHits == KnowledgeHits(k, remaining)
    ensures |RecentHits(recent)| <= |recent|
    ensures SortedHits(RecentHits(recent) + knowledgeHits)
  {
    RecentIsSorted(recent);
    KnowledgeIsSorted(k, remaining);
    ConversationFirst(RecentHits(recent), knowledgeHits);
  }

  lemma ConversationFirst(recent: seq<Hit>, knowledge: seq<Hit>)
    requires SortedHits(recent) && forall i :: 0 <= i < |recent| ==> recent[i].scope == Conversation
    requires SortedHits(knowledge) && forall i :: 0 <= i < |knowledge| ==> knowledge[i].scope != Conversation
    ensures SortedHits(recent + knowledge)
  {
  }

  lemma PrefixOfSorted(hits: seq<Hit>, n: int)
    requires SortedHits(hits)
    ensures SortedHits(Take(hits, n))
    ensures forall i :: 0 <= i < |Take(hits, n)| ==> Take(hits, n)[i] in hits
  {
  }

  lemma KnowledgeIsSorted(k: Knowledge, limit: int)
    requires Ordered(k)
    ensures var hits := Take(Fetched(k.group, Group, limit) + Fetched(k.common, Common, limit), limit);
            SortedHits(hits) && forall i :: 0 <= i < |hits| ==> hits[i].scope != Conversation
  {
    var group, common := Take(k.group, PerScope(limit)), Take(k.common, PerScope(limit));
    MergedIsSorted(group, common);
    HitsComeFromRows(group, Group);
    HitsComeFromRows(common, Common);
    PrefixOfSorted(Fetched(k.group, Group, limit) + Fetched(k.common, Common, limit), limit);
  }
}
