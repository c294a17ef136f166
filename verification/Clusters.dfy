/** The daily report's work sessions: commits in order of time, cut wherever the
    gap between two neighbours exceeds a threshold. Times are in seconds. */
module Clusters {
  import opened Numbers
  import opened Sequences
  import opened Text

  function First(s: seq<int>): int
    requires s != []
  {
    s[0]
  }

  function Last(s: seq<int>): int
    requires s != []
  {
    s[|s| - 1]
  }

  predicate NonEmpty(clusters: seq<seq<int>>) {
    forall k :: 0 <= k < |clusters| ==> clusters[k] != []
  }

  /** The clusters that the loop makes of the commits seen so far. */
  function ClustersOf(commits: seq<int>, gap: int): (clusters: seq<seq<int>>)
    ensures NonEmpty(clusters)
    ensures commits != [] ==> clusters != [] && Last(clusters[|clusters| - 1]) == Last(commits)
  {
    if |commits| <= 1 then (if commits == [] then [] else [commits])
    else
      var c, before := Last(commits), commits[..|commits| - 1];
      var clusters := ClustersOf(before, gap);
      var k := |clusters| - 1;
      if c - Last(before) <= gap then clusters[..k] + [clusters[k] + [c]] else clusters + [[c]]
  }

  function Credit(cluster: seq<int>, minSession: int, minCommit: int): int
    requires cluster != []
  {
    var raw := Last(cluster) - First(cluster);
    if |cluster| <= 1 then minCommit else if raw >= minSession then raw else minSession
  }

  function Credits(clusters: seq<seq<int>>, minSession: int, minCommit: int): seq<int>
    requires NonEmpty(clusters)
  {
    seq(|clusters|, k requires 0 <= k < |clusters| => Credit(clusters[k], minSession, minCommit))
  }

  function Overall(commits: seq<int>, minSession: int, minCommit: int): int {
    if commits == [] then 0
    else Max(Last(commits) - First(commits), if |commits| > 1 then minSession else minCommit)
  }

  /** One more commit joins the current cluster or starts the next one. */
  lemma NextCommit(clusters: seq<seq<int>>, cur: seq<int>, before: seq<int>, c: int, gap: int)
    requires before != [] && cur != [] && clusters + [cur] == ClustersOf(before, gap)
    ensures ClustersOf(before + [c], gap)
         == if c - Last(cur) <= gap then clusters + [cur + [c]] else clusters + [cur] + [[c]]
  {
    SnocFront(before, c);
    SnocFront(clusters, cur);
  }

  method CreditClusters(clusters: seq<seq<int>>, minSession: int, minCommit: int) returns (spans: seq<int>)
    requires NonEmpty(clusters)
    ensures spans == Credits(clusters, minSession, minCommit)
  {
    spans := [];
    for k := 0 to |clusters|
      invariant spans == Credits(clusters, minSession, minCommit)[..k]
    {
      var cluster := clusters[k];
      var raw := cluster[|cluster| - 1] - cluster[0];
      var duration;
      if |cluster| <= 1 {
        duration := minCommit;
      } else {
        duration := Max(raw, minSession);
      }
      spans := spans + [duration];
    }
  }

  /** The loop that cuts the commits into clusters. */
  method CutCommits(commits: seq<int>, gap: int) returns (clusters: seq<seq<int>>)
    requires commits != []
    ensures clusters == ClustersOf(commits, gap)
  {
    clusters := [];
    var cur := [commits[0]];
    assert commits[..1] == cur;
    for i := 1 to |commits|
      invariant cur != []
      invariant clusters + [cur] == ClustersOf(commits[..i], gap)
    {
      TakeSnoc(commits, i);
      NextCommit(clusters, cur, commits[..i], commits[i], gap);
      if commits[i] - cur[|cur| - 1] <= gap {
        cur := cur + [commits[i]];
      } else {
        clusters := clusters + [cur];
        cur := [commits[i]];
      }
    }
    TakeAll(commits);
    return clusters + [cur];
  }

  /** `cluster_durations`, in seconds. */
  method ClusterDurations(commits: seq<int>, gapMinutes: int, minSessionMinutes: int, minCommitMinutes: int)
    returns (spans: seq<int>, overall: int)
    ensures spans == Credits(ClustersOf(commits, 60 * gapMinutes), 60 * minSessionMinutes, 60 * minCommitMinutes)
    ensures overall == Overall(commits, 60 * minSessionMinutes, 60 * minCommitMinutes)
    ensures |spans| == |ClustersOf(commits, 60 * gapMinutes)|
    ensures forall k :: 0 <= k < |spans| ==>
              var cluster := ClustersOf(commits, 60 * gapMinutes)[k];
              && cluster != []
              && spans[k] == if |cluster| == 1 then 60 * minCommitMinutes
                             else Max(cluster[|cluster| - 1] - cluster[0], 60 * minSessionMinutes)
    ensures commits == [] ==> overall == 0
    ensures |commits| == 1 ==> overall == Max(0, 60 * minCommitMinutes)
    ensures |commits| > 1 ==> overall == Max(commits[|commits| - 1] - commits[0], 60 * minSessionMinutes)
  {
    if commits == [] {
      return [], 0;
    }
    var clusters := CutCommits(commits, 60 * gapMinutes);
    var minSession, minCommit := 60 * minSessionMinutes, 60 * minCommitMinutes;
    spans := CreditClusters(clusters, minSession, minCommit);
    overall := Max(Last(commits) - First(commits), if |commits| > 1 then minSession else minCommit);
  }

  // -------------------------------------------------------- the partition

  /** No gap inside a cluster exceeds the threshold. */
  ghost predicate Dense(cluster: seq<int>, gap: int) {
    forall i, j :: 0 <= i && j == i + 1 < |cluster| ==> cluster[j] - cluster[i] <= gap
  }

  /** Every gap between two clusters exceeds it. */
  ghost predicate Apart(clusters: seq<seq<int>>, gap: int)
    requires NonEmpty(clusters)
  {
    forall k, l :: 0 <= k && l == k + 1 < |clusters| ==> First(clusters[l]) - Last(clusters[k]) > gap
  }

  /** The clusters cut the commits, in order, exactly at the gaps that exceed the
      threshold. */
  ghost predicate IsClustering(clusters: seq<seq<int>>, commits: seq<int>, gap: int) {
    && NonEmpty(clusters) && Flatten(clusters) == commits
    && (forall k :: 0 <= k < |clusters| ==> Dense(clusters[k], gap))
    && Apart(clusters, gap)
  }

  lemma FlattenSnoc(clusters: seq<seq<int>>, last: seq<int>)
    ensures Flatten(clusters + [last]) == Flatten(clusters) + last
  {
    FlattenConcat(clusters, [last]);
    FlattenSingle(last);
  }

  lemma {:induction false} ClustersOfIsClustering(commits: seq<int>, gap: int)
    ensures IsClustering(ClustersOf(commits, gap), commits, gap)
    decreases |commits|
  {
    if |commits| == 1 {
      FlattenSingle(commits);
    } else if |commits| > 1 {
      var c, before := Last(commits), commits[..|commits| - 1];
      var clusters := ClustersOf(before, gap);
      ClustersOfIsClustering(before, gap);
      if c - Last(before) <= gap {
        GrowLast(clusters, before, c, gap);
      } else {
        AddCluster(clusters, before, c, gap);
      }
      Unsnoc(commits);
    }
  }

  lemma GrowLast(clusters: seq<seq<int>>, before: seq<int>, c: int, gap: int)
    requires IsClustering(clusters, before, gap) && clusters != []
    requires c - Last(clusters[|clusters| - 1]) <= gap
    ensures var k := |clusters| - 1;
            IsClustering(clusters[..k] + [clusters[k] + [c]], before + [c], gap)
  {
    var k := |clusters| - 1;
    var front, last := clusters[..k], clusters[k];
    var grown := front + [last + [c]];
    assert Flatten(grown) == before + [c] by {
      Unsnoc(clusters);
      FlattenSnoc(front, last);
      FlattenSnoc(front, last + [c]);
      Assoc(Flatten(front), last, [c]);
    }
    assert Apart(grown, gap);
  }

  lemma AddCluster(clusters: seq<seq<int>>, before: seq<int>, c: int, gap: int)
    requires IsClustering(clusters, before, gap) && clusters != []
    requires c - Last(clusters[|clusters| - 1]) > gap
    ensures IsClustering(clusters + [[c]], before + [c], gap)
  {
    FlattenSnoc(clusters, [c]);
    assert Apart(clusters + [[c]], gap);
  }

  lemma {:induction false} FlattenLast(clusters: seq<seq<int>>)
    requires NonEmpty(clusters) && clusters != []
    ensures Flatten(clusters) != []
    ensures Last(Flatten(clusters)) == Last(clusters[|clusters| - 1])
    ensures First(Flatten(clusters)) == First(clusters[0])
  {
    var k := |clusters| - 1;
    Unsnoc(clusters);
    FlattenSnoc(clusters[..k], clusters[k]);
    if k > 0 {
      FlattenLast(clusters[..k]);
    } else {
      assert Flatten(clusters[..k]) == [];
    }
  }

  /** A clustering without its last commit is a clustering of the rest. */
  lemma ShrinkLast(clusters: seq<seq<int>>, commits: seq<int>, gap: int)
    requires IsClustering(clusters, commits, gap) && clusters != []
    ensures commits != [] && Last(commits) == Last(clusters[|clusters| - 1])
    ensures var k, before := |clusters| - 1, commits[..|commits| - 1];
            var last := clusters[k];
            if |last| == 1 then IsClustering(clusters[..k], before, gap)
            else IsClustering(clusters[..k] + [last[..|last| - 1]], before, gap)
  {
    var k := |clusters| - 1;
    var front, last := clusters[..k], clusters[k];
    var shorter := last[..|last| - 1];
    FlattenLast(clusters);
    Unsnoc(clusters);
    FlattenSnoc(front, last);
    assert commits[..|commits| - 1] == Flatten(front) + shorter;
    if |last| == 1 {
      Empty(Flatten(front));
      assert Apart(front, gap);
    } else {
      FlattenSnoc(front, shorter);
      assert Apart(front + [shorter], gap);
    }
  }

  lemma LastClusterOfOne(clusters: seq<seq<int>>, commits: seq<int>, gap: int)
    requires IsClustering(clusters, commits, gap) && clusters != [] && commits != []
    requires |clusters[|clusters| - 1]| == 1 && Last(commits) == Last(clusters[|clusters| - 1])
    requires clusters[..|clusters| - 1] == ClustersOf(commits[..|commits| - 1], gap)
    ensures clusters == ClustersOf(commits, gap)
  {
    var k, before := |clusters| - 1, commits[..|commits| - 1];
    var last := clusters[k];
    assert last == [Last(commits)];
    Unsnoc(clusters);
    if k > 0 {
      assert Last(before) == Last(clusters[k - 1]) by {
        assert before != [];
      }
      assert First(clusters[k]) - Last(clusters[k - 1]) > gap;
    } else {
      assert commits == last by {
        FlattenSingle(last);
        assert clusters == [last];
      }
    }
  }

  lemma LastClusterOfMore(clusters: seq<seq<int>>, commits: seq<int>, gap: int)
    requires IsClustering(clusters, commits, gap) && clusters != [] && commits != []
    requires |clusters[|clusters| - 1]| > 1 && Last(commits) == Last(clusters[|clusters| - 1])
    requires var k := |clusters| - 1;
             clusters[..k] + [clusters[k][..|clusters[k]| - 1]] == ClustersOf(commits[..|commits| - 1], gap)
    ensures clusters == ClustersOf(commits, gap)
  {
    var k, before := |clusters| - 1, commits[..|commits| - 1];
    var last := clusters[k];
    var shorter := last[..|last| - 1];
    assert before != [] by {
      assert ClustersOf(before, gap) != [];
    }
    assert Last(before) == Last(shorter);
    assert last[|last| - 1] - last[|last| - 2] <= gap;
    SnocFront(clusters[..k], shorter);
    Unsnoc(last);
    Unsnoc(clusters);
  }

  lemma {:induction false} ClusteringIsFound(clusters: seq<seq<int>>, commits: seq<int>, gap: int)
    requires IsClustering(clusters, commits, gap)
    ensures clusters == ClustersOf(commits, gap)
    decreases |commits|
  {
    if clusters != [] {
      ShrinkLast(clusters, commits, gap);
      var k, before := |clusters| - 1, commits[..|commits| - 1];
      var last := clusters[k];
      if |last| == 1 {
        ClusteringIsFound(clusters[..k], before, gap);
        LastClusterOfOne(clusters, commits, gap);
      } else {
        ClusteringIsFound(clusters[..k] + [last[..|last| - 1]], before, gap);
        LastClusterOfMore(clusters, commits, gap);
      }
    }
  }

  /** There is exactly one such partition, and the loop finds it. */
  lemma ClusteringIsUnique(clusters: seq<seq<int>>, commits: seq<int>, gap: int)
    ensures IsClustering(clusters, commits, gap) <==> clusters == ClustersOf(commits, gap)
  {
    ClustersOfIsClustering(commits, gap);
    if IsClustering(clusters, commits, gap) {
      ClusteringIsFound(clusters, commits, gap);
    }
  }

  // ------------------------------------------------------- conservation

  function Sum(xs: seq<int>): int {
    if xs == [] then 0 else Sum(xs[..|xs| - 1]) + xs[|xs| - 1]
  }

  /** The gaps between neighbouring clusters. */
  function Gaps(clusters: seq<seq<int>>): int
    requires NonEmpty(clusters)
  {
    if |clusters| <= 1 then 0
    else
      var k := |clusters| - 1;
      Gaps(clusters[..k]) + First(clusters[k]) - Last(clusters[k - 1])
  }

  function RawSpans(clusters: seq<seq<int>>): int
    requires NonEmpty(clusters)
  {
    if clusters == [] then 0
    else
      var k := |clusters| - 1;
      RawSpans(clusters[..k]) + Last(clusters[k]) - First(clusters[k])
  }

  /** The minimum of each cluster's kind; a negative minimum counts as 0. */
  function Minima(clusters: seq<seq<int>>, minSession: int, minCommit: int): int {
    if clusters == [] then 0
    else
      var k := |clusters| - 1;
      Minima(clusters[..k], minSession, minCommit) + Max(0, if |clusters[k]| <= 1 then minCommit else minSession)
  }

  /** Raw spans and gaps make up the time from the first commit to the last. */
  lemma {:induction false} SpansAndGapsAddUp(clusters: seq<seq<int>>)
    requires NonEmpty(clusters) && clusters != []
    ensures RawSpans(clusters) + Gaps(clusters) == Last(clusters[|clusters| - 1]) - First(clusters[0])
  {
    var k := |clusters| - 1;
    if k > 0 {
      SpansAndGapsAddUp(clusters[..k]);
    } else {
      assert RawSpans(clusters[..k]) == 0;
    }
  }

  lemma {:induction false} GapsExceed(clusters: seq<seq<int>>, gap: int)
    requires NonEmpty(clusters) && clusters != [] && Apart(clusters, gap)
    ensures Gaps(clusters) >= (|clusters| - 1) * (gap + 1)
  {
    var k := |clusters| - 1;
    if k > 0 {
      GapsExceed(clusters[..k], gap);
      assert First(clusters[k]) - Last(clusters[k - 1]) >= gap + 1;
      assert k * (gap + 1) == (k - 1) * (gap + 1) + (gap + 1);
    }
  }

  ghost predicate Ordered(clusters: seq<seq<int>>)
    requires NonEmpty(clusters)
  {
    forall k :: 0 <= k < |clusters| ==> First(clusters[k]) <= Last(clusters[k])
  }

  lemma {:induction false} CreditsBounds(clusters: seq<seq<int>>, minSession: int, minCommit: int)
    requires NonEmpty(clusters) && Ordered(clusters)
    ensures Sum(Credits(clusters, minSession, minCommit))
         <= RawSpans(clusters) + Minima(clusters, minSession, minCommit)
    ensures minCommit >= 0 ==> RawSpans(clusters) <= Sum(Credits(clusters, minSession, minCommit))
  {
    if clusters != [] {
      var k := |clusters| - 1;
      CreditsBounds(clusters[..k], minSession, minCommit);
      var credits := Credits(clusters, minSession, minCommit);
      assert credits[..k] == Credits(clusters[..k], minSession, minCommit);
    }
  }

  lemma OrderedSnoc(clusters: seq<seq<int>>, last: seq<int>)
    requires NonEmpty(clusters) && Ordered(clusters) && last != [] && First(last) <= Last(last)
    ensures NonEmpty(clusters + [last]) && Ordered(clusters + [last])
  {
  }

  lemma SortedFront(commits: seq<int>)
    requires Sorted(commits) && |commits| > 1
    ensures Sorted(commits[..|commits| - 1]) && Last(commits[..|commits| - 1]) <= Last(commits)
  {
  }

  lemma {:induction false} ClustersOfSorted(commits: seq<int>, gap: int)
    requires Sorted(commits)
    ensures Ordered(ClustersOf(commits, gap))
    ensures commits != [] ==> First(ClustersOf(commits, gap)[0]) == First(commits)
    decreases |commits|
  {
    if |commits| > 1 {
      var c, before := Last(commits), commits[..|commits| - 1];
      SortedFront(commits);
      ClustersOfSorted(before, gap);
      var clusters := ClustersOf(before, gap);
      var k := |clusters| - 1;
      OrderedSnoc(clusters[..k], clusters[k] + [c]);
      OrderedSnoc(clusters, [c]);
    }
  }

  /** For commits in order of time, the credited time and the gaps left out
      together cover the whole span, and exceed it by at most one minimum per
      cluster; every gap left out exceeds the threshold. */
  lemma CreditedTime(commits: seq<int>, gap: int, minSession: int, minCommit: int)
    requires commits != [] && Sorted(commits)
    ensures var clusters := ClustersOf(commits, gap);
            var credited, span := Sum(Credits(clusters, minSession, minCommit)), Last(commits) - First(commits);
            && RawSpans(clusters) + Gaps(clusters) == span
            && credited + Gaps(clusters) <= span + Minima(clusters, minSession, minCommit)
            && (minCommit >= 0 ==> span <= credited + Gaps(clusters))
            && Gaps(clusters) >= (|clusters| - 1) * (gap + 1)
            && (|clusters| == 1 && minCommit >= 0 ==> credited == Overall(commits, minSession, minCommit))
  {
    var clusters := ClustersOf(commits, gap);
    ClustersOfIsClustering(commits, gap);
    ClustersOfSorted(commits, gap);
    SpansAndGapsAddUp(clusters);
    GapsExceed(clusters, gap);
    CreditsBounds(clusters, minSession, minCommit);
    if |clusters| == 1 && minCommit >= 0 {
      OneCluster(clusters, commits, minSession, minCommit);
    }
  }

  lemma OneCluster(clusters: seq<seq<int>>, commits: seq<int>, minSession: int, minCommit: int)
    requires |clusters| == 1 && clusters[0] != [] && Flatten(clusters) == commits && minCommit >= 0
    ensures Sum(Credits(clusters, minSession, minCommit)) == Overall(commits, minSession, minCommit)
  {
    FlattenSingle(clusters[0]);
    assert clusters == [clusters[0]];
    var credits := Credits(clusters, minSession, minCommit);
    assert credits[..0] == [];
  }
}
