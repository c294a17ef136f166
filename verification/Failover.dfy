/** The failover plan: the distinct models of a path, capped by a hop count. */
module Failover {
  import opened Numbers
  import opened Options
  import opened Sequences
  import opened Text

  const DEFAULT_MODEL: string := "local-placeholder-model"

  /** `s[:n]`, where a negative end counts from the back. */
  function Slice<T>(s: seq<T>, n: int): (r: seq<T>)
    ensures r <= s
  {
    if n >= 0 then (if n < |s| then s[..n] else s)
    else if |s| + n > 0 then s[..|s| + n] else []
  }

  /** The models in order of their first mention, blanks left out. */
  function Distinct(path: seq<string>): seq<string> {
    if path == [] then []
    else
      var front, model := Distinct(path[..|path| - 1]), Strip(path[|path| - 1]);
      if model != "" && model !in front then front + [model] else front
  }

  /** A missing or an empty path falls back to the default model. */
  function PathOrDefault(path: Option<seq<string>>): seq<string> {
    if path.None? || path.value == [] then [DEFAULT_MODEL] else path.value
  }

  function Plan(path: Option<seq<string>>, maxHops: int): seq<string> {
    var models := Distinct(PathOrDefault(path));
    Slice(if models == [] then [DEFAULT_MODEL] else models, maxHops + 1)
  }

  method BuildFailoverPlan(path: Option<seq<string>>, maxHops: int) returns (models: seq<string>)
    ensures models == Plan(path, maxHops)
  {
    var uniqueModels: seq<string> := [];
    var source := PathOrDefault(path);
    for i := 0 to |source|
      invariant uniqueModels == Distinct(source[..i])
    {
      SnocFront(source[..i], source[i]);
      assert source[..i + 1] == source[..i] + [source[i]];
      var normalized := Strip(source[i]);
      if normalized != "" && normalized !in uniqueModels {
        uniqueModels := uniqueModels + [normalized];
      }
    }
    assert source[..|source|] == source;
    if uniqueModels == [] {
      uniqueModels := uniqueModels + [DEFAULT_MODEL];
    }
    var maxAttempts := maxHops + 1;
    return Slice(uniqueModels, maxAttempts);
  }

  ghost predicate NoDuplicates(models: seq<string>) {
    forall i, j :: 0 <= i < j < |models| ==> models[i] != models[j]
  }

  /** Position of the first mention of a model in a path. */
  function FirstMention(path: seq<string>, model: string): nat {
    if path == [] || Strip(path[0]) == model then 0 else 1 + FirstMention(path[1..], model)
  }

  lemma {:induction false} FirstMentionSnoc(path: seq<string>, last: string, model: string)
    ensures FirstMention(path, model) <= |path|
    ensures FirstMention(path + [last], model)
         == if FirstMention(path, model) < |path| then FirstMention(path, model)
            else if Strip(last) == model then |path| else |path| + 1
  {
    if path == [] {
      Empty([last]);
      assert [last][1..] == [];
    } else {
      FirstMentionSnoc(path[1..], last, model);
      ConcatTail(path, [last]);
    }
  }

  /** The distinct models are exactly the stripped non-blank ones, without
      duplicates, and ordered by first mention. */
  lemma {:induction false} DistinctLaws(path: seq<string>)
    ensures NoDuplicates(Distinct(path))
    ensures forall m :: m in Distinct(path) <==> m != "" && FirstMention(path, m) < |path|
    ensures forall i, j :: 0 <= i < j < |Distinct(path)| ==>
              FirstMention(path, Distinct(path)[i]) < FirstMention(path, Distinct(path)[j])
  {
    if path != [] {
      var front, last := path[..|path| - 1], path[|path| - 1];
      DistinctLaws(front);
      Unsnoc(path);
      forall m: string
        ensures FirstMention(path, m) == if FirstMention(front, m) < |front| then FirstMention(front, m)
                                         else if Strip(last) == m then |front| else |front| + 1
      {
        FirstMentionSnoc(front, last, m);
      }
      var models := Distinct(front);
      forall i | 0 <= i < |models|
        ensures FirstMention(path, models[i]) < |front|
      {
        assert models[i] in models;
      }
    }
  }

  /** The plan is a prefix of the distinct models of the path, one longer than the hop
      count at most; a path without a model gives the default model. A negative end of
      the slice counts from the back. */
  lemma PlanLaws(path: Option<seq<string>>, maxHops: int)
    ensures var plan, models := Plan(path, maxHops), if path.None? then [] else Distinct(path.value);
            var all := if models != [] then models else ["local-placeholder-model"];
            && NoDuplicates(plan) && plan <= all
            && |plan| == if maxHops >= -1 then Min(|all|, maxHops + 1) else Max(0, |all| + maxHops + 1)
  {
    var models := if path.None? then [] else Distinct(path.value);
    var all := if models != [] then models else [DEFAULT_MODEL];
    PlanIsSlice(path, maxHops, models);
    if path.Some? {
      DistinctLaws(path.value);
    }
    SliceLength(all, maxHops + 1);
  }

  lemma PlanIsSlice(path: Option<seq<string>>, maxHops: int, models: seq<string>)
    requires models == if path.None? then [] else Distinct(path.value)
    ensures Plan(path, maxHops) == Slice(if models != [] then models else [DEFAULT_MODEL], maxHops + 1)
  {
    DefaultIsStripped();
    OneModel(DEFAULT_MODEL);
  }

  lemma SliceLength(s: seq<string>, n: int)
    ensures |Slice(s, n)| == if n >= 0 then Min(|s|, n) else Max(0, |s| + n)
  {
  }

  lemma DefaultIsStripped()
    ensures Strip(DEFAULT_MODEL) == DEFAULT_MODEL != ""
  {
    StripStripped(DEFAULT_MODEL);
  }

  /** A model of its own is its own path. */
  lemma OneModel(model: string)
    requires Strip(model) == model != ""
    ensures Distinct([model]) == [model]
  {
    assert [model][..0] == [];
  }
}
