/** Preparing a Digest's candidates (internal/digestartifact/service.go): URL-unique, ordered by
    score, split at the floor, and picked greedily under a repeat penalty. */
module DigestSelection {
  import opened Counting
  import opened Sorting

  datatype Article = Article(
    id: string, canonicalURL: string, title: string, summary: string, source: string,
    score: int, topics: seq<string>)

  datatype Candidate = Candidate(article: Article, exploration: bool)

  datatype Prepared = Prepared(items: seq<Candidate>, total: nat, floorPass: nat)

  /** Where the search for the best value starts. */
  const LOWEST := -0x4000_0000

  // ----- The penalised value, declaratively -----

  function SourceCount(picked: seq<Article>, source: string): nat {
    if picked == [] then 0 else
      SourceCount(picked[..|picked| - 1], source) + if picked[|picked| - 1].source == source then 1 else 0
  }

  function Occurrences(topics: seq<string>, topic: string): nat {
    if topics == [] then 0 else
      Occurrences(topics[..|topics| - 1], topic) + if topics[|topics| - 1] == topic then 1 else 0
  }

  function TopicCount(picked: seq<Article>, topic: string): nat {
    if picked == [] then 0 else
      TopicCount(picked[..|picked| - 1], topic) + Occurrences(picked[|picked| - 1].topics, topic)
  }

  function TopicPenalty(picked: seq<Article>, topics: seq<string>): nat {
    if topics == [] then 0 else
      TopicPenalty(picked, topics[..|topics| - 1]) + TopicCount(picked, topics[|topics| - 1]) * 5
  }

  /** What a pick is worth after `picked`. */
  function Value(picked: seq<Article>, a: Article): int {
    a.score * 100 - SourceCount(picked, a.source) * 10 - TopicPenalty(picked, a.topics)
  }

  // ----- The value in one formula -----

  function Places(topics: seq<string>, topic: string): set<nat> {
    set j | 0 <= j < |topics| && topics[j] == topic
  }

  function SameSource(picked: seq<Article>, source: string): set<nat> {
    set i | 0 <= i < |picked| && picked[i].source == source
  }

  /** Where the picked Articles have `topic`: pick `i` at its place `j`. */
  function SameTopic(picked: seq<Article>, topic: string): set<(nat, nat)> {
    set i, j | 0 <= i < |picked| && 0 <= j < |picked[i].topics| && picked[i].topics[j] == topic :: (i, j)
  }

  /** Where they share one of `topics`: topic `k` of these. */
  function Shared(picked: seq<Article>, topics: seq<string>): set<(nat, (nat, nat))> {
    set k, at | 0 <= k < |topics| && at in SameTopic(picked, topics[k]) :: (k, at)
  }

  lemma {:induction false} OccurrencesAre(topics: seq<string>, topic: string)
    ensures Occurrences(topics, topic) == |Places(topics, topic)|
  {
    if topics != [] {
      var n := |topics| - 1;
      OccurrencesAre(topics[..n], topic);
      assert Places(topics, topic) == Places(topics[..n], topic) + if topics[n] == topic then {n} else {};
    } else {
      assert Places(topics, topic) == {};
    }
  }

  lemma {:induction false} SourceCountIs(picked: seq<Article>, source: string)
    ensures SourceCount(picked, source) == |SameSource(picked, source)|
  {
    if picked != [] {
      var n := |picked| - 1;
      SourceCountIs(picked[..n], source);
      assert SameSource(picked, source) ==
          SameSource(picked[..n], source) + if picked[n].source == source then {n} else {};
    } else {
      assert SameSource(picked, source) == {};
    }
  }

  lemma SameTopicStep(picked: seq<Article>, topic: string)
    requires picked != []
    ensures var n := |picked| - 1;
            |SameTopic(picked, topic)| == |SameTopic(picked[..n], topic)| + Occurrences(picked[n].topics, topic)
  {
    hide Occurrences;
    var n := |picked| - 1;
    var before, places := SameTopic(picked[..n], topic), Places(picked[n].topics, topic);
    var here := set j | j in places :: (n, j);
    OccurrencesAre(picked[n].topics, topic);
    TagKeepsSize(n, places, here);
    assert SameTopic(picked, topic) == before + here;
    assert before !! here;
  }

  lemma {:induction false} TopicCountIs(picked: seq<Article>, topic: string)
    ensures TopicCount(picked, topic) == |SameTopic(picked, topic)|
  {
    if picked != [] {
      hide SameTopic, Occurrences;
      TopicCountIs(picked[..|picked| - 1], topic);
      SameTopicStep(picked, topic);
    } else {
      assert SameTopic(picked, topic) == {};
    }
  }

  lemma {:induction false} TopicPenaltyIs(picked: seq<Article>, topics: seq<string>)
    ensures TopicPenalty(picked, topics) == 5 * |Shared(picked, topics)|
  {
    hide SameTopic, TopicCount;
    if topics != [] {
      var n := |topics| - 1;
      var same := SameTopic(picked, topics[n]);
      var here := set at | at in same :: (n, at);
      TopicPenaltyIs(picked, topics[..n]);
      TopicCountIs(picked, topics[n]);
      TagKeepsSize(n, same, here);
      assert Shared(picked, topics) == Shared(picked, topics[..n]) + here;
    } else {
      assert Shared(picked, topics) == {};
    }
  }

  /** Score times 100, less 10 for each earlier pick of the source, less 5 for each time an earlier pick
      has one of the topics. */
  lemma ValueIs(picked: seq<Article>, a: Article)
    ensures Value(picked, a) == a.score * 100 - 10 * |SameSource(picked, a.source)| - 5 * |Shared(picked, a.topics)|
  {
    SourceCountIs(picked, a.source);
    TopicPenaltyIs(picked, a.topics);
  }

  // ----- Greedy picking -----

  /** Index `b` is the leftmost of the highest values, if any value is above the start of the
      search; otherwise it is the first index. */
  ghost predicate IsBest(picked: seq<Article>, remaining: seq<Article>, b: nat) {
    && b < |remaining|
    && if forall j :: 0 <= j < |remaining| ==> Value(picked, remaining[j]) <= LOWEST then b == 0
       else
         && (forall j :: 0 <= j < |remaining| ==> Value(picked, remaining[j]) <= Value(picked, remaining[b]))
         && (forall j :: 0 <= j < b ==> Value(picked, remaining[j]) < Value(picked, remaining[b]))
  }

  function Without<T>(s: seq<T>, i: nat): (r: seq<T>)
    requires i < |s|
    ensures |r| == |s| - 1
    ensures multiset(r) == multiset(s) - multiset{s[i]}
  {
    assert s == s[..i] + [s[i]] + s[i + 1..];
    s[..i] + s[i + 1..]
  }

  /** The history of a greedy selection: `rests[k]` is what is left after `k` picks, and pick `k`
      is the best of it, at index `at[k]`. */
  ghost predicate GreedyRun(articles: seq<Article>, limit: int, picks: seq<Article>,
                            rests: seq<seq<Article>>, at: seq<nat>) {
    && |rests| == |picks| + 1 && |at| == |picks| && rests[0] == articles
    && (forall k :: 0 <= k < |picks| ==> PickedBest(picks, rests, at, k))
    && (|picks| > 0 ==> |picks| <= limit)
  }

  ghost predicate PickedBest(picks: seq<Article>, rests: seq<seq<Article>>, at: seq<nat>, k: nat)
    requires k < |picks| && |rests| == |picks| + 1 && |at| == |picks|
  {
    && IsBest(picks[..k], rests[k], at[k])
    && picks[k] == rests[k][at[k]]
    && rests[k + 1] == Without(rests[k], at[k])
  }

  /** Greedy picking from `articles` until `limit` are picked or none is left. */
  ghost predicate IsGreedy(articles: seq<Article>, limit: int, picks: seq<Article>) {
    exists rests: seq<seq<Article>>, at: seq<nat> ::
      && GreedyRun(articles, limit, picks, rests, at)
      && (rests[|picks|] == [] || |picks| >= limit)
  }

  lemma BestIsUnique(picked: seq<Article>, remaining: seq<Article>, b: nat, c: nat)
    requires IsBest(picked, remaining, b) && IsBest(picked, remaining, c)
    ensures b == c < |remaining|
  {
    hide Value;
  }

  lemma PicksAgree(p: seq<Article>, r: seq<seq<Article>>, at: seq<nat>,
                   q: seq<Article>, s: seq<seq<Article>>, at': seq<nat>, k: nat)
    requires k < |p| && k < |q| && |r| == |p| + 1 && |s| == |q| + 1 && |at| == |p| && |at'| == |q|
    requires PickedBest(p, r, at, k) && PickedBest(q, s, at', k)
    requires p[..k] == q[..k] && r[k] == s[k]
    ensures p[k] == q[k] && r[k + 1] == s[k + 1]
  {
    hide IsBest;
    BestIsUnique(p[..k], r[k], at[k], at'[k]);
  }

  lemma RunPicks(articles: seq<Article>, limit: int, picks: seq<Article>, rests: seq<seq<Article>>, at: seq<nat>)
    requires GreedyRun(articles, limit, picks, rests, at)
    ensures |rests| == |picks| + 1 && |at| == |picks| && rests[0] == articles
    ensures forall k :: 0 <= k < |picks| ==> PickedBest(picks, rests, at, k)
  {
    hide PickedBest;
  }

  lemma {:induction false} RunsAgree(articles: seq<Article>, limit: int, p: seq<Article>, r: seq<seq<Article>>,
                                     at: seq<nat>, q: seq<Article>, s: seq<seq<Article>>, at': seq<nat>, k: nat)
    requires GreedyRun(articles, limit, p, r, at) && GreedyRun(articles, limit, q, s, at')
    requires k <= |p| && k <= |q|
    ensures |r| == |p| + 1 && |s| == |q| + 1
    ensures (forall i :: 0 <= i < k ==> p[i] == q[i]) && r[k] == s[k]
  {
    hide GreedyRun, PickedBest;
    RunPicks(articles, limit, p, r, at);
    RunPicks(articles, limit, q, s, at');
    if k > 0 {
      RunsAgree(articles, limit, p, r, at, q, s, at', k - 1);
      assert p[..k - 1] == q[..k - 1];
      PicksAgree(p, r, at, q, s, at', k - 1);
    }
  }

  lemma {:induction false} LeftAfter(articles: seq<Article>, limit: int, picks: seq<Article>,
                                     rests: seq<seq<Article>>, at: seq<nat>, k: nat)
    requires GreedyRun(articles, limit, picks, rests, at) && k <= |picks|
    ensures |rests[k]| == |articles| - k
    ensures multiset(picks[..k]) + multiset(rests[k]) == multiset(articles)
  {
    if k > 0 {
      hide IsBest;
      LeftAfter(articles, limit, picks, rests, at, k - 1);
      assert PickedBest(picks, rests, at, k - 1);
      BestIsUnique(picks[..k - 1], rests[k - 1], at[k - 1], at[k - 1]);
      assert picks[..k] == picks[..k - 1] + [picks[k - 1]];
    }
  }

  /** The greedy rule leaves no choice. */
  lemma GreedyIsUnique(articles: seq<Article>, limit: int, p: seq<Article>, q: seq<Article>)
    requires IsGreedy(articles, limit, p) && IsGreedy(articles, limit, q)
    ensures p == q
  {
    hide PickedBest;
    GreedySelects(articles, limit, p);
    GreedySelects(articles, limit, q);
    var r: seq<seq<Article>>, at: seq<nat> :|
      GreedyRun(articles, limit, p, r, at) && (r[|p|] == [] || |p| >= limit);
    var s: seq<seq<Article>>, at': seq<nat> :|
      GreedyRun(articles, limit, q, s, at') && (s[|q|] == [] || |q| >= limit);
    RunsAgree(articles, limit, p, r, at, q, s, at', |p|);
    assert p[..|p|] == p && q[..|q|] == q;
  }

  // ----- diverse -----

  function CountAt(counts: map<string, nat>, key: string): nat {
    if key in counts then counts[key] else 0
  }

  ghost predicate Counted(picked: seq<Article>, sources: map<string, nat>, topics: map<string, nat>) {
    && (forall s :: CountAt(sources, s) == SourceCount(picked, s))
    && (forall t :: CountAt(topics, t) == TopicCount(picked, t))
  }

  method ValueOf(a: Article, sources: map<string, nat>, topics: map<string, nat>,
                 ghost picked: seq<Article>)
    returns (value: int)
    requires Counted(picked, sources, topics)
    ensures value == Value(picked, a)
  {
    value := a.score * 100 - CountAt(sources, a.source) * 10;
    for i := 0 to |a.topics|
      invariant value == a.score * 100 - SourceCount(picked, a.source) * 10 - TopicPenalty(picked, a.topics[..i])
    {
      assert a.topics[..i + 1][..i] == a.topics[..i];
      value := value - CountAt(topics, a.topics[i]) * 5;
    }
    assert a.topics[..|a.topics|] == a.topics;
  }

  method PickBest(remaining: seq<Article>, sources: map<string, nat>, topics: map<string, nat>,
                  ghost picked: seq<Article>)
    returns (best: nat)
    requires remaining != [] && Counted(picked, sources, topics)
    ensures IsBest(picked, remaining, best)
  {
    hide Value, Counted;
    best := 0;
    var bestValue := LOWEST;
    for i := 0 to |remaining|
      invariant best < |remaining| && LOWEST <= bestValue
      invariant forall j :: 0 <= j < i ==> Value(picked, remaining[j]) <= bestValue
      invariant if bestValue == LOWEST then best == 0
                else best < i && bestValue == Value(picked, remaining[best])
      invariant bestValue > LOWEST ==> forall j :: 0 <= j < best ==> Value(picked, remaining[j]) < bestValue
    {
      var value := ValueOf(remaining[i], sources, topics, picked);
      if value > bestValue {
        best, bestValue := i, value;
      }
    }
  }

  method CountTopics(more: seq<string>, topics: map<string, nat>) returns (topics': map<string, nat>)
    ensures forall t :: CountAt(topics', t) == CountAt(topics, t) + Occurrences(more, t)
  {
    topics' := topics;
    for i := 0 to |more|
      invariant forall t :: CountAt(topics', t) == CountAt(topics, t) + Occurrences(more[..i], t)
    {
      assert more[..i + 1][..i] == more[..i];
      topics' := topics'[more[i] := CountAt(topics', more[i]) + 1];
    }
    assert more[..|more|] == more;
  }

  lemma CountedStep(picked: seq<Article>, a: Article, sources: map<string, nat>, topics: map<string, nat>,
                    topics': map<string, nat>)
    requires Counted(picked, sources, topics)
    requires forall t :: CountAt(topics', t) == CountAt(topics, t) + Occurrences(a.topics, t)
    ensures Counted(picked + [a], sources[a.source := CountAt(sources, a.source) + 1], topics')
  {
    var now := picked + [a];
    assert now[..|picked|] == picked && now[|picked|] == a;
    forall s ensures CountAt(sources[a.source := CountAt(sources, a.source) + 1], s) == SourceCount(now, s) {
      assert CountAt(sources, s) == SourceCount(picked, s);
    }
    forall t ensures CountAt(topics', t) == TopicCount(now, t) {
      assert CountAt(topics, t) == TopicCount(picked, t);
    }
  }

  lemma GreedyRunStep(articles: seq<Article>, limit: int, picks: seq<Article>, rests: seq<seq<Article>>,
                      at: seq<nat>, b: nat)
    requires GreedyRun(articles, limit, picks, rests, at)
    requires |picks| < limit && IsBest(picks, rests[|picks|], b)
    ensures var left := rests[|picks|];
            GreedyRun(articles, limit, picks + [left[b]], rests + [Without(left, b)], at + [b])
  {
    hide IsBest;
    BestIsUnique(picks, rests[|picks|], b, b);
    var n := |picks|;
    var p, r, i := picks + [rests[n][b]], rests + [Without(rests[n], b)], at + [b];
    forall k | 0 <= k < |p| ensures PickedBest(p, r, i, k) {
      if k < n {
        assert PickedBest(picks, rests, at, k);
        assert p[..k] == picks[..k];
      } else {
        assert p[..k] == picks;
      }
    }
  }

  method Diverse(articles: seq<Article>, limit: int) returns (out: seq<Article>)
    ensures IsGreedy(articles, limit, out)
  {
    hide IsBest, Counted, PickedBest;
    var remaining := articles;
    out := [];
    var sources: map<string, nat>, topics: map<string, nat> := map[], map[];
    ghost var rests: seq<seq<Article>>, at: seq<nat> := [articles], [];
    NothingCounted();
    while remaining != [] && |out| < limit
      invariant GreedyRun(articles, limit, out, rests, at) && rests[|out|] == remaining
      invariant Counted(out, sources, topics)
      decreases |remaining|
    {
      var best := PickBest(remaining, sources, topics, out);
      BestIsUnique(out, remaining, best, best);
      GreedyRunStep(articles, limit, out, rests, at, best);
      var a := remaining[best];
      remaining := Without(remaining, best);
      var topics' := CountTopics(a.topics, topics);
      CountedStep(out, a, sources, topics, topics');
      sources, topics := sources[a.source := CountAt(sources, a.source) + 1], topics';
      out, rests, at := out + [a], rests + [remaining], at + [best];
    }
  }

  lemma NothingCounted()
    ensures Counted([], map[], map[])
  {
  }

  // ----- What greedy picking guarantees -----

  function Min(a: int, b: int): int {
    if a < b then a else b
  }

  /** A repetition-free selection: picks are taken out of the input, as many as the limit allows. */
  lemma GreedySelects(articles: seq<Article>, limit: int, picks: seq<Article>)
    requires IsGreedy(articles, limit, picks)
    ensures multiset(picks) <= multiset(articles)
    ensures |picks| == Min(|articles|, if limit < 0 then 0 else limit)
  {
    hide PickedBest;
    var rests: seq<seq<Article>>, at: seq<nat> :|
      GreedyRun(articles, limit, picks, rests, at) && (rests[|picks|] == [] || |picks| >= limit);
    LeftAfter(articles, limit, picks, rests, at, |picks|);
    assert picks[..|picks|] == picks;
  }

  /** Every pick has the highest value among the Articles not picked before it (values at or
      below the start of the search aside). */
  lemma PickMaximises(articles: seq<Article>, limit: int, picks: seq<Article>, k: nat, a: Article)
    requires IsGreedy(articles, limit, picks) && k < |picks|
    requires a in multiset(articles) - multiset(picks[..k])
    ensures Value(picks[..k], a) <= Value(picks[..k], picks[k]) || Value(picks[..k], a) <= LOWEST
  {
    hide Value;
    var rests: seq<seq<Article>>, at: seq<nat> :|
      GreedyRun(articles, limit, picks, rests, at) && (rests[|picks|] == [] || |picks| >= limit);
    LeftAfter(articles, limit, picks, rests, at, k);
    assert a in multiset(rests[k]);
    assert PickedBest(picks, rests, at, k);
  }

  // ----- The penalty is bounded -----

  ghost predicate TopicsAtMost(s: seq<Article>, t: nat) {
    forall a :: a in s ==> |a.topics| <= t
  }

  lemma {:induction false} OccurrencesBound(topics: seq<string>, topic: string)
    ensures Occurrences(topics, topic) <= |topics|
  {
    if topics != [] { OccurrencesBound(topics[..|topics| - 1], topic); }
  }

  lemma {:induction false} CountsBound(picked: seq<Article>, t: nat, source: string, topic: string)
    requires TopicsAtMost(picked, t)
    ensures SourceCount(picked, source) <= |picked|
    ensures TopicCount(picked, topic) <= t * |picked|
  {
    if picked != [] {
      var init, last := picked[..|picked| - 1], picked[|picked| - 1];
      CountsBound(init, t, source, topic);
      OccurrencesBound(last.topics, topic);
      assert t * |picked| == t * |init| + t;
    }
  }

  lemma {:induction false} TopicPenaltyBound(picked: seq<Article>, t: nat, topics: seq<string>)
    requires TopicsAtMost(picked, t)
    ensures TopicPenalty(picked, topics) <= 5 * (t * |picked|) * |topics|
  {
    if topics != [] {
      var n := |topics| - 1;
      TopicPenaltyBound(picked, t, topics[..n]);
      CountsBound(picked, t, "", topics[n]);
      var unit := 5 * (t * |picked|);
      assert unit * |topics| == unit * n + unit;
    }
  }

  /** What `k` earlier picks can cost an Article when nobody has more than `t` topics. */
  function Penalty(t: nat, k: nat): nat {
    10 * k + 5 * (t * k) * t
  }

  lemma ValueBounds(picked: seq<Article>, a: Article, t: nat)
    requires TopicsAtMost(picked, t) && |a.topics| <= t
    ensures a.score * 100 - Penalty(t, |picked|) <= Value(picked, a) <= a.score * 100
  {
    CountsBound(picked, t, a.source, "");
    TopicPenaltyBound(picked, t, a.topics);
    MulMonotone(5 * (t * |picked|), |a.topics|, t);
  }

  lemma MulMonotone(u: nat, x: nat, y: nat)
    requires x <= y
    ensures u * x <= u * y
  {
  }

  /** Scores above the start of the search, with room for the largest penalty considered. */
  ghost predicate ScoresInRange(s: seq<Article>) {
    forall a :: a in s ==> a.score * 100 - 100 > LOWEST
  }

  /** As long as the penalty of the earlier picks stays below one point of score, no Article left
      outscores the pick. */
  lemma PickOutscores(articles: seq<Article>, limit: int, picks: seq<Article>, t: nat, k: nat, a: Article)
    requires IsGreedy(articles, limit, picks) && k < |picks|
    requires TopicsAtMost(articles, t) && ScoresInRange(articles) && 10 * k + 5 * (t * k) * t < 100
    requires a in multiset(articles) - multiset(picks[..k])
    ensures a.score <= picks[k].score
  {
    hide Value, IsGreedy;
    assert Penalty(t, k) < 100;
    hide Penalty;
    PickMaximises(articles, limit, picks, k, a);
    GreedySelects(articles, limit, picks);
    forall x | x in picks ensures x in articles { assert x in multiset(picks); }
    assert a in articles;
    assert forall x :: x in picks[..k] ==> x in picks;
    ValueBounds(picks[..k], a, t);
    ValueBounds(picks[..k], picks[k], t);
  }

  lemma LaterPickIsLeft(articles: seq<Article>, picks: seq<Article>, k: nat, j: nat)
    requires multiset(picks) <= multiset(articles) && k < j < |picks|
    ensures picks[j] in multiset(articles) - multiset(picks[..k])
  {
    assert picks == picks[..k] + picks[k..];
    assert multiset(picks) == multiset(picks[..k]) + multiset(picks[k..]);
    assert picks[j] == picks[k..][j - k];
    assert picks[j] in multiset(picks[k..]);
  }

  lemma UnpickedIsLeft(articles: seq<Article>, picks: seq<Article>, k: nat, a: Article)
    requires multiset(picks) <= multiset(articles) && k <= |picks|
    requires a in multiset(articles) - multiset(picks)
    ensures a in multiset(articles) - multiset(picks[..k])
  {
    assert picks == picks[..k] + picks[k..];
    assert multiset(picks) == multiset(picks[..k]) + multiset(picks[k..]);
  }

  /** With one topic at most per Article, as Enrichment writes them, the first seven picks come in
      non-increasing score order and nothing left out outscores any of them. */
  lemma FirstSevenByScore(articles: seq<Article>, limit: int, picks: seq<Article>)
    requires IsGreedy(articles, limit, picks)
    requires TopicsAtMost(articles, 1) && ScoresInRange(articles)
    ensures forall i, j :: 0 <= i < j < |picks| && i < 7 ==> picks[j].score <= picks[i].score
    ensures forall i, a :: 0 <= i < |picks| && i < 7 && a in multiset(articles) - multiset(picks) ==>
              a.score <= picks[i].score
  {
    hide IsGreedy;
    GreedySelects(articles, limit, picks);
    forall i, j | 0 <= i < j < |picks| && i < 7 ensures picks[j].score <= picks[i].score {
      LaterPickIsLeft(articles, picks, i, j);
      PickOutscores(articles, limit, picks, 1, i, picks[j]);
    }
    forall i, a | 0 <= i < |picks| && i < 7 && a in multiset(articles) - multiset(picks)
      ensures a.score <= picks[i].score
    {
      UnpickedIsLeft(articles, picks, i, a);
      PickOutscores(articles, limit, picks, 1, i, a);
    }
  }

  predicate IsMate(a: Article, source: string, topic: string) {
    a.source == source && a.topics == [topic]
  }

  lemma {:induction false} MatesCount(picked: seq<Article>, source: string, topic: string, other: string)
    requires forall a :: a in picked ==> IsMate(a, source, topic)
    ensures SourceCount(picked, source) == TopicCount(picked, topic) == |picked|
    ensures other != source ==> SourceCount(picked, other) == 0
  {
    if picked != [] {
      var init, last := picked[..|picked| - 1], picked[|picked| - 1];
      MatesCount(init, source, topic, other);
      assert last in picked;
      assert last.topics[..0] == [];
      assert Occurrences(last.topics, topic) == 1;
    }
  }

  lemma MateValue(picked: seq<Article>, a: Article, source: string, topic: string)
    requires forall b :: b in picked ==> IsMate(b, source, topic)
    requires IsMate(a, source, topic)
    ensures Value(picked, a) == a.score * 100 - 15 * |picked|
  {
    MatesCount(picked, source, topic, "");
    assert a.topics[..0] == [];
    assert TopicPenalty(picked, a.topics) == TopicPenalty(picked, []) + TopicCount(picked, topic) * 5;
  }

  /** Seven is the limit: among eight Articles of one source and topic and one of another source
      that scores a point less, the eighth pick is the outsider. */
  lemma EighthPickIsOutscored(mates: seq<Article>, outsider: Article, source: string, topic: string,
                              score: nat, limit: int, picks: seq<Article>)
    requires |mates| == 8 && limit >= 8
    requires forall a :: a in mates ==> IsMate(a, source, topic) && a.score == score + 1
    requires outsider.source != source && outsider.topics == [] && outsider.score == score
    requires IsGreedy(mates + [outsider], limit, picks)
    ensures |picks| >= 8 && picks[7] == outsider
    ensures exists a :: a in multiset(mates + [outsider]) - multiset(picks[..8]) && a.score > picks[7].score
  {
    hide IsGreedy, Value;
    var all := mates + [outsider];
    GreedySelects(all, limit, picks);
    forall k | 0 <= k < 7 ensures picks[k] in mates {
      EarlyPickIsMate(mates, outsider, source, topic, score, limit, picks, k);
    }
    forall a | a in picks[..7] ensures IsMate(a, source, topic) {}
    var prefix := picks[..7];
    assert picks[7] in multiset(picks) && picks[7] in all;
    if picks[7] != outsider {
      MateValue(prefix, picks[7], source, topic);
      OutsiderLeft(mates, outsider, prefix);
      MatesCount(prefix, source, topic, outsider.source);
      assert TopicPenalty(prefix, outsider.topics) == 0;
      assert Value(prefix, outsider) == score * 100 by { OutsiderValue(prefix, outsider); }
      PickMaximises(all, limit, picks, 7, outsider);
      assert false;
    }
    MateLeft(mates, outsider, picks[..8]);
  }

  lemma OutsiderValue(picked: seq<Article>, a: Article)
    requires SourceCount(picked, a.source) == 0 && a.topics == []
    ensures Value(picked, a) == a.score * 100
  {
  }

  lemma OutsiderLeft(mates: seq<Article>, outsider: Article, picked: seq<Article>)
    requires outsider !in picked
    ensures outsider in multiset(mates + [outsider]) - multiset(picked)
  {
    assert outsider !in multiset(picked);
    assert (mates + [outsider])[|mates|] == outsider;
    assert outsider in multiset(mates + [outsider]);
  }

  /** Eight picks that include the outsider leave one of the eight mates behind. */
  lemma MateLeft(mates: seq<Article>, outsider: Article, picked: seq<Article>)
    requires |mates| == |picked| == 8 && outsider in picked && outsider !in mates
    ensures exists a :: a in mates && a in multiset(mates + [outsider]) - multiset(picked)
  {
    var left := multiset(mates) - (multiset(picked) - multiset{outsider});
    assert |multiset(picked)| == |multiset(mates)| == 8;
    assert |multiset(picked) - multiset{outsider}| == 7;
    assert left != multiset{} by {
      if left == multiset{} { SubMultisetSize(multiset(mates), multiset(picked) - multiset{outsider}); }
    }
    var a :| a in left;
    assert a in multiset(mates) && a in mates;
    assert multiset(mates + [outsider]) == multiset(mates) + multiset{outsider};
  }

  lemma SubMultisetSize<T>(a: multiset<T>, b: multiset<T>)
    requires a - b == multiset{}
    ensures |a| <= |b|
  {
    forall x ensures a[x] <= b[x] { assert (a - b)[x] == 0; }
    assert a <= b;
    assert b == a + (b - a);
    assert |b| == |a| + |b - a|;
  }

  lemma EarlyPickIsMate(mates: seq<Article>, outsider: Article, source: string, topic: string,
                        score: nat, limit: int, picks: seq<Article>, k: nat)
    requires |mates| == 8 && k < 7 && k < |picks|
    requires forall a :: a in mates ==> IsMate(a, source, topic) && a.score == score + 1
    requires outsider.source != source && outsider.topics == [] && outsider.score == score
    requires IsGreedy(mates + [outsider], limit, picks)
    ensures picks[k] in mates
  {
    hide IsGreedy;
    var all := mates + [outsider];
    GreedySelects(all, limit, picks);
    assert picks[k] in multiset(picks) && picks[k] in all;
    assert multiset(all) == multiset(mates) + multiset{outsider};
    var left := multiset(mates) - multiset(picks[..k]);
    assert left != multiset{} by {
      assert |multiset(mates)| == 8 && |multiset(picks[..k])| == k;
      if left == multiset{} { SubMultisetSize(multiset(mates), multiset(picks[..k])); }
    }
    var a :| a in left;
    assert a in multiset(mates) && a in mates;
    PickOutscores(all, limit, picks, 1, k, a);
  }

  // ----- uniqueAndDiverse -----

  /** Whether `a` is the first Article of `s` with its URL is decided by what came before. */
  function Unique(s: seq<Article>): seq<Article> {
    if s == [] then [] else
      var kept, a := Unique(s[..|s| - 1]), s[|s| - 1];
      if a.canonicalURL != "" && forall b :: b in kept ==> b.canonicalURL != a.canonicalURL
      then kept + [a] else kept
  }

  predicate HigherScore(a: Article, b: Article) {
    a.score > b.score
  }

  predicate Passes(floor: int, a: Article) {
    a.score >= floor
  }

  ghost predicate DistinctURLs(s: seq<Article>) {
    && (forall a :: a in s ==> a.canonicalURL != "")
    && (forall i, j :: 0 <= i < j < |s| ==> s[i].canonicalURL != s[j].canonicalURL)
  }

  /** Index `i` is the first with its URL. */
  ghost predicate FirstAt(s: seq<Article>, i: nat) {
    i < |s| && s[i].canonicalURL != "" && forall j :: 0 <= j < i ==> s[j].canonicalURL != s[i].canonicalURL
  }

  lemma {:induction false} FirstWithURL(s: seq<Article>, j: nat) returns (i: nat)
    requires j < |s| && s[j].canonicalURL != ""
    ensures i <= j && FirstAt(s, i) && s[i].canonicalURL == s[j].canonicalURL
    decreases j
  {
    if k: nat :| k < j && s[k].canonicalURL == s[j].canonicalURL {
      i := FirstWithURL(s, k);
    } else {
      i := j;
    }
  }

  ghost predicate IsFirstOf(s: seq<Article>, a: Article) {
    exists i: nat :: FirstAt(s, i) && s[i] == a
  }

  /** The firsts of a list are those of its start, and its last when that is one. */
  lemma FirstsStep(s: seq<Article>, a: Article)
    requires s != []
    ensures IsFirstOf(s, a) <==> IsFirstOf(s[..|s| - 1], a) || (FirstAt(s, |s| - 1) && s[|s| - 1] == a)
  {
    var n := |s| - 1;
    var init := s[..n];
    assert forall j :: 0 <= j < n ==> init[j] == s[j];
    if IsFirstOf(s, a) {
      var i: nat :| FirstAt(s, i) && s[i] == a;
      assert i < n ==> FirstAt(init, i);
    }
    if IsFirstOf(init, a) {
      var i: nat :| FirstAt(init, i) && init[i] == a;
      assert FirstAt(s, i);
    }
  }

  /** The last of a list is a first exactly when its URL is none of those kept. */
  lemma LastIsFirst(s: seq<Article>, kept: seq<Article>)
    requires s != [] && forall a :: a in kept <==> IsFirstOf(s[..|s| - 1], a)
    ensures FirstAt(s, |s| - 1) <==>
            s[|s| - 1].canonicalURL != "" && forall b :: b in kept ==> b.canonicalURL != s[|s| - 1].canonicalURL
  {
    var n := |s| - 1;
    var init, url := s[..n], s[n].canonicalURL;
    if FirstAt(s, n) {
      forall b | b in kept ensures b.canonicalURL != url {
        FirstHasIndex(init, b);
      }
    } else if url != "" {
      var j :| 0 <= j < n && s[j].canonicalURL == url;
      var i := FirstWithURL(init, j);
      assert IsFirstOf(init, init[i]);
      assert init[i] in kept;
    }
  }

  lemma FirstHasIndex(s: seq<Article>, a: Article)
    requires IsFirstOf(s, a)
    ensures exists i: nat :: i < |s| && s[i] == a
  {
  }

  /** Unique keeps exactly one Article, the first, of every non-empty URL. */
  lemma {:induction false} UniqueKeepsFirsts(s: seq<Article>)
    ensures DistinctURLs(Unique(s))
    ensures forall a :: a in Unique(s) <==> IsFirstOf(s, a)
  {
    if s != [] {
      var init := s[..|s| - 1];
      UniqueKeepsFirsts(init);
      LastIsFirst(s, Unique(init));
      hide FirstAt, IsFirstOf;
      forall a ensures a in Unique(s) <==> IsFirstOf(s, a) {
        FirstsStep(s, a);
      }
    }
  }

  method UniqueByURL(articles: seq<Article>) returns (unique: seq<Article>)
    ensures unique == Unique(articles)
  {
    var seen: set<string> := {};
    unique := [];
    for i := 0 to |articles|
      invariant unique == Unique(articles[..i])
      invariant forall u :: u in seen <==> exists b :: b in unique && b.canonicalURL == u
    {
      var a := articles[i];
      assert articles[..i + 1][..i] == articles[..i];
      if a.canonicalURL != "" && a.canonicalURL !in seen {
        seen := seen + {a.canonicalURL};
        unique := unique + [a];
      }
    }
    assert articles[..|articles|] == articles;
  }

  /** The Articles on one side of the floor, in order. */
  function Side(s: seq<Article>, floor: int, passing: bool): seq<Article> {
    if s == [] then [] else
      Side(s[..|s| - 1], floor, passing) + if Passes(floor, s[|s| - 1]) == passing then [s[|s| - 1]] else []
  }

  lemma SideStep(s: seq<Article>, floor: int, side: bool)
    requires s != []
    ensures var init, last := s[..|s| - 1], s[|s| - 1];
            multiset(Side(s, floor, side)) ==
            multiset(Side(init, floor, side)) + if Passes(floor, last) == side then multiset{last} else multiset{}
  {
  }

  lemma {:induction false} SidesSplit(s: seq<Article>, floor: int)
    ensures multiset(Side(s, floor, true)) + multiset(Side(s, floor, false)) == multiset(s)
  {
    if s != [] {
      var init, last := s[..|s| - 1], s[|s| - 1];
      SidesSplit(init, floor);
      SideStep(s, floor, true);
      SideStep(s, floor, false);
      hide Side, Passes;
      assert s == init + [last];
      assert multiset(s) == multiset(init) + multiset{last};
    }
  }

  lemma {:induction false} SideOfFloor(s: seq<Article>, floor: int, side: bool, a: Article)
    requires a in Side(s, floor, side)
    ensures a in s && (a.score >= floor <==> side)
  {
    if s != [] && a in Side(s[..|s| - 1], floor, side) { SideOfFloor(s[..|s| - 1], floor, side, a); }
  }

  method SplitAtFloor(ordered: seq<Article>, floor: int) returns (passing: seq<Article>, rejected: seq<Article>)
    ensures passing == Side(ordered, floor, true) && rejected == Side(ordered, floor, false)
  {
    passing, rejected := [], [];
    for i := 0 to |ordered|
      invariant passing == Side(ordered[..i], floor, true)
      invariant rejected == Side(ordered[..i], floor, false)
    {
      assert ordered[..i + 1][..i] == ordered[..i];
      var a := ordered[i];
      if a.score >= floor { passing := passing + [a]; } else { rejected := rejected + [a]; }
    }
    assert ordered[..|ordered|] == ordered;
  }

  function Candidates(picks: seq<Article>, exploration: bool): (c: seq<Candidate>)
    ensures |c| == |picks|
    ensures forall i :: 0 <= i < |picks| ==> c[i] == Candidate(picks[i], exploration)
  {
    seq(|picks|, i requires 0 <= i < |picks| => Candidate(picks[i], exploration))
  }

  /** What is known of a prepared list: `picks` from those passing the floor, then `extra` from
      those below it, both picked greedily from the unique Articles in score order. */
  ghost predicate Prepares(articles: seq<Article>, floor: int, max: int, out: Prepared,
                           picks: seq<Article>, extra: seq<Article>) {
    var ordered := Sort(Unique(articles), HigherScore);
    var passing, rejected := Side(ordered, floor, true), Side(ordered, floor, false);
    && out.total == |Unique(articles)| && out.floorPass == |passing|
    && IsGreedy(passing, max, picks)
    && (if |picks| < 3 then IsGreedy(rejected, 3 - |picks|, extra) else extra == [])
    && out.items == Candidates(picks, false) + Candidates(extra, true)
  }

  ghost predicate IsPrepared(articles: seq<Article>, floor: int, max: int, out: Prepared) {
    exists picks, extra :: Prepares(articles, floor, max, out, picks, extra)
  }

  method UniqueAndDiverse(articles: seq<Article>, floor: int, max: int)
    returns (out: Prepared, ghost picks: seq<Article>, ghost extra: seq<Article>)
    ensures IsPrepared(articles, floor, max, out)
    ensures Prepares(articles, floor, max, out, picks, extra)
  {
    hide IsGreedy, Unique, Sort, Side;
    var unique := UniqueByURL(articles);
    var ordered := Sort(unique, HigherScore);
    var passing, rejected := SplitAtFloor(ordered, floor);
    var selected := Diverse(passing, max);
    var items := Candidates(selected, false);
    picks, extra := selected, [];
    assert Candidates([], true) == [];
    if |items| < 3 {
      var more := Diverse(rejected, 3 - |items|);
      extra := more;
      for i := 0 to |more|
        invariant items == Candidates(picks, false) + Candidates(more[..i], true)
      {
        assert Candidates(more[..i + 1], true) == Candidates(more[..i], true) + [Candidate(more[i], true)];
        items := items + [Candidate(more[i], true)];
      }
      assert more[..|more|] == more;
    }
    out := Prepared(items, |unique|, |passing|);
    assert Prepares(articles, floor, max, out, picks, extra);
  }

  // ----- Ties -----

  ghost predicate ByScore(s: seq<Article>) {
    forall i, j :: 0 <= i < j < |s| ==> s[i].score >= s[j].score
  }

  lemma {:induction false} SideByScore(s: seq<Article>, floor: int, side: bool)
    requires ByScore(s)
    ensures ByScore(Side(s, floor, side))
  {
    if s != [] {
      var init, last := s[..|s| - 1], s[|s| - 1];
      SideByScore(init, floor, side);
      var kept := Side(init, floor, side);
      forall i | 0 <= i < |kept| ensures kept[i].score >= last.score {
        SideOfFloor(init, floor, side, kept[i]);
        var k :| 0 <= k < |init| && init[k] == kept[i];
        assert s[k] == kept[i];
      }
    }
  }

  lemma {:induction false} RestByScore(articles: seq<Article>, limit: int, picks: seq<Article>,
                                       rests: seq<seq<Article>>, at: seq<nat>, k: nat)
    requires GreedyRun(articles, limit, picks, rests, at) && k <= |picks| && ByScore(articles)
    ensures ByScore(rests[k])
  {
    if k > 0 {
      RestByScore(articles, limit, picks, rests, at, k - 1);
      assert PickedBest(picks, rests, at, k - 1);
      hide IsBest;
      BestIsUnique(picks[..k - 1], rests[k - 1], at[k - 1], at[k - 1]);
    }
  }

  /** Of what is worth the same, the higher Score is picked first. */
  lemma TiesGoByScore(articles: seq<Article>, limit: int, picks: seq<Article>, k: nat, a: Article)
    requires IsGreedy(articles, limit, picks) && k < |picks| && ByScore(articles)
    requires a in multiset(articles) - multiset(picks[..k])
    requires Value(picks[..k], a) == Value(picks[..k], picks[k])
    ensures a.score <= picks[k].score
  {
    hide Value;
    var rests: seq<seq<Article>>, at: seq<nat> :|
      GreedyRun(articles, limit, picks, rests, at) && (rests[|picks|] == [] || |picks| >= limit);
    LeftAfter(articles, limit, picks, rests, at, k);
    RestByScore(articles, limit, picks, rests, at, k);
    assert a in multiset(rests[k]);
    var j :| 0 <= j < |rests[k]| && rests[k][j] == a;
    assert PickedBest(picks, rests, at, k);
    hide GreedyRun;
    assert at[k] <= j;
  }

  lemma HigherScoreIsOrder()
    ensures StrictWeakOrder(HigherScore)
  {
  }

  /** Among the Articles that pass the floor, one for each URL, a pick has the highest value of those not
      yet picked, and of those the highest Score (values at or below the start of the search aside). */
  lemma PreparedPicks(articles: seq<Article>, floor: int, max: int, out: Prepared,
                      picks: seq<Article>, extra: seq<Article>, k: nat, a: Article)
    requires Prepares(articles, floor, max, out, picks, extra) && k < |picks|
    requires a in Unique(articles) && a.score >= floor && a !in picks[..k] && Value(picks[..k], a) > LOWEST
    ensures Value(picks[..k], a) <= Value(picks[..k], picks[k])
    ensures Value(picks[..k], a) == Value(picks[..k], picks[k]) ==> a.score <= picks[k].score
  {
    hide Value, IsGreedy, Unique, Sort, HigherScore;
    var ordered := Sort(Unique(articles), HigherScore);
    HigherScoreIsOrder();
    SortSorts(Unique(articles), HigherScore);
    SortKeepsMembers(Unique(articles), HigherScore);
    SortedIsByScore(ordered);
    SideByScore(ordered, floor, true);
    var passing := Side(ordered, floor, true);
    OnSide(ordered, floor, a);
    assert a in multiset(passing) - multiset(picks[..k]);
    PickMaximises(passing, max, picks, k, a);
    if Value(picks[..k], a) == Value(picks[..k], picks[k]) { TiesGoByScore(passing, max, picks, k, a); }
  }

  lemma SortedIsByScore(s: seq<Article>)
    requires SortedBy(s, HigherScore)
    ensures ByScore(s)
  {
    forall i, j | 0 <= i < j < |s| ensures s[i].score >= s[j].score { assert !HigherScore(s[j], s[i]); }
  }

  lemma {:induction false} OnSide(s: seq<Article>, floor: int, a: Article)
    requires a in s && a.score >= floor
    ensures a in Side(s, floor, true)
  {
    if a != s[|s| - 1] { OnSide(s[..|s| - 1], floor, a); }
  }

  // ----- The candidate law -----

  /** Exactly how many candidates there are, which are exploration picks, and that no URL comes
      twice, or empty, or from outside the pool. */
  lemma CandidateLaw(articles: seq<Article>, floor: int, max: nat, out: Prepared,
                     picks: seq<Article>, extra: seq<Article>)
    requires Prepares(articles, floor, max, out, picks, extra)
    ensures var p := Min(out.floorPass, max);
            && |out.items| == p + (if p < 3 then Min(out.total - out.floorPass, 3 - p) else 0)
            && (forall i :: 0 <= i < |out.items| ==>
                  && (out.items[i].exploration <==> i >= p)
                  && (out.items[i].exploration <==> out.items[i].article.score < floor)
                  && out.items[i].article in articles
                  && out.items[i].article.canonicalURL != "")
            && (forall i, j :: 0 <= i < j < |out.items| ==>
                  out.items[i].article.canonicalURL != out.items[j].article.canonicalURL)
    ensures out.floorPass <= out.total <= |articles|
  {
    hide IsGreedy, Unique, Sort, Side;
    var unique := Unique(articles);
    var ordered := Sort(unique, HigherScore);
    var passing, rejected := Side(ordered, floor, true), Side(ordered, floor, false);
    SortKeepsElements(unique, HigherScore);
    SidesSplit(ordered, floor);
    assert |multiset(passing)| + |multiset(rejected)| == |multiset(ordered)|;
    GreedySelects(passing, max, picks);
    if |picks| < 3 { GreedySelects(rejected, 3 - |picks|, extra); }
    assert multiset(extra) <= multiset(rejected);
    UniqueIsShorter(articles);
    PicksAndExtra(articles, floor, picks, extra);
    ItemsAre(out.items, picks, extra);
  }

  lemma ItemsAre(items: seq<Candidate>, picks: seq<Article>, extra: seq<Article>)
    requires items == Candidates(picks, false) + Candidates(extra, true)
    ensures |items| == |picks + extra|
    ensures forall i :: 0 <= i < |items| ==> items[i] == Candidate((picks + extra)[i], i >= |picks|)
    ensures forall i :: 0 <= i < |items| && i < |picks| ==> (picks + extra)[i] == picks[i]
    ensures forall i :: |picks| <= i < |items| ==> (picks + extra)[i] == extra[i - |picks|]
  {
  }

  lemma {:induction false} UniqueIsShorter(s: seq<Article>)
    ensures |Unique(s)| <= |s|
  {
    if s != [] { UniqueIsShorter(s[..|s| - 1]); }
  }

  lemma PicksAndExtra(articles: seq<Article>, floor: int, picks: seq<Article>, extra: seq<Article>)
    requires var ordered := Sort(Unique(articles), HigherScore);
             && multiset(picks) <= multiset(Side(ordered, floor, true))
             && multiset(extra) <= multiset(Side(ordered, floor, false))
    ensures forall i :: 0 <= i < |picks| ==> picks[i].score >= floor
    ensures forall i :: 0 <= i < |extra| ==> extra[i].score < floor
    ensures var all := picks + extra;
            && (forall i :: 0 <= i < |all| ==> all[i] in articles && all[i].canonicalURL != "")
            && (forall i, j :: 0 <= i < j < |all| ==> all[i].canonicalURL != all[j].canonicalURL)
  {
    hide Unique, Sort, Side;
    var unique := Unique(articles);
    var ordered := Sort(unique, HigherScore);
    SidesSplit(ordered, floor);
    forall i | 0 <= i < |picks| ensures picks[i].score >= floor {
      assert picks[i] in multiset(picks);
      SideOfFloor(ordered, floor, true, picks[i]);
    }
    forall i | 0 <= i < |extra| ensures extra[i].score < floor {
      assert extra[i] in multiset(extra);
      SideOfFloor(ordered, floor, false, extra[i]);
    }
    var all := picks + extra;
    assert multiset(all) == multiset(picks) + multiset(extra);
    SortKeepsElements(unique, HigherScore);
    UniqueKeepsFirsts(articles);
    SelectionKeepsURLsApart(unique, all);
    forall i | 0 <= i < |all| ensures all[i] in articles {
      assert all[i] in unique;
    }
  }

  /** Taking elements out of a list without repeated URLs repeats none. */
  lemma SelectionKeepsURLsApart(s: seq<Article>, t: seq<Article>)
    requires DistinctURLs(s) && multiset(t) <= multiset(s)
    ensures DistinctURLs(t) && forall i :: 0 <= i < |t| ==> t[i] in s
  {
    CountsAreMultiplicities(s);
    forall a | a in t ensures a in s { assert a in multiset(t); }
    forall x | x in multiset(t) ensures multiset(t)[x] == 1 { assert x in multiset(s); }
    CountsAreMultiplicities(t);
    forall i, j | 0 <= i < j < |t| ensures t[i].canonicalURL != t[j].canonicalURL {
      assert t[i] in s && t[j] in s;
      var k :| 0 <= k < |s| && s[k] == t[i];
      var m :| 0 <= m < |s| && s[m] == t[j];
    }
  }

  // ----- The model's answer -----

  /** The candidates the model named, in candidate order. */
  function Chosen(candidates: seq<Candidate>, ids: seq<string>): seq<Candidate> {
    if candidates == [] then [] else
      var last := candidates[|candidates| - 1];
      Chosen(candidates[..|candidates| - 1], ids) + if last.article.id in ids then [last] else []
  }

  method ChooseItems(candidates: seq<Candidate>, ids: seq<string>) returns (items: seq<Candidate>)
    ensures items == Chosen(candidates, ids)
  {
    var byID: set<string> := {};
    for i := 0 to |ids|
      invariant forall id :: id in byID <==> id in ids[..i]
    {
      byID := byID + {ids[i]};
    }
    assert ids[..|ids|] == ids;
    items := [];
    for i := 0 to |candidates|
      invariant items == Chosen(candidates[..i], ids)
    {
      assert candidates[..i + 1][..i] == candidates[..i];
      if candidates[i].article.id in byID { items := items + [candidates[i]]; }
    }
    assert candidates[..|candidates|] == candidates;
  }

  /** `t` is `s` with some elements left out. */
  ghost predicate IsSubsequence<T>(t: seq<T>, s: seq<T>) {
    if t == [] then true
    else s != [] && if t[|t| - 1] == s[|s| - 1] then IsSubsequence(t[..|t| - 1], s[..|s| - 1])
                    else IsSubsequence(t, s[..|s| - 1])
  }

  /** Whatever IDs the model returns, unknown or repeated, the items are exactly the candidates
      it named, each as often as it was a candidate, in candidate order. */
  lemma {:induction false} ChosenLaw(candidates: seq<Candidate>, ids: seq<string>)
    ensures IsSubsequence(Chosen(candidates, ids), candidates)
    ensures forall c :: multiset(Chosen(candidates, ids))[c] ==
              if c.article.id in ids then multiset(candidates)[c] else 0
  {
    if candidates != [] {
      var init, last := candidates[..|candidates| - 1], candidates[|candidates| - 1];
      ChosenLaw(init, ids);
      assert candidates == init + [last];
      var before := Chosen(init, ids);
      if last.article.id in ids {
        assert (before + [last])[..|before|] == before;
      } else {
        assert Chosen(candidates, ids) == before;
        NotLast(before, candidates, last);
      }
    }
  }

  lemma NotLast(t: seq<Candidate>, s: seq<Candidate>, last: Candidate)
    requires s != [] && s[|s| - 1] == last && IsSubsequence(t, s[..|s| - 1])
    requires multiset(t)[last] == 0
    ensures IsSubsequence(t, s)
  {
    if t != [] { assert t[|t| - 1] in multiset(t); }
  }
}
