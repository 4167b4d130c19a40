/** The decision half of the ownership migration (internal/ownership/plan.go): legacy rows
    are folded, per canonical URL, into Bookmarks and Article Index records, and tallied. */
module OwnershipPlan {
  import opened Text
  import opened Sorting

  type Time = int

  datatype DataClass =
    | SavedURLs | Scores | Tags | Summaries | Opens | Votes
    | SourceConfig | ArticleBodies

  const MIGRATED: set<DataClass> := {SavedURLs, Scores, Tags, Summaries, Opens, Votes}
  const CLASSES: set<DataClass> := MIGRATED + {SourceConfig, ArticleBodies}

  datatype Counts = Counts(
    source: int, destination: int, transformed: int, skipped: int, duplicate: int, failed: int)

  const ZERO := Counts(0, 0, 0, 0, 0, 0)

  type Tally = map<DataClass, Counts>

  /** A legacy row. Score 0 means never scored; vote "" means no current vote. */
  datatype LegacyArticle = LegacyArticle(
    id: string, externalURL: string, canonicalURL: string, title: string, author: string,
    summary: string, publishedAt: Option<Time>, score: int, tags: seq<string>,
    isSaved: bool, savedAt: Option<Time>, readAt: Option<Time>,
    vote: string, votedAt: Option<Time>, hasBody: bool, createdAt: Time)

  datatype BookmarkImport = BookmarkImport(url: string, title: string, legacyIDs: seq<string>)

  datatype IndexImport = IndexImport(
    canonicalURL: string, title: string, author: string, summary: string,
    publishedAt: Option<Time>, score: int, tags: seq<string>, openedAt: Option<Time>,
    vote: string, votedAt: Option<Time>, legacyIDs: seq<string>)

  datatype Plan = Plan(bookmarks: seq<BookmarkImport>, records: seq<IndexImport>, counts: Tally)

  // ----- What one row carries, and where it lives -----

  /** Go's URL parser is a parameter: `isWeb(u)` says that `u` parses as an absolute
      http(s) URL with a host. */
  type URLTest = string -> bool

  function Home(isWeb: URLTest, a: LegacyArticle): Option<string> {
    var canonical := TrimSpace(a.canonicalURL);
    var external := TrimSpace(a.externalURL);
    if canonical != "" && isWeb(canonical) then Some(canonical)
    else if external != "" && isWeb(external) then Some(external)
    else None
  }

  function OneIf(holds: bool, c: DataClass): seq<DataClass> {
    if holds then [c] else []
  }

  function IndexedClasses(score: int, tags: seq<string>, summary: string,
                          openedAt: Option<Time>, vote: string): seq<DataClass> {
    OneIf(score > 0, Scores) + OneIf(|tags| > 0, Tags) + OneIf(TrimSpace(summary) != "", Summaries)
    + OneIf(openedAt.Some?, Opens) + OneIf(vote != "", Votes)
  }

  function Indexed(a: LegacyArticle): seq<DataClass> {
    IndexedClasses(a.score, a.tags, a.summary, a.readAt, a.vote)
  }

  function Carried(a: LegacyArticle): seq<DataClass> {
    OneIf(a.isSaved, SavedURLs) + Indexed(a)
  }

  function RecordClasses(r: IndexImport): seq<DataClass> {
    IndexedClasses(r.score, r.tags, r.summary, r.openedAt, r.vote)
  }

  lemma DistinctAppend<T>(s: seq<T>, x: T)
    requires Distinct(s) && x !in s
    ensures Distinct(s + [x])
  {
  }

  lemma OneIfAppend(s: seq<DataClass>, holds: bool, c: DataClass)
    requires Distinct(s) && c !in s
    ensures Distinct(s + OneIf(holds, c))
    ensures forall k :: k in s + OneIf(holds, c) <==> k in s || (holds && k == c)
  {
    if holds { DistinctAppend(s, c); } else { assert s + OneIf(holds, c) == s; }
  }

  /** Class by class, what `IndexedClasses` lists; each class at most once. */
  lemma IndexedClassesLists(score: int, tags: seq<string>, summary: string,
                            openedAt: Option<Time>, vote: string)
    ensures var l := IndexedClasses(score, tags, summary, openedAt, vote);
            && Distinct(l)
            && forall k :: k in l <==>
                 || (k == Scores && score > 0) || (k == Tags && |tags| > 0)
                 || (k == Summaries && TrimSpace(summary) != "")
                 || (k == Opens && openedAt.Some?) || (k == Votes && vote != "")
  {
    var a := OneIf(score > 0, Scores);
    OneIfAppend(a, |tags| > 0, Tags);
    var b := a + OneIf(|tags| > 0, Tags);
    OneIfAppend(b, TrimSpace(summary) != "", Summaries);
    var c := b + OneIf(TrimSpace(summary) != "", Summaries);
    OneIfAppend(c, openedAt.Some?, Opens);
    var d := c + OneIf(openedAt.Some?, Opens);
    OneIfAppend(d, vote != "", Votes);
  }

  // ----- Declarative meaning of a plan -----

  predicate RowLess(a: LegacyArticle, b: LegacyArticle) {
    a.createdAt < b.createdAt || (a.createdAt == b.createdAt && StrLess(a.id, b.id))
  }

  /** Oldest first, ties broken by id. */
  function Ordered(rows: seq<LegacyArticle>): seq<LegacyArticle> {
    Sort(rows, RowLess)
  }

  /** The rows whose Article Index data belongs to `url`, in order. */
  function Group(isWeb: URLTest, rows: seq<LegacyArticle>, url: string): seq<LegacyArticle> {
    if rows == [] then [] else
      var a := rows[|rows| - 1];
      Group(isWeb, rows[..|rows| - 1], url)
      + if Indexed(a) != [] && Home(isWeb, a) == Some(url) then [a] else []
  }

  /** The rows saved under `url`, in order. */
  function SavedGroup(isWeb: URLTest, rows: seq<LegacyArticle>, url: string): seq<LegacyArticle> {
    if rows == [] then [] else
      var a := rows[|rows| - 1];
      SavedGroup(isWeb, rows[..|rows| - 1], url)
      + if a.isSaved && Home(isWeb, a) == Some(url) then [a] else []
  }

  function TitleOf(a: LegacyArticle): string { a.title }
  function AuthorOf(a: LegacyArticle): string { a.author }
  function SummaryOf(a: LegacyArticle): string { TrimSpace(a.summary) }
  function ScoreOf(a: LegacyArticle): int { a.score }
  function PublishedOf(a: LegacyArticle): Option<Time> { a.publishedAt }

  /** `v` is the first of `|g|` values that is not `blank`, or `blank` when there is none. */
  ghost predicate IsFirst<T(!new)>(v: T, blank: T, g: seq<LegacyArticle>, of: LegacyArticle -> T) {
    if v == blank then forall i :: 0 <= i < |g| ==> of(g[i]) == blank
    else exists i :: 0 <= i < |g| && of(g[i]) == v && forall j :: 0 <= j < i ==> of(g[j]) == blank
  }

  /** An Open is the first time the page was openedAt. */
  ghost predicate IsEarliestRead(v: Option<Time>, g: seq<LegacyArticle>) {
    && (forall i :: 0 <= i < |g| && g[i].readAt.Some? ==> v.Some? && v.value <= g[i].readAt.value)
    && (v.Some? ==> exists i :: 0 <= i < |g| && g[i].readAt == v)
  }

  /** Row `i` holds the current vote of the group: the earliest row with the latest vote
      date, or, when no vote is dated, the first vote. */
  ghost predicate IsCurrentVote(g: seq<LegacyArticle>, i: nat) {
    && i < |g| && g[i].vote != ""
    && match g[i].votedAt
       case None =>
         && (forall j :: 0 <= j < |g| && g[j].vote != "" ==> g[j].votedAt.None?)
         && (forall j :: 0 <= j < i ==> g[j].vote == "")
       case Some(t) =>
         && (forall j :: 0 <= j < |g| && g[j].vote != "" && g[j].votedAt.Some? ==>
               g[j].votedAt.value <= t && (j < i ==> g[j].votedAt.value < t))
  }

  ghost predicate IsVote(vote: string, votedAt: Option<Time>, g: seq<LegacyArticle>) {
    if vote == "" then votedAt.None? && forall i :: 0 <= i < |g| ==> g[i].vote == ""
    else exists i: nat :: IsCurrentVote(g, i) && g[i].vote == vote && g[i].votedAt == votedAt
  }

  ghost predicate HoldsTags(tags: seq<string>, g: seq<LegacyArticle>) {
    forall t :: t in tags <==> exists i :: 0 <= i < |g| && t in g[i].tags
  }

  function IDs(g: seq<LegacyArticle>): seq<string> {
    seq(|g|, i requires 0 <= i < |g| => g[i].id)
  }

  /** What a merged record means in terms of its group; tags in any order. */
  ghost predicate Merges(r: IndexImport, g: seq<LegacyArticle>, url: string) {
    && r.canonicalURL == url && r.legacyIDs == IDs(g)
    && IsFirst(r.title, "", g, TitleOf)
    && IsFirst(r.author, "", g, AuthorOf)
    && IsFirst(r.summary, "", g, SummaryOf)
    && IsFirst(r.score, 0, g, ScoreOf)
    && IsFirst(r.publishedAt, None, g, PublishedOf)
    && HoldsTags(r.tags, g) && Distinct(r.tags)
    && IsEarliestRead(r.openedAt, g)
    && IsVote(r.vote, r.votedAt, g)
  }

  ghost predicate IsRecord(r: IndexImport, g: seq<LegacyArticle>, url: string) {
    Merges(r, g, url) && Ascending(r.tags)
  }

  ghost predicate IsBookmark(b: BookmarkImport, g: seq<LegacyArticle>, url: string) {
    g != [] && b.url == url && b.title == g[0].title && b.legacyIDs == IDs(g)
  }

  predicate Carries(a: LegacyArticle, c: DataClass) {
    c in Carried(a)
  }

  function CountCarrying(rows: seq<LegacyArticle>, c: DataClass): nat {
    if rows == [] then 0 else
      CountCarrying(rows[..|rows| - 1], c) + if Carries(rows[|rows| - 1], c) then 1 else 0
  }

  function CountHomeless(isWeb: URLTest, rows: seq<LegacyArticle>, c: DataClass): nat {
    if rows == [] then 0 else
      var a := rows[|rows| - 1];
      CountHomeless(isWeb, rows[..|rows| - 1], c)
      + if Carries(a, c) && Home(isWeb, a).None? then 1 else 0
  }

  function CountBodies(rows: seq<LegacyArticle>): nat {
    if rows == [] then 0 else
      CountBodies(rows[..|rows| - 1]) + if rows[|rows| - 1].hasBody then 1 else 0
  }

  /** The URLs some row brings class `c` to. */
  ghost function URLsWith(isWeb: URLTest, rows: seq<LegacyArticle>, c: DataClass): set<string> {
    set a | a in rows && Carries(a, c) && Home(isWeb, a).Some? :: Home(isWeb, a).value
  }

  /** The URLs that become Article Index records. */
  ghost function RecordURLs(isWeb: URLTest, rows: seq<LegacyArticle>): set<string> {
    set a | a in rows && Indexed(a) != [] && Home(isWeb, a).Some? :: Home(isWeb, a).value
  }

  ghost function CountsOf(isWeb: URLTest, rows: seq<LegacyArticle>, c: DataClass): Counts {
    if c == SourceConfig then ZERO
    else if c == ArticleBodies then Counts(CountBodies(rows), 0, 0, CountBodies(rows), 0, 0)
    else Balanced(CountCarrying(rows, c), CountHomeless(isWeb, rows, c), |URLsWith(isWeb, rows, c)|)
  }

  /** Every row that carries a class is skipped, or is the first for its URL, or is a duplicate. */
  function Balanced(source: int, skipped: int, urls: int): Counts {
    Counts(source, 0, urls, skipped, source - skipped - urls, 0)
  }

  ghost predicate TalliesRows(isWeb: URLTest, rows: seq<LegacyArticle>, counts: Tally) {
    counts.Keys == CLASSES && forall c :: c in CLASSES ==> counts[c] == CountsOf(isWeb, rows, c)
  }

  ghost predicate ListsRecords(isWeb: URLTest, rows: seq<LegacyArticle>, records: seq<IndexImport>) {
    && (forall i, j :: 0 <= i < j < |records| ==>
          StrLess(records[i].canonicalURL, records[j].canonicalURL))
    && (forall r :: r in records ==>
          && r.canonicalURL in RecordURLs(isWeb, rows)
          && IsRecord(r, Group(isWeb, rows, r.canonicalURL), r.canonicalURL))
    && (forall u :: u in RecordURLs(isWeb, rows) ==> exists r :: r in records && r.canonicalURL == u)
  }

  ghost predicate ListsBookmarks(isWeb: URLTest, rows: seq<LegacyArticle>,
                                 bookmarks: seq<BookmarkImport>) {
    && (forall i, j :: 0 <= i < j < |bookmarks| ==> StrLess(bookmarks[i].url, bookmarks[j].url))
    && (forall b :: b in bookmarks ==>
          && b.url in URLsWith(isWeb, rows, SavedURLs)
          && IsBookmark(b, SavedGroup(isWeb, rows, b.url), b.url))
    && (forall u :: u in URLsWith(isWeb, rows, SavedURLs) ==>
          exists b :: b in bookmarks && b.url == u)
  }

  /** The whole meaning of a plan for rows given in merge order. */
  ghost predicate PlansOrdered(isWeb: URLTest, rows: seq<LegacyArticle>, plan: Plan) {
    && ListsRecords(isWeb, rows, plan.records)
    && ListsBookmarks(isWeb, rows, plan.bookmarks)
    && TalliesRows(isWeb, rows, plan.counts)
  }

  ghost predicate IsPlan(isWeb: URLTest, rows: seq<LegacyArticle>, plan: Plan) {
    PlansOrdered(isWeb, Ordered(rows), plan)
  }

  // ----- One merge step -----

  lemma IsFirstStep<T(!new)>(v: T, blank: T, g: seq<LegacyArticle>, of: LegacyArticle -> T,
                             a: LegacyArticle)
    requires IsFirst(v, blank, g, of)
    ensures IsFirst(if v == blank then of(a) else v, blank, g + [a], of)
  {
    var g' := g + [a];
    assert forall i :: 0 <= i < |g| ==> g'[i] == g[i];
    if v == blank {
      assert g'[|g|] == a;
    } else {
      var i :| 0 <= i < |g| && of(g[i]) == v && forall j :: 0 <= j < i ==> of(g[j]) == blank;
      assert of(g'[i]) == v;
    }
  }

  lemma EarliestReadStep(v: Option<Time>, g: seq<LegacyArticle>, a: LegacyArticle)
    requires IsEarliestRead(v, g)
    ensures IsEarliestRead(
              if a.readAt.Some? && (v.None? || a.readAt.value < v.value) then a.readAt else v,
              g + [a])
  {
    var g' := g + [a];
    assert g'[|g|] == a;
    assert forall i :: 0 <= i < |g| ==> g'[i] == g[i];
    if v.Some? {
      var i :| 0 <= i < |g| && g[i].readAt == v;
      assert g'[i].readAt == v;
    }
  }

  predicate NewerVote(r: IndexImport, a: LegacyArticle) {
    if r.vote == "" then true
    else if a.votedAt.None? then false
    else if r.votedAt.None? then true
    else a.votedAt.value > r.votedAt.value
  }

  lemma VoteStep(r: IndexImport, g: seq<LegacyArticle>, a: LegacyArticle)
    requires IsVote(r.vote, r.votedAt, g)
    ensures var newer := a.vote != "" && NewerVote(r, a);
            IsVote(if newer then a.vote else r.vote, if newer then a.votedAt else r.votedAt, g + [a])
  {
    var g' := g + [a];
    var n := |g|;
    assert g'[n] == a;
    assert forall i :: 0 <= i < n ==> g'[i] == g[i];
    if r.vote == "" {
      if a.vote != "" { assert IsCurrentVote(g', n); }
    } else {
      var i: nat :| IsCurrentVote(g, i) && g[i].vote == r.vote && g[i].votedAt == r.votedAt;
      if a.vote != "" && NewerVote(r, a) {
        assert IsCurrentVote(g', n);
      } else {
        assert IsCurrentVote(g', i);
      }
    }
  }

  lemma TagsStep(tags: seq<string>, g: seq<LegacyArticle>, a: LegacyArticle, tags': seq<string>)
    requires HoldsTags(tags, g)
    requires forall t :: t in tags' <==> t in tags || t in a.tags
    ensures HoldsTags(tags', g + [a])
  {
    var g' := g + [a];
    assert g'[|g|] == a;
    assert forall i :: 0 <= i < |g| ==> g'[i] == g[i];
    forall t ensures t in tags' <==> exists i :: 0 <= i < |g'| && t in g'[i].tags {
      if t in tags {
        var i :| 0 <= i < |g| && t in g[i].tags;
        assert t in g'[i].tags;
      }
      if i :| 0 <= i < |g'| && t in g'[i].tags {
        assert i == |g| || t in g[i].tags;
      }
    }
  }

  method Contains(values: seq<string>, target: string) returns (found: bool)
    ensures found <==> target in values
  {
    for i := 0 to |values|
      invariant target !in values[..i]
    {
      if values[i] == target { return true; }
    }
    return false;
  }

  /** `a` stands in the list before `b` first does. */
  ghost predicate Before(s: seq<string>, a: string, b: string) {
    exists p :: 0 <= p < |s| && s[p] == a && b !in s[..p + 1]
  }

  /** The old tags stay in front, and the new ones follow in the order the row first has them. */
  ghost predicate Follows(out: seq<string>, tags: seq<string>, more: seq<string>) {
    && tags <= out && Distinct(out)
    && (forall t :: t in out <==> t in tags || t in more)
    && (forall k, l :: |tags| <= k < l < |out| ==> Before(more, out[k], out[l]))
  }

  method MergeTags(tags: seq<string>, more: seq<string>) returns (out: seq<string>)
    requires Distinct(tags)
    ensures Follows(out, tags, more)
  {
    hide Before;
    out := tags;
    for i := 0 to |more|
      invariant tags <= out && Distinct(out)
      invariant forall t :: t in out <==> t in tags || t in more[..i]
      invariant forall k :: |tags| <= k < |out| ==> out[k] in more[..i]
      invariant forall k, l :: |tags| <= k < l < |out| ==> Before(more, out[k], out[l])
    {
      var known := Contains(out, more[i]);
      if !known {
        forall k | |tags| <= k < |out| ensures Before(more, out[k], more[i]) {
          BeforeNext(more, i, out[k]);
        }
        out := out + [more[i]];
      }
      assert more[..i + 1] == more[..i] + [more[i]];
    }
    assert more[..|more|] == more;
  }

  lemma BeforeNext(more: seq<string>, i: nat, t: string)
    requires i < |more| && more[i] !in more[..i] && t in more[..i]
    ensures Before(more, t, more[i])
  {
    var p :| 0 <= p < i && more[..i][p] == t;
    assert more[..p + 1] <= more[..i];
  }

  /** What a record becomes when one more row, whose tags make the list `tags`, is folded in. */
  function Merged(r: IndexImport, a: LegacyArticle, tags: seq<string>): IndexImport {
    var newer := a.vote != "" && NewerVote(r, a);
    IndexImport(
      r.canonicalURL,
      if r.title == "" then a.title else r.title,
      if r.author == "" then a.author else r.author,
      if r.summary == "" then TrimSpace(a.summary) else r.summary,
      if r.publishedAt.None? then a.publishedAt else r.publishedAt,
      if r.score == 0 then a.score else r.score,
      tags,
      if a.readAt.Some? && (r.openedAt.None? || a.readAt.value < r.openedAt.value)
        then a.readAt else r.openedAt,
      if newer then a.vote else r.vote,
      if newer then a.votedAt else r.votedAt,
      r.legacyIDs + [a.id])
  }

  lemma MergedMerges(r: IndexImport, g: seq<LegacyArticle>, a: LegacyArticle, tags: seq<string>)
    requires Merges(r, g, r.canonicalURL)
    requires Distinct(tags) && forall t :: t in tags <==> t in r.tags || t in a.tags
    ensures Merges(Merged(r, a, tags), g + [a], r.canonicalURL)
  {
    hide IsFirst, IsVote, IsEarliestRead, HoldsTags, Distinct, TrimSpace;
    IsFirstStep(r.title, "", g, TitleOf, a);
    IsFirstStep(r.author, "", g, AuthorOf, a);
    IsFirstStep(r.summary, "", g, SummaryOf, a);
    IsFirstStep(r.score, 0, g, ScoreOf, a);
    IsFirstStep(r.publishedAt, None, g, PublishedOf, a);
    EarliestReadStep(r.openedAt, g, a);
    VoteStep(r, g, a);
    TagsStep(r.tags, g, a, tags);
    assert IDs(g + [a]) == IDs(g) + [a.id];
  }

  /** Folds one row into the record of its URL: the append to LegacyIDs, then `merge`. */
  method Merge(record: IndexImport, a: LegacyArticle, ghost g: seq<LegacyArticle>)
    returns (r: IndexImport)
    requires Merges(record, g, record.canonicalURL)
    ensures Merges(r, g + [a], record.canonicalURL)
  {
    var title, author, summary := record.title, record.author, record.summary;
    var score, publishedAt := record.score, record.publishedAt;
    var openedAt, vote, votedAt := record.openedAt, record.vote, record.votedAt;
    if title == "" { title := a.title; }
    if author == "" { author := a.author; }
    if summary == "" { summary := TrimSpace(a.summary); }
    if score == 0 { score := a.score; }
    if publishedAt.None? { publishedAt := a.publishedAt; }
    var tags := MergeTags(record.tags, a.tags);
    if a.readAt.Some? && (openedAt.None? || a.readAt.value < openedAt.value) {
      openedAt := a.readAt;
    }
    if a.vote != "" && NewerVote(record, a) {
      vote, votedAt := a.vote, a.votedAt;
    }
    r := IndexImport(record.canonicalURL, title, author, summary, publishedAt, score, tags,
                     openedAt, vote, votedAt, record.legacyIDs + [a.id]);
    assert r == Merged(record, a, tags);
    MergedMerges(record, g, a, tags);
  }

  // ----- What one more row does to the declarative side -----

  function Sourced(n: Counts, hit: bool): Counts {
    if hit then n.(source := n.source + 1) else n
  }

  function Skipped(n: Counts, hit: bool): Counts {
    if hit then n.(skipped := n.skipped + 1) else n
  }

  function Landed(n: Counts, hit: bool, known: bool): Counts {
    if !hit then n
    else if known then n.(duplicate := n.duplicate + 1)
    else n.(transformed := n.transformed + 1)
  }

  lemma Misses()
    ensures forall n :: Sourced(n, false) == n && Skipped(n, false) == n
    ensures forall n, known :: Landed(n, false, known) == n
  {
  }

  lemma CountStep(isWeb: URLTest, rows: seq<LegacyArticle>, a: LegacyArticle, c: DataClass)
    ensures CountCarrying(rows + [a], c) == CountCarrying(rows, c) + if Carries(a, c) then 1 else 0
    ensures CountHomeless(isWeb, rows + [a], c) ==
            CountHomeless(isWeb, rows, c) + if Carries(a, c) && Home(isWeb, a).None? then 1 else 0
    ensures CountBodies(rows + [a]) == CountBodies(rows) + if a.hasBody then 1 else 0
  {
    assert (rows + [a])[..|rows|] == rows;
  }

  lemma AddOne<T>(s: set<T>, x: T)
    ensures |s + {x}| == |s| + if x in s then 0 else 1
  {
    if x in s { assert s + {x} == s; }
  }

  function One(b: bool): int {
    if b then 1 else 0
  }

  lemma BalancedStep(source: int, skipped: int, urls: int, hit: bool, homeless: bool, known: bool)
    ensures var n := Sourced(Balanced(source, skipped, urls), hit);
            Balanced(source + One(hit), skipped + One(hit && homeless),
                     urls + One(hit && !homeless && !known))
            == if homeless then Skipped(n, hit) else Landed(n, hit, known)
  {
  }

  lemma CountsStep(isWeb: URLTest, rows: seq<LegacyArticle>, a: LegacyArticle, c: DataClass)
    requires c in MIGRATED
    ensures var n := Sourced(CountsOf(isWeb, rows, c), Carries(a, c));
            CountsOf(isWeb, rows + [a], c) ==
            if Home(isWeb, a).None? then Skipped(n, Carries(a, c))
            else Landed(n, Carries(a, c), Home(isWeb, a).value in URLsWith(isWeb, rows, c))
  {
    hide Carries, Home, URLsWith, CountCarrying, CountHomeless, Balanced, Sourced, Skipped, Landed;
    URLsStep(isWeb, rows, a, c);
    CountStep(isWeb, rows, a, c);
    var urls, urls' := URLsWith(isWeb, rows, c), URLsWith(isWeb, rows + [a], c);
    var hit, home := Carries(a, c), Home(isWeb, a);
    var known := home.Some? && home.value in urls;
    if hit && home.Some? {
      AddOne(urls, home.value);
    } else {
      assert urls' == urls;
    }
    BalancedStep(CountCarrying(rows, c), CountHomeless(isWeb, rows, c), |urls|, hit, home.None?, known);
  }

  lemma URLsStep(isWeb: URLTest, rows: seq<LegacyArticle>, a: LegacyArticle, c: DataClass)
    ensures URLsWith(isWeb, rows + [a], c) ==
            URLsWith(isWeb, rows, c)
            + if Carries(a, c) && Home(isWeb, a).Some? then {Home(isWeb, a).value} else {}
  {
    assert forall b :: b in rows + [a] <==> b in rows || b == a;
  }

  lemma RecordURLsStep(isWeb: URLTest, rows: seq<LegacyArticle>, a: LegacyArticle)
    ensures RecordURLs(isWeb, rows + [a]) ==
            RecordURLs(isWeb, rows)
            + if Indexed(a) != [] && Home(isWeb, a).Some? then {Home(isWeb, a).value} else {}
  {
    assert forall b :: b in rows + [a] <==> b in rows || b == a;
  }

  lemma GroupStep(isWeb: URLTest, rows: seq<LegacyArticle>, a: LegacyArticle, u: string)
    ensures Group(isWeb, rows + [a], u) ==
            Group(isWeb, rows, u) + if Indexed(a) != [] && Home(isWeb, a) == Some(u) then [a] else []
    ensures SavedGroup(isWeb, rows + [a], u) ==
            SavedGroup(isWeb, rows, u) + if a.isSaved && Home(isWeb, a) == Some(u) then [a] else []
  {
    assert (rows + [a])[..|rows|] == rows;
  }

  lemma {:induction false} GroupIsEmpty(isWeb: URLTest, rows: seq<LegacyArticle>, u: string)
    ensures Group(isWeb, rows, u) == [] <==> u !in RecordURLs(isWeb, rows)
    ensures SavedGroup(isWeb, rows, u) == [] <==> u !in URLsWith(isWeb, rows, SavedURLs)
  {
    if rows != [] {
      var init, a := rows[..|rows| - 1], rows[|rows| - 1];
      assert rows == init + [a];
      GroupIsEmpty(isWeb, init, u);
      GroupStep(isWeb, init, a, u);
      RecordURLsStep(isWeb, init, a);
      URLsStep(isWeb, init, a, SavedURLs);
      CarriedLists(a);
    }
  }

  lemma OneInFront(holds: bool, c: DataClass, s: seq<DataClass>)
    requires Distinct(s) && c !in s
    ensures Distinct(OneIf(holds, c) + s)
  {
    assert [] + s == s;
  }

  lemma CarriedLists(a: LegacyArticle)
    ensures Distinct(Carried(a)) && Distinct(Indexed(a))
    ensures Carries(a, SavedURLs) <==> a.isSaved
    ensures forall c :: c in Carried(a) <==> Carries(a, c)
    ensures forall c :: c in Carried(a) ==> c in MIGRATED
    ensures forall c :: c in Indexed(a) <==> c in Carried(a) && c != SavedURLs
    ensures Carried(a) == [] <==> !a.isSaved && Indexed(a) == []
  {
    hide IndexedClasses, TrimSpace;
    IndexedClassesLists(a.score, a.tags, a.summary, a.readAt, a.vote);
    OneInFront(a.isSaved, SavedURLs, Indexed(a));
    hide Distinct;
    assert forall c :: c in Carried(a) <==> c in OneIf(a.isSaved, SavedURLs) || c in Indexed(a);
  }

  // ----- Classify -----

  datatype Folding = Folding(
    counts: Tally, records: map<string, IndexImport>, bookmarks: map<string, BookmarkImport>,
    seen: map<string, set<DataClass>>)

  ghost predicate Saw(isWeb: URLTest, rows: seq<LegacyArticle>, seen: map<string, set<DataClass>>) {
    forall u, c :: c in MIGRATED && c != SavedURLs ==>
      (Seen(seen, u, c) <==> u in URLsWith(isWeb, rows, c))
  }

  predicate Seen(seen: map<string, set<DataClass>>, u: string, c: DataClass) {
    u in seen && c in seen[u]
  }

  ghost predicate FoldsRecords(isWeb: URLTest, rows: seq<LegacyArticle>,
                               records: map<string, IndexImport>) {
    && records.Keys == RecordURLs(isWeb, rows)
    && forall u :: u in records ==> Merges(records[u], Group(isWeb, rows, u), u)
  }

  ghost predicate FoldsBookmarks(isWeb: URLTest, rows: seq<LegacyArticle>,
                                 bookmarks: map<string, BookmarkImport>) {
    && bookmarks.Keys == URLsWith(isWeb, rows, SavedURLs)
    && forall u :: u in bookmarks ==> IsBookmark(bookmarks[u], SavedGroup(isWeb, rows, u), u)
  }

  ghost predicate Folds(isWeb: URLTest, rows: seq<LegacyArticle>, f: Folding) {
    && TalliesRows(isWeb, rows, f.counts)
    && FoldsRecords(isWeb, rows, f.records)
    && FoldsBookmarks(isWeb, rows, f.bookmarks)
    && Saw(isWeb, rows, f.seen)
  }

  method CountSource(counts: Tally, classes: seq<DataClass>) returns (out: Tally)
    requires Distinct(classes) && forall c :: c in classes ==> c in counts
    ensures out.Keys == counts.Keys
    ensures forall c :: c in counts ==> out[c] == Sourced(counts[c], c in classes)
  {
    out := counts;
    for i := 0 to |classes|
      invariant out.Keys == counts.Keys
      invariant forall c :: c in counts ==> out[c] == Sourced(counts[c], c in classes[..i])
    {
      assert classes[i] !in classes[..i];
      out := out[classes[i] := out[classes[i]].(source := out[classes[i]].source + 1)];
    }
  }

  method CountSkipped(counts: Tally, classes: seq<DataClass>) returns (out: Tally)
    requires Distinct(classes) && forall c :: c in classes ==> c in counts
    ensures out.Keys == counts.Keys
    ensures forall c :: c in counts ==> out[c] == Skipped(counts[c], c in classes)
  {
    out := counts;
    for i := 0 to |classes|
      invariant out.Keys == counts.Keys
      invariant forall c :: c in counts ==> out[c] == Skipped(counts[c], c in classes[..i])
    {
      assert classes[i] !in classes[..i];
      out := out[classes[i] := out[classes[i]].(skipped := out[classes[i]].skipped + 1)];
    }
  }

  /** The closing loop of one row: a class already seen for this URL is a duplicate. */
  method CountIndexed(counts: Tally, classes: seq<DataClass>, known: set<DataClass>)
    returns (out: Tally, known': set<DataClass>)
    requires Distinct(classes) && forall c :: c in classes ==> c in counts
    ensures out.Keys == counts.Keys
    ensures forall c :: c in counts ==> out[c] == Landed(counts[c], c in classes, c in known)
    ensures forall c :: c in known' <==> c in known || c in classes
  {
    out, known' := counts, known;
    for i := 0 to |classes|
      invariant out.Keys == counts.Keys
      invariant forall c :: c in counts ==> out[c] == Landed(counts[c], c in classes[..i], c in known)
      invariant forall c :: c in known' <==> c in known || c in classes[..i]
    {
      var c := classes[i];
      assert c !in classes[..i];
      if c in known' {
        out := out[c := out[c].(duplicate := out[c].duplicate + 1)];
      } else {
        known' := known' + {c};
        out := out[c := out[c].(transformed := out[c].transformed + 1)];
      }
    }
  }

  /** Saves: the first row for a URL makes the Bookmark, later rows are duplicates. */
  method FoldSave(isWeb: URLTest, ghost rows: seq<LegacyArticle>, a: LegacyArticle, key: string,
                  bookmarks: map<string, BookmarkImport>, counts: Tally)
    returns (bookmarks': map<string, BookmarkImport>, counts': Tally)
    requires Home(isWeb, a) == Some(key) && SavedURLs in counts
    requires FoldsBookmarks(isWeb, rows, bookmarks)
    ensures FoldsBookmarks(isWeb, rows + [a], bookmarks')
    ensures counts' == counts[SavedURLs :=
              Landed(counts[SavedURLs], a.isSaved, key in URLsWith(isWeb, rows, SavedURLs))]
  {
    bookmarks', counts' := bookmarks, counts;
    if a.isSaved {
      if key in bookmarks {
        counts' := counts'[SavedURLs := counts'[SavedURLs].(duplicate := counts'[SavedURLs].duplicate + 1)];
        var existing := bookmarks[key];
        bookmarks' := bookmarks[key := existing.(legacyIDs := existing.legacyIDs + [a.id])];
      } else {
        bookmarks' := bookmarks[key := BookmarkImport(key, a.title, [a.id])];
        counts' := counts'[SavedURLs := counts'[SavedURLs].(transformed := counts'[SavedURLs].transformed + 1)];
      }
    }
    BookmarksStep(isWeb, rows, a, key, bookmarks, bookmarks');
  }

  lemma BookmarksStep(isWeb: URLTest, rows: seq<LegacyArticle>, a: LegacyArticle, key: string,
                      bookmarks: map<string, BookmarkImport>, bookmarks': map<string, BookmarkImport>)
    requires Home(isWeb, a) == Some(key)
    requires FoldsBookmarks(isWeb, rows, bookmarks)
    requires bookmarks' ==
             if !a.isSaved then bookmarks
             else if key in bookmarks then
               bookmarks[key := bookmarks[key].(legacyIDs := bookmarks[key].legacyIDs + [a.id])]
             else bookmarks[key := BookmarkImport(key, a.title, [a.id])]
    ensures FoldsBookmarks(isWeb, rows + [a], bookmarks')
  {
    hide Home, Indexed, Carried, URLsWith, Carries, SavedGroup, Group, RecordURLs;
    URLsStep(isWeb, rows, a, SavedURLs);
    CarriedLists(a);
    assert bookmarks'.Keys == URLsWith(isWeb, rows + [a], SavedURLs);
    forall u | u in bookmarks'
      ensures IsBookmark(bookmarks'[u], SavedGroup(isWeb, rows + [a], u), u)
    {
      GroupStep(isWeb, rows, a, u);
      GroupIsEmpty(isWeb, rows, u);
      var g := SavedGroup(isWeb, rows, u);
      assert IDs(g + [a]) == IDs(g) + [a.id];
      assert g + [] == g;
    }
  }

  /** Index data: the row is merged into the record of its URL, made on first use. */
  method FoldIndexed(isWeb: URLTest, ghost rows: seq<LegacyArticle>, a: LegacyArticle, key: string,
                     records: map<string, IndexImport>)
    returns (records': map<string, IndexImport>)
    requires Home(isWeb, a) == Some(key) && Indexed(a) != []
    requires FoldsRecords(isWeb, rows, records)
    ensures FoldsRecords(isWeb, rows + [a], records')
  {
    var record := IndexImport(key, "", "", "", None, 0, [], None, "", None, []);
    GroupIsEmpty(isWeb, rows, key);
    ghost var g := Group(isWeb, rows, key);
    if key in records {
      record := records[key];
    } else {
      assert Merges(record, g, key);
    }
    record := Merge(record, a, g);
    records' := records[key := record];
    RecordsStep(isWeb, rows, a, key, records, records');
  }

  lemma RecordsStep(isWeb: URLTest, rows: seq<LegacyArticle>, a: LegacyArticle, key: string,
                    records: map<string, IndexImport>, records': map<string, IndexImport>)
    requires Home(isWeb, a) == Some(key) && Indexed(a) != []
    requires FoldsRecords(isWeb, rows, records)
    requires key in records' && records' == records[key := records'[key]]
    requires Merges(records'[key], Group(isWeb, rows, key) + [a], key)
    ensures FoldsRecords(isWeb, rows + [a], records')
  {
    hide Home, Indexed, Group, RecordURLs, Merges;
    RecordURLsStep(isWeb, rows, a);
    forall u | u in records' ensures Merges(records'[u], Group(isWeb, rows + [a], u), u) {
      GroupStep(isWeb, rows, a, u);
      assert Group(isWeb, rows, u) + [] == Group(isWeb, rows, u);
    }
  }

  lemma RecordsUntouched(isWeb: URLTest, rows: seq<LegacyArticle>, a: LegacyArticle,
                         records: map<string, IndexImport>)
    requires FoldsRecords(isWeb, rows, records)
    requires Home(isWeb, a).None? || Indexed(a) == []
    ensures FoldsRecords(isWeb, rows + [a], records)
  {
    hide Home, Indexed, Group, RecordURLs, Merges;
    RecordURLsStep(isWeb, rows, a);
    forall u | u in records ensures Merges(records[u], Group(isWeb, rows + [a], u), u) {
      GroupStep(isWeb, rows, a, u);
      assert Group(isWeb, rows, u) + [] == Group(isWeb, rows, u);
    }
  }

  lemma BookmarksUntouched(isWeb: URLTest, rows: seq<LegacyArticle>, a: LegacyArticle,
                           bookmarks: map<string, BookmarkImport>)
    requires FoldsBookmarks(isWeb, rows, bookmarks)
    requires Home(isWeb, a).None? || !a.isSaved
    ensures FoldsBookmarks(isWeb, rows + [a], bookmarks)
  {
    hide Home, Indexed, Carried, Carries, SavedGroup, URLsWith, IsBookmark;
    URLsStep(isWeb, rows, a, SavedURLs);
    CarriedLists(a);
    forall u | u in bookmarks
      ensures IsBookmark(bookmarks[u], SavedGroup(isWeb, rows + [a], u), u)
    {
      GroupStep(isWeb, rows, a, u);
      assert SavedGroup(isWeb, rows, u) + [] == SavedGroup(isWeb, rows, u);
    }
  }

  lemma SawStep(isWeb: URLTest, rows: seq<LegacyArticle>, a: LegacyArticle,
                seen: map<string, set<DataClass>>, seen': map<string, set<DataClass>>)
    requires Saw(isWeb, rows, seen)
    requires forall u, c :: Seen(seen', u, c) <==>
               Seen(seen, u, c) || (Home(isWeb, a) == Some(u) && c in Indexed(a))
    ensures Saw(isWeb, rows + [a], seen')
  {
    hide Home, Indexed, Carried, URLsWith, Carries, Seen;
    CarriedLists(a);
    forall u, c | c in MIGRATED && c != SavedURLs
      ensures Seen(seen', u, c) <==> u in URLsWith(isWeb, rows + [a], c)
    {
      URLsStep(isWeb, rows, a, c);
      assert Carries(a, c) <==> c in Indexed(a);
    }
  }

  lemma SawKey(isWeb: URLTest, rows: seq<LegacyArticle>, seen: map<string, set<DataClass>>,
               u: string, c: DataClass)
    requires Saw(isWeb, rows, seen) && c in MIGRATED && c != SavedURLs
    ensures u in URLsWith(isWeb, rows, c) <==> u in seen && c in seen[u]
  {
    assert Seen(seen, u, c) <==> u in URLsWith(isWeb, rows, c);
  }

  /** The tally once a row has been counted at its source, before it is placed. */
  ghost predicate SourceCounted(before: Tally, a: LegacyArticle, counts: Tally) {
    && before.Keys == CLASSES && counts.Keys == CLASSES
    && counts[SourceConfig] == before[SourceConfig]
    && (var n := before[ArticleBodies];
        counts[ArticleBodies] ==
        if a.hasBody then n.(source := n.source + 1, skipped := n.skipped + 1) else n)
    && forall c :: c in MIGRATED ==> counts[c] == Sourced(before[c], Carries(a, c))
  }

  method CountRow(a: LegacyArticle, before: Tally) returns (counts: Tally)
    requires before.Keys == CLASSES
    ensures SourceCounted(before, a, counts)
  {
    hide Carried, Carries, Sourced;
    CarriedLists(a);
    Misses();
    counts := before;
    if a.hasBody {
      var bodies := counts[ArticleBodies];
      counts := counts[ArticleBodies := bodies.(source := bodies.source + 1, skipped := bodies.skipped + 1)];
    }
    counts := CountSource(counts, Carried(a));
  }

  /** The rest of the loop body, for a row with a web home. */
  method FoldHomed(isWeb: URLTest, ghost rows: seq<LegacyArticle>, a: LegacyArticle, key: string,
                   f: Folding, counted: Tally)
    returns (f': Folding)
    requires Folds(isWeb, rows, f) && SourceCounted(f.counts, a, counted)
    requires Home(isWeb, a) == Some(key)
    ensures Folds(isWeb, rows + [a], f')
  {
    hide Home, Indexed, Carried, Carries, URLsWith, FoldsRecords, FoldsBookmarks, Saw, CountsOf,
      Sourced, Skipped, Landed;
    CarriedLists(a);
    Misses();
    var seen := if key in f.seen then f.seen else f.seen[key := {}];
    var bookmarks, counts := FoldSave(isWeb, rows, a, key, f.bookmarks, counted);
    var indexed := Indexed(a);
    ghost var known := if key in f.seen then f.seen[key] else {};
    forall c | c in MIGRATED && c != SavedURLs
      ensures c in known <==> key in URLsWith(isWeb, rows, c)
    {
      SawKey(isWeb, rows, f.seen, key, c);
    }
    var records := f.records;
    if |indexed| == 0 {
      RecordsUntouched(isWeb, rows, a, f.records);
    } else {
      records := FoldIndexed(isWeb, rows, a, key, f.records);
    }
    var known';
    counts, known' := PlaceIndexed(isWeb, rows, a, key, f.counts, counted, counts, seen[key]);
    SawHomed(isWeb, rows, a, key, f.seen, seen[key := known']);
    f' := Folding(counts, records, bookmarks, seen[key := known']);
  }

  method PlaceIndexed(isWeb: URLTest, ghost rows: seq<LegacyArticle>, a: LegacyArticle, key: string,
                      ghost before: Tally, ghost counted: Tally, saved: Tally, known: set<DataClass>)
    returns (counts: Tally, known': set<DataClass>)
    requires TalliesRows(isWeb, rows, before) && SourceCounted(before, a, counted)
    requires Home(isWeb, a) == Some(key)
    requires saved == counted[SavedURLs :=
               Landed(counted[SavedURLs], a.isSaved, key in URLsWith(isWeb, rows, SavedURLs))]
    requires forall c :: c in MIGRATED && c != SavedURLs ==> (c in known <==> key in URLsWith(isWeb, rows, c))
    ensures TalliesRows(isWeb, rows + [a], counts)
    ensures forall c :: c in known' <==> c in known || c in Indexed(a)
  {
    hide Home, Indexed, Carried, Carries, URLsWith, Landed, TalliesRows;
    CarriedLists(a);
    counts, known' := CountIndexed(saved, Indexed(a), known);
    assert counts[SavedURLs] == saved[SavedURLs] by { SavedIsNotIndexed(a, saved[SavedURLs], SavedURLs in known); }
    PlacedTally(isWeb, rows, a, key, before, counted, counts, known);
  }

  lemma SavedIsNotIndexed(a: LegacyArticle, n: Counts, known: bool)
    ensures SavedURLs !in Indexed(a) && Landed(n, SavedURLs in Indexed(a), known) == n
  {
    CarriedLists(a);
    hide Indexed;
  }

  lemma SawHomed(isWeb: URLTest, rows: seq<LegacyArticle>, a: LegacyArticle, key: string,
                 seen: map<string, set<DataClass>>, seen': map<string, set<DataClass>>)
    requires Saw(isWeb, rows, seen) && Home(isWeb, a) == Some(key) && key in seen'
    requires forall u :: u != key ==> (u in seen' <==> u in seen) && (u in seen ==> seen'[u] == seen[u])
    requires forall c :: c in seen'[key] <==> (key in seen && c in seen[key]) || c in Indexed(a)
    ensures Saw(isWeb, rows + [a], seen')
  {
    hide Home, Indexed, Saw;
    SawStep(isWeb, rows, a, seen, seen');
  }

  lemma PlacedTally(isWeb: URLTest, rows: seq<LegacyArticle>, a: LegacyArticle, key: string,
                    before: Tally, counted: Tally, counts: Tally, known: set<DataClass>)
    requires TalliesRows(isWeb, rows, before) && SourceCounted(before, a, counted)
    requires Home(isWeb, a) == Some(key) && counts.Keys == CLASSES
    requires forall c :: c in MIGRATED && c != SavedURLs ==> (c in known <==> key in URLsWith(isWeb, rows, c))
    requires counts[SavedURLs] ==
             Landed(counted[SavedURLs], a.isSaved, key in URLsWith(isWeb, rows, SavedURLs))
    requires forall c :: c in CLASSES && c != SavedURLs ==>
               counts[c] == Landed(counted[c], c in Indexed(a), c in known)
    ensures TalliesRows(isWeb, rows + [a], counts)
  {
    hide Home, Indexed, Carried, Carries, URLsWith, CountsOf, Sourced, Skipped, Landed;
    CarriedLists(a);
    Misses();
    TalliesStep(isWeb, rows, a, before, counts);
  }

  /** The loop body of `Classify`. */
  method FoldRow(isWeb: URLTest, ghost rows: seq<LegacyArticle>, a: LegacyArticle, f: Folding)
    returns (f': Folding)
    requires Folds(isWeb, rows, f)
    ensures Folds(isWeb, rows + [a], f')
  {
    hide Home, Indexed, Carried, Carries, URLsWith, FoldsRecords, FoldsBookmarks, Saw, CountsOf,
      Sourced, Skipped, Landed;
    CarriedLists(a);
    Misses();
    var counts := CountRow(a, f.counts);
    var classes := Carried(a);
    var home := Home(isWeb, a);
    if |classes| == 0 || home.None? {
      if |classes| != 0 {
        counts := CountSkipped(counts, classes);
      }
      TalliesStep(isWeb, rows, a, f.counts, counts);
      RecordsUntouched(isWeb, rows, a, f.records);
      BookmarksUntouched(isWeb, rows, a, f.bookmarks);
      SawStep(isWeb, rows, a, f.seen, f.seen);
      return f.(counts := counts);
    }
    f' := FoldHomed(isWeb, rows, a, home.value, f, counts);
  }

  lemma TalliesStep(isWeb: URLTest, rows: seq<LegacyArticle>, a: LegacyArticle,
                    counts: Tally, counts': Tally)
    requires TalliesRows(isWeb, rows, counts) && counts'.Keys == CLASSES
    requires counts'[SourceConfig] == counts[SourceConfig]
    requires var n := counts[ArticleBodies];
             counts'[ArticleBodies] ==
             if a.hasBody then n.(source := n.source + 1, skipped := n.skipped + 1) else n
    requires forall c :: c in MIGRATED ==>
               var n := Sourced(counts[c], Carries(a, c));
               counts'[c] ==
               if Home(isWeb, a).None? then Skipped(n, Carries(a, c))
               else Landed(n, Carries(a, c), Home(isWeb, a).value in URLsWith(isWeb, rows, c))
    ensures TalliesRows(isWeb, rows + [a], counts')
  {
    hide Carries, Home, URLsWith, CountsOf, Sourced, Skipped, Landed;
    forall c | c in MIGRATED ensures counts'[c] == CountsOf(isWeb, rows + [a], c) {
      CountsStep(isWeb, rows, a, c);
    }
    ExcludedStep(isWeb, rows, a);
  }

  lemma ExcludedStep(isWeb: URLTest, rows: seq<LegacyArticle>, a: LegacyArticle)
    ensures CountsOf(isWeb, rows + [a], SourceConfig) == CountsOf(isWeb, rows, SourceConfig) == ZERO
    ensures var n := CountsOf(isWeb, rows, ArticleBodies);
            CountsOf(isWeb, rows + [a], ArticleBodies) ==
            if a.hasBody then n.(source := n.source + 1, skipped := n.skipped + 1) else n
  {
    CountStep(isWeb, rows, a, ArticleBodies);
  }

  function RecordURL(r: IndexImport): string { r.canonicalURL }
  predicate RecordLess(a: IndexImport, b: IndexImport) { StrLess(a.canonicalURL, b.canonicalURL) }
  function BookmarkURL(b: BookmarkImport): string { b.url }
  predicate BookmarkLess(a: BookmarkImport, b: BookmarkImport) { StrLess(a.url, b.url) }

  /** A map is walked in an arbitrary order. */
  method Walk<T>(m: map<string, T>) returns (order: seq<string>)
    ensures Distinct(order) && forall u :: u in order <==> u in m
  {
    var keys := m.Keys;
    order := [];
    while keys != {}
      invariant keys <= m.Keys && Distinct(order)
      invariant forall u :: u in order <==> u in m && u !in keys
      decreases |keys|
    {
      var u :| u in keys;
      order := order + [u];
      keys := keys - {u};
    }
  }

  /** Walks the records, sorts each one's tags, and sorts the list by URL. */
  method ListRecords(isWeb: URLTest, ghost rows: seq<LegacyArticle>, records: map<string, IndexImport>)
    returns (out: seq<IndexImport>)
    requires FoldsRecords(isWeb, rows, records)
    ensures ListsRecords(isWeb, rows, out)
  {
    hide Group, RecordURLs, Merges, Sort;
    var order := Walk(records);
    var listed: seq<IndexImport> := [];
    for i := 0 to |order|
      invariant |listed| == i
      invariant forall k :: 0 <= k < i ==> listed[k] == SortTags(records[order[k]])
    {
      listed := listed + [SortTags(records[order[i]])];
    }
    out := Sort(listed, RecordLess);
    ListedRecords(isWeb, rows, records, order, listed);
  }

  lemma ListedRecords(isWeb: URLTest, rows: seq<LegacyArticle>, records: map<string, IndexImport>,
                      order: seq<string>, listed: seq<IndexImport>)
    requires FoldsRecords(isWeb, rows, records)
    requires Distinct(order) && forall u :: u in order <==> u in records
    requires |listed| == |order|
    requires forall k :: 0 <= k < |order| ==> listed[k] == SortTags(records[order[k]])
    ensures ListsRecords(isWeb, rows, Sort(listed, RecordLess))
  {
    hide Group, RecordURLs, Sort, IsFirst, IsVote, IsEarliestRead, HoldsTags, Distinct, IDs, IsRecord;
    var out := Sort(listed, RecordLess);
    forall k | 0 <= k < |order|
      ensures listed[k].canonicalURL == order[k] && order[k] in RecordURLs(isWeb, rows)
      ensures IsRecord(listed[k], Group(isWeb, rows, order[k]), order[k])
    {
      SortTagsMerges(records[order[k]], Group(isWeb, rows, order[k]));
    }
    ListedBy(order, listed, RecordLess, RecordURL);
    forall r | r in out ensures exists k :: 0 <= k < |order| && listed[k] == r {
      assert r in listed;
    }
    assert forall r :: r in out ==> RecordURL(r) == r.canonicalURL;
    forall u | u in RecordURLs(isWeb, rows)
      ensures exists r :: r in out && r.canonicalURL == u
    {
      var k :| 0 <= k < |order| && order[k] == u;
      assert listed[k] in listed;
      assert listed[k] in out;
    }
  }

  lemma ListedBy<T(!new)>(order: seq<string>, listed: seq<T>, less: (T, T) -> bool, key: T -> string)
    requires Distinct(order) && |listed| == |order|
    requires forall k :: 0 <= k < |order| ==> key(listed[k]) == order[k]
    requires forall x, y :: less(x, y) <==> StrLess(key(x), key(y))
    ensures var t := Sort(listed, less);
            && (forall i, j :: 0 <= i < j < |t| ==> StrLess(key(t[i]), key(t[j])))
            && (forall x :: x in t <==> x in listed)
  {
    hide Sort;
    forall x, y | x in listed && y in listed && key(x) == key(y) ensures x == y {
      var i :| 0 <= i < |listed| && listed[i] == x;
      var j :| 0 <= j < |listed| && listed[j] == y;
      assert order[i] == order[j];
    }
    forall i, j | 0 <= i < j < |listed| ensures listed[i] != listed[j] {
      assert key(listed[i]) == order[i] && key(listed[j]) == order[j];
    }
    SortedByKey(listed, less, key);
  }

  function SortTags(r: IndexImport): IndexImport {
    r.(tags := Sort(r.tags, StrLess))
  }

  lemma SortTagsMerges(r: IndexImport, g: seq<LegacyArticle>)
    requires Merges(r, g, r.canonicalURL)
    ensures IsRecord(SortTags(r), g, r.canonicalURL)
  {
    hide IsFirst, IsVote, IsEarliestRead;
    SortedStrings(r.tags);
    DistinctSurvives(r.tags, Sort(r.tags, StrLess), StrLess);
  }

  method ListBookmarks(isWeb: URLTest, ghost rows: seq<LegacyArticle>,
                       bookmarks: map<string, BookmarkImport>)
    returns (out: seq<BookmarkImport>)
    requires FoldsBookmarks(isWeb, rows, bookmarks)
    ensures ListsBookmarks(isWeb, rows, out)
  {
    hide SavedGroup, URLsWith, IsBookmark, Sort;
    var order := Walk(bookmarks);
    var listed: seq<BookmarkImport> := [];
    for i := 0 to |order|
      invariant |listed| == i
      invariant forall k :: 0 <= k < i ==> listed[k] == bookmarks[order[k]]
    {
      listed := listed + [bookmarks[order[i]]];
    }
    out := Sort(listed, BookmarkLess);
    ListedBookmarks(isWeb, rows, bookmarks, order, listed);
  }

  lemma ListedBookmarks(isWeb: URLTest, rows: seq<LegacyArticle>, bookmarks: map<string, BookmarkImport>,
                        order: seq<string>, listed: seq<BookmarkImport>)
    requires FoldsBookmarks(isWeb, rows, bookmarks)
    requires Distinct(order) && forall u :: u in order <==> u in bookmarks
    requires |listed| == |order|
    requires forall k :: 0 <= k < |order| ==> listed[k] == bookmarks[order[k]]
    ensures ListsBookmarks(isWeb, rows, Sort(listed, BookmarkLess))
  {
    hide SavedGroup, URLsWith, Sort, Distinct, IDs;
    var out := Sort(listed, BookmarkLess);
    forall k | 0 <= k < |order|
      ensures listed[k].url == order[k] && order[k] in URLsWith(isWeb, rows, SavedURLs)
      ensures IsBookmark(listed[k], SavedGroup(isWeb, rows, order[k]), order[k])
    {
      assert order[k] in bookmarks;
    }
    ListedBy(order, listed, BookmarkLess, BookmarkURL);
    forall b | b in out ensures exists k :: 0 <= k < |order| && listed[k] == b {
      assert b in listed;
    }
    assert forall b :: b in out ==> BookmarkURL(b) == b.url;
    forall u | u in URLsWith(isWeb, rows, SavedURLs)
      ensures exists b :: b in out && b.url == u
    {
      var k :| 0 <= k < |order| && order[k] == u;
      assert listed[k] in listed;
      assert listed[k] in out;
    }
  }

  lemma NothingFolded(isWeb: URLTest)
    ensures forall c :: c in CLASSES ==> CountsOf(isWeb, [], c) == ZERO
    ensures RecordURLs(isWeb, []) == {}
    ensures forall c :: URLsWith(isWeb, [], c) == {}
  {
  }

  /** The fold over the rows in order. */
  method FoldAll(isWeb: URLTest, ordered: seq<LegacyArticle>) returns (f: Folding)
    ensures Folds(isWeb, ordered, f)
  {
    hide CountsOf;
    var counts: Tally := map c | c in CLASSES :: ZERO;
    NothingFolded(isWeb);
    f := Folding(counts, map[], map[], map[]);
    assert ordered[..0] == [];
    assert Folds(isWeb, ordered[..0], f);
    hide Folds;
    for i := 0 to |ordered|
      invariant Folds(isWeb, ordered[..i], f)
    {
      f := FoldRow(isWeb, ordered[..i], ordered[i], f);
      assert ordered[..i + 1] == ordered[..i] + [ordered[i]];
    }
    assert ordered[..|ordered|] == ordered;
  }

  /** The whole decision. The result is pinned down completely (`PlanIsUnique`), so the order
      the maps are walked in and the order the rows arrive in make no difference. */
  method Classify(isWeb: URLTest, articles: seq<LegacyArticle>) returns (plan: Plan)
    ensures IsPlan(isWeb, articles, plan)
  {
    hide CountsOf;
    var ordered := Ordered(articles);
    var f := FoldAll(isWeb, ordered);
    var records := ListRecords(isWeb, ordered, f.records);
    var bookmarks := ListBookmarks(isWeb, ordered, f.bookmarks);
    plan := Plan(bookmarks, records, f.counts);
  }

  /** Source configuration has no row of its own; it is counted from outside. */
  function ExcludeSources(counts: Tally, total: nat): (out: Tally)
    requires SourceConfig in counts
  {
    var n := counts[SourceConfig];
    counts[SourceConfig := n.(source := n.source + total, skipped := n.skipped + total)]
  }

  // ----- Theorems -----

  lemma FirstIsUnique<T(!new)>(v: T, w: T, blank: T, g: seq<LegacyArticle>, of: LegacyArticle -> T)
    requires IsFirst(v, blank, g, of) && IsFirst(w, blank, g, of)
    ensures v == w
  {
    if v != blank && w != blank {
      var i :| 0 <= i < |g| && of(g[i]) == v && forall j :: 0 <= j < i ==> of(g[j]) == blank;
      var k :| 0 <= k < |g| && of(g[k]) == w && forall j :: 0 <= j < k ==> of(g[j]) == blank;
      assert i == k;
    }
  }

  lemma CurrentVoteIsUnique(g: seq<LegacyArticle>, i: nat, j: nat)
    requires IsCurrentVote(g, i) && IsCurrentVote(g, j)
    ensures i == j
  {
  }

  lemma VoteIsUnique(v: string, at: Option<Time>, w: string, wat: Option<Time>, g: seq<LegacyArticle>)
    requires IsVote(v, at, g) && IsVote(w, wat, g)
    ensures v == w && at == wat
  {
    if v != "" && w != "" {
      var i: nat :| IsCurrentVote(g, i) && g[i].vote == v && g[i].votedAt == at;
      var j: nat :| IsCurrentVote(g, j) && g[j].vote == w && g[j].votedAt == wat;
      CurrentVoteIsUnique(g, i, j);
    }
  }

  /** A group determines its record: every field, down to the order of the tags. */
  lemma RecordIsUnique(r: IndexImport, s: IndexImport, g: seq<LegacyArticle>, url: string)
    requires IsRecord(r, g, url) && IsRecord(s, g, url)
    ensures r == s
  {
    hide IsFirst, IsVote;
    FirstIsUnique(r.title, s.title, "", g, TitleOf);
    FirstIsUnique(r.author, s.author, "", g, AuthorOf);
    FirstIsUnique(r.summary, s.summary, "", g, SummaryOf);
    FirstIsUnique(r.score, s.score, 0, g, ScoreOf);
    FirstIsUnique(r.publishedAt, s.publishedAt, None, g, PublishedOf);
    VoteIsUnique(r.vote, r.votedAt, s.vote, s.votedAt, g);
    AscendingIsUnique(r.tags, s.tags);
  }

  function RecordURLList(records: seq<IndexImport>): (urls: seq<string>)
    ensures |urls| == |records|
    ensures forall i :: 0 <= i < |records| ==> urls[i] == records[i].canonicalURL
  {
    seq(|records|, i requires 0 <= i < |records| => records[i].canonicalURL)
  }

  function BookmarkURLList(bookmarks: seq<BookmarkImport>): (urls: seq<string>)
    ensures |urls| == |bookmarks|
    ensures forall i :: 0 <= i < |bookmarks| ==> urls[i] == bookmarks[i].url
  {
    seq(|bookmarks|, i requires 0 <= i < |bookmarks| => bookmarks[i].url)
  }

  lemma RecordListIsUnique(isWeb: URLTest, rows: seq<LegacyArticle>, a: seq<IndexImport>, b: seq<IndexImport>)
    requires ListsRecords(isWeb, rows, a) && ListsRecords(isWeb, rows, b)
    ensures a == b
  {
    hide IsRecord, Group, RecordURLs;
    var u, v := RecordURLList(a), RecordURLList(b);
    forall x ensures x in u <==> x in v {
      assert x in u <==> x in RecordURLs(isWeb, rows);
      assert x in v <==> x in RecordURLs(isWeb, rows);
    }
    AscendingIsUnique(u, v);
    forall i | 0 <= i < |a| ensures a[i] == b[i] {
      assert a[i].canonicalURL == u[i] == v[i] == b[i].canonicalURL;
      RecordIsUnique(a[i], b[i], Group(isWeb, rows, u[i]), u[i]);
    }
  }

  lemma BookmarkListIsUnique(isWeb: URLTest, rows: seq<LegacyArticle>,
                             a: seq<BookmarkImport>, b: seq<BookmarkImport>)
    requires ListsBookmarks(isWeb, rows, a) && ListsBookmarks(isWeb, rows, b)
    ensures a == b
  {
    hide SavedGroup, URLsWith, IDs;
    var u, v := BookmarkURLList(a), BookmarkURLList(b);
    forall x ensures x in u <==> x in v {
      assert x in u <==> x in URLsWith(isWeb, rows, SavedURLs);
      assert x in v <==> x in URLsWith(isWeb, rows, SavedURLs);
    }
    AscendingIsUnique(u, v);
    forall i | 0 <= i < |a| ensures a[i] == b[i] {
      assert a[i].url == u[i] == v[i] == b[i].url;
    }
  }

  /** The declarative meaning leaves no freedom: there is one plan for a set of rows. */
  lemma PlanIsUnique(isWeb: URLTest, articles: seq<LegacyArticle>, p: Plan, q: Plan)
    requires IsPlan(isWeb, articles, p) && IsPlan(isWeb, articles, q)
    ensures p == q
  {
    var rows := Ordered(articles);
    RecordListIsUnique(isWeb, rows, p.records, q.records);
    BookmarkListIsUnique(isWeb, rows, p.bookmarks, q.bookmarks);
    assert p.counts == q.counts;
  }

  lemma RowLessIsStrictWeakOrder()
    ensures StrictWeakOrder(RowLess)
  {
    StrLessIsStrictWeakOrder();
  }

  ghost predicate DistinctIDs(rows: seq<LegacyArticle>) {
    forall i, j :: 0 <= i < j < |rows| ==> rows[i].id != rows[j].id
  }

  /** Any permutation of the input, and any order of walking the maps, gives the same plan. */
  lemma ClassifyIgnoresOrder(isWeb: URLTest, a: seq<LegacyArticle>, b: seq<LegacyArticle>, p: Plan, q: Plan)
    requires DistinctIDs(a) && multiset(a) == multiset(b)
    requires IsPlan(isWeb, a, p) && IsPlan(isWeb, b, q)
    ensures p == q
  {
    OrderedIgnoresOrder(a, b);
    PlanIsUnique(isWeb, a, p, q);
  }

  lemma OrderedIgnoresOrder(a: seq<LegacyArticle>, b: seq<LegacyArticle>)
    requires DistinctIDs(a) && multiset(a) == multiset(b)
    ensures Ordered(a) == Ordered(b)
  {
    RowLessIsStrictWeakOrder();
    SortSorts(a, RowLess);
    SortSorts(b, RowLess);
    SortKeepsElements(a, RowLess);
    SortKeepsElements(b, RowLess);
    SortKeepsMembers(a, RowLess);
    forall x, y | x in Ordered(a) && y in Ordered(a) && x != y ensures RowLess(x, y) || RowLess(y, x) {
      assert x in a && y in a;
      var i :| 0 <= i < |a| && a[i] == x;
      var j :| 0 <= j < |a| && a[j] == y;
      StrLessTotal(x.id, y.id);
    }
    SortedIsUnique(Ordered(a), Ordered(b), RowLess);
  }

  // ----- A Save is never a preference signal -----

  function Unsaved(a: LegacyArticle): LegacyArticle {
    a.(isSaved := false, savedAt := None)
  }

  function Strip(rows: seq<LegacyArticle>): (out: seq<LegacyArticle>)
    ensures |out| == |rows|
    ensures forall i :: 0 <= i < |rows| ==> out[i] == Unsaved(rows[i])
  {
    seq(|rows|, i requires 0 <= i < |rows| => Unsaved(rows[i]))
  }

  lemma StripCons(x: LegacyArticle, s: seq<LegacyArticle>)
    ensures Strip([x] + s) == [Unsaved(x)] + Strip(s)
  {
    hide Unsaved;
    var t := [x] + s;
    forall i | 0 <= i < |t| ensures Strip(t)[i] == ([Unsaved(x)] + Strip(s))[i] {
      assert t[i] == if i == 0 then x else s[i - 1];
    }
  }

  lemma StripKeepsOrder(a: LegacyArticle, b: LegacyArticle)
    ensures RowLess(Unsaved(a), Unsaved(b)) == RowLess(a, b)
  {
  }

  lemma {:induction false} StripInsert(x: LegacyArticle, s: seq<LegacyArticle>)
    ensures Strip(Insert(x, s, RowLess)) == Insert(Unsaved(x), Strip(s), RowLess)
  {
    hide Unsaved, RowLess, Strip;
    if s == [] {
      StripCons(x, s);
    } else {
      var tail := s[1..];
      StripCons(s[0], tail);
      assert s == [s[0]] + tail;
      StripKeepsOrder(s[0], x);
      if RowLess(s[0], x) {
        StripInsert(x, tail);
        StripCons(s[0], Insert(x, tail, RowLess));
      } else {
        StripCons(x, s);
      }
    }
  }

  lemma {:induction false} StripOrdered(rows: seq<LegacyArticle>)
    ensures Strip(Ordered(rows)) == Ordered(Strip(rows))
  {
    if rows != [] {
      StripOrdered(rows[1..]);
      assert Strip(rows)[1..] == Strip(rows[1..]);
      StripInsert(rows[0], Ordered(rows[1..]));
    }
  }

  lemma UnsavedKeeps(isWeb: URLTest, a: LegacyArticle)
    ensures Indexed(Unsaved(a)) == Indexed(a) && Home(isWeb, Unsaved(a)) == Home(isWeb, a)
    ensures forall c :: c != SavedURLs ==> (Carries(Unsaved(a), c) <==> Carries(a, c))
  {
    CarriedLists(a);
    CarriedLists(Unsaved(a));
  }

  lemma {:induction false} StripGroup(isWeb: URLTest, rows: seq<LegacyArticle>, u: string)
    ensures Group(isWeb, Strip(rows), u) == Strip(Group(isWeb, rows, u))
  {
    if rows != [] {
      var init, a := rows[..|rows| - 1], rows[|rows| - 1];
      assert rows == init + [a] && Strip(rows) == Strip(init) + [Unsaved(a)];
      StripGroup(isWeb, init, u);
      GroupStep(isWeb, init, a, u);
      GroupStep(isWeb, Strip(init), Unsaved(a), u);
      UnsavedKeeps(isWeb, a);
      assert Strip(Group(isWeb, init, u) + [a]) == Strip(Group(isWeb, init, u)) + [Unsaved(a)];
    }
  }

  lemma StripRecord(r: IndexImport, g: seq<LegacyArticle>, url: string)
    requires IsRecord(r, g, url)
    ensures IsRecord(r, Strip(g), url)
  {
    hide TrimSpace;
    StripFirst(r.title, "", g, TitleOf);
    StripFirst(r.author, "", g, AuthorOf);
    StripFirst(r.summary, "", g, SummaryOf);
    StripFirst(r.score, 0, g, ScoreOf);
    StripFirst(r.publishedAt, None, g, PublishedOf);
    StripSignals(r, g);
    assert IDs(Strip(g)) == IDs(g);
  }

  lemma StripFirst<T(!new)>(v: T, blank: T, g: seq<LegacyArticle>, of: LegacyArticle -> T)
    requires IsFirst(v, blank, g, of) && forall a :: of(Unsaved(a)) == of(a)
    ensures IsFirst(v, blank, Strip(g), of)
  {
    if v != blank {
      var i :| 0 <= i < |g| && of(g[i]) == v && forall j :: 0 <= j < i ==> of(g[j]) == blank;
      assert of(Strip(g)[i]) == v;
    }
  }

  lemma StripSignals(r: IndexImport, g: seq<LegacyArticle>)
    requires HoldsTags(r.tags, g) && IsEarliestRead(r.openedAt, g) && IsVote(r.vote, r.votedAt, g)
    ensures HoldsTags(r.tags, Strip(g)) && IsEarliestRead(r.openedAt, Strip(g))
    ensures IsVote(r.vote, r.votedAt, Strip(g))
  {
    var h := Strip(g);
    forall t ensures t in r.tags <==> exists i :: 0 <= i < |h| && t in h[i].tags {
      if t in r.tags {
        var i :| 0 <= i < |g| && t in g[i].tags;
        assert t in h[i].tags;
      }
      if i :| 0 <= i < |h| && t in h[i].tags { assert t in g[i].tags; }
    }
    if r.openedAt.Some? {
      var i :| 0 <= i < |g| && g[i].readAt == r.openedAt;
      assert h[i].readAt == r.openedAt;
    }
    if r.vote != "" {
      var i: nat :| IsCurrentVote(g, i) && g[i].vote == r.vote && g[i].votedAt == r.votedAt;
      assert IsCurrentVote(h, i);
    }
  }

  lemma StripURLs(isWeb: URLTest, rows: seq<LegacyArticle>)
    ensures RecordURLs(isWeb, Strip(rows)) == RecordURLs(isWeb, rows)
    ensures forall c :: c != SavedURLs ==> URLsWith(isWeb, Strip(rows), c) == URLsWith(isWeb, rows, c)
  {
    hide Indexed, Home, Carries;
    var s := Strip(rows);
    forall a | a in rows ensures Unsaved(a) in s && Indexed(Unsaved(a)) == Indexed(a) {
      var i :| 0 <= i < |rows| && rows[i] == a;
      assert s[i] == Unsaved(a);
      UnsavedKeeps(isWeb, a);
    }
    forall b | b in s ensures exists a :: a in rows && b == Unsaved(a) {
      var i :| 0 <= i < |s| && s[i] == b;
      assert rows[i] in rows;
    }
    forall a | a in rows { UnsavedKeeps(isWeb, a); }
  }

  lemma {:induction false} StripCounts(isWeb: URLTest, rows: seq<LegacyArticle>, c: DataClass)
    requires c != SavedURLs
    ensures CountCarrying(Strip(rows), c) == CountCarrying(rows, c)
    ensures CountHomeless(isWeb, Strip(rows), c) == CountHomeless(isWeb, rows, c)
    ensures CountBodies(Strip(rows)) == CountBodies(rows)
  {
    if rows != [] {
      hide Carries, Home;
      var init, a := rows[..|rows| - 1], rows[|rows| - 1];
      assert rows == init + [a] && Strip(rows) == Strip(init) + [Unsaved(a)];
      StripCounts(isWeb, init, c);
      CountStep(isWeb, init, a, c);
      CountStep(isWeb, Strip(init), Unsaved(a), c);
      UnsavedKeeps(isWeb, a);
    }
  }

  lemma StripLists(isWeb: URLTest, rows: seq<LegacyArticle>, records: seq<IndexImport>)
    requires ListsRecords(isWeb, rows, records)
    ensures ListsRecords(isWeb, Strip(rows), records)
  {
    hide IsRecord, Group, RecordURLs;
    StripURLs(isWeb, rows);
    forall r | r in records
      ensures IsRecord(r, Group(isWeb, Strip(rows), r.canonicalURL), r.canonicalURL)
    {
      StripGroup(isWeb, rows, r.canonicalURL);
      StripRecord(r, Group(isWeb, rows, r.canonicalURL), r.canonicalURL);
    }
  }

  lemma StripAgrees(a: seq<LegacyArticle>, b: seq<LegacyArticle>)
    requires |a| == |b| && forall i :: 0 <= i < |a| ==> Unsaved(a[i]) == Unsaved(b[i])
    ensures Strip(Ordered(a)) == Strip(Ordered(b))
  {
    hide Unsaved;
    assert Strip(a) == Strip(b);
    StripOrdered(a);
    StripOrdered(b);
  }

  lemma StripRecords(isWeb: URLTest, r: seq<LegacyArticle>, s: seq<LegacyArticle>,
                     x: seq<IndexImport>, y: seq<IndexImport>)
    requires Strip(r) == Strip(s) && ListsRecords(isWeb, r, x) && ListsRecords(isWeb, s, y)
    ensures x == y
  {
    hide ListsRecords, Strip;
    StripLists(isWeb, r, x);
    StripLists(isWeb, s, y);
    RecordListIsUnique(isWeb, Strip(r), x, y);
  }

  lemma StripTallies(isWeb: URLTest, r: seq<LegacyArticle>, s: seq<LegacyArticle>, c: DataClass)
    requires Strip(r) == Strip(s) && c != SavedURLs
    ensures CountsOf(isWeb, r, c) == CountsOf(isWeb, s, c)
  {
    hide URLsWith, Strip;
    StripURLs(isWeb, r);
    StripURLs(isWeb, s);
    StripCounts(isWeb, r, c);
    StripCounts(isWeb, s, c);
  }

  /** Changing IsSaved and SavedAt on any set of rows leaves every Article Index record, and
      every tally but the one of saved URLs, as it was. */
  lemma SavesDoNotInterfere(isWeb: URLTest, a: seq<LegacyArticle>, b: seq<LegacyArticle>, p: Plan, q: Plan)
    requires |a| == |b|
    requires forall i :: 0 <= i < |a| ==> b[i] == a[i].(isSaved := b[i].isSaved, savedAt := b[i].savedAt)
    requires IsPlan(isWeb, a, p) && IsPlan(isWeb, b, q)
    ensures p.records == q.records
    ensures forall c :: c in CLASSES && c != SavedURLs ==> p.counts[c] == q.counts[c]
  {
    assert forall i :: 0 <= i < |a| ==> Unsaved(a[i]) == Unsaved(b[i]);
    hide ListsRecords, ListsBookmarks, CountsOf, Ordered, Strip, Unsaved;
    StripAgrees(a, b);
    StripRecords(isWeb, Ordered(a), Ordered(b), p.records, q.records);
    forall c | c in CLASSES && c != SavedURLs ensures p.counts[c] == q.counts[c] {
      StripTallies(isWeb, Ordered(a), Ordered(b), c);
    }
  }
}
