/** What a plan says of the legacy rows, in the words of the rows alone: which URL each row reaches,
    and which row decides each field (internal/ownership/plan.go). */
module OwnershipMeaning {
  import opened Sorting
  import opened Counting
  import opened Text
  import opened OwnershipPlan
  import opened OwnershipRun

  // ----- Where rows go -----

  /** `u` is a web URL, not blank. */
  predicate Web(isWeb: URLTest, u: string) {
    u != "" && isWeb(u)
  }

  /** A row moves to its canonical URL, or to its external one when the canonical one is no web URL. */
  predicate MovesTo(isWeb: URLTest, a: LegacyArticle, u: string) {
    var canonical, external := TrimSpace(a.canonicalURL), TrimSpace(a.externalURL);
    || (Web(isWeb, canonical) && u == canonical)
    || (!Web(isWeb, canonical) && Web(isWeb, external) && u == external)
  }

  /** A row with something for the Article Index; being saved is nothing. */
  predicate HasSignals(a: LegacyArticle) {
    a.score > 0 || |a.tags| > 0 || TrimSpace(a.summary) != "" || a.readAt.Some? || a.vote != ""
  }

  /** The rows that make the record, or the Bookmark, of `u`. */
  ghost predicate Feeds(isWeb: URLTest, articles: seq<LegacyArticle>, u: string, a: LegacyArticle) {
    a in articles && HasSignals(a) && MovesTo(isWeb, a, u)
  }

  ghost predicate Saves(isWeb: URLTest, articles: seq<LegacyArticle>, u: string, a: LegacyArticle) {
    a in articles && a.isSaved && MovesTo(isWeb, a, u)
  }

  lemma HomeMeans(isWeb: URLTest, a: LegacyArticle, u: string)
    ensures Home(isWeb, a) == Some(u) <==> MovesTo(isWeb, a, u)
  {
    hide TrimSpace;
  }

  lemma SignalsMean(a: LegacyArticle)
    ensures Indexed(a) != [] <==> HasSignals(a)
  {
    hide IndexedClasses, TrimSpace;
    var l := Indexed(a);
    IndexedClassesLists(a.score, a.tags, a.summary, a.readAt, a.vote);
    assert l != [] ==> l[0] in l;
    assert HasSignals(a) <==> Scores in l || Tags in l || Summaries in l || Opens in l || Votes in l;
  }

  lemma GroupMeans(isWeb: URLTest, articles: seq<LegacyArticle>, u: string)
    ensures forall a :: a in Group(isWeb, Ordered(articles), u) <==> Feeds(isWeb, articles, u, a)
  {
    hide Indexed, Home, HasSignals, MovesTo, Group, Sort;
    GroupMembers(isWeb, Ordered(articles), u);
    OrderedMembers(articles);
    forall a ensures Home(isWeb, a) == Some(u) <==> MovesTo(isWeb, a, u) { HomeMeans(isWeb, a, u); }
    forall a ensures Indexed(a) != [] <==> HasSignals(a) { SignalsMean(a); }
  }

  lemma {:induction false} SavedGroupMembers(isWeb: URLTest, rows: seq<LegacyArticle>, u: string)
    ensures forall a :: a in SavedGroup(isWeb, rows, u) <==> a in rows && a.isSaved && Home(isWeb, a) == Some(u)
  {
    hide Home;
    if rows != [] {
      var init, last := rows[..|rows| - 1], rows[|rows| - 1];
      assert rows == init + [last];
      SavedGroupMembers(isWeb, init, u);
    }
  }

  lemma SavedGroupMeans(isWeb: URLTest, articles: seq<LegacyArticle>, u: string)
    ensures forall a :: a in SavedGroup(isWeb, Ordered(articles), u) <==> Saves(isWeb, articles, u, a)
  {
    hide Home, MovesTo, SavedGroup, Sort;
    SavedGroupMembers(isWeb, Ordered(articles), u);
    OrderedMembers(articles);
    forall a ensures Home(isWeb, a) == Some(u) <==> MovesTo(isWeb, a, u) { HomeMeans(isWeb, a, u); }
  }

  lemma IDsMean(g: seq<LegacyArticle>, id: string)
    ensures id in IDs(g) <==> exists a :: a in g && a.id == id
  {
    if id in IDs(g) {
      var i :| 0 <= i < |g| && IDs(g)[i] == id;
      assert g[i] in g;
    }
    if a :| a in g && a.id == id {
      var i :| 0 <= i < |g| && g[i] == a;
      assert IDs(g)[i] == id;
    }
  }

  /** A row's ID is in the record of a URL exactly when the row has something for the Article Index
      and moves to that URL; so a row with a web URL feeds the record of that URL and no other, and a
      row without one feeds none. */
  lemma RecordsHoldTheirRows(isWeb: URLTest, articles: seq<LegacyArticle>, p: Plan, u: string, id: string)
    requires IsPlan(isWeb, articles, p)
    ensures (exists r :: r in p.records && r.canonicalURL == u && id in r.legacyIDs) <==>
            exists a :: Feeds(isWeb, articles, u, a) && a.id == id
  {
    hide Group, Feeds, IDs, ListsBookmarks, TalliesRows, Sort, RecordURLs;
    var rows := Ordered(articles);
    GroupMeans(isWeb, articles, u);
    IDsMean(Group(isWeb, rows, u), id);
    if r :| r in p.records && r.canonicalURL == u && id in r.legacyIDs {
      assert r.legacyIDs == IDs(Group(isWeb, rows, u));
    }
    if a :| Feeds(isWeb, articles, u, a) && a.id == id {
      FedURL(isWeb, articles, u, a);
      var r :| r in p.records && r.canonicalURL == u;
      assert r.legacyIDs == IDs(Group(isWeb, rows, u));
    }
  }

  lemma FedURL(isWeb: URLTest, articles: seq<LegacyArticle>, u: string, a: LegacyArticle)
    requires Feeds(isWeb, articles, u, a)
    ensures u in RecordURLs(isWeb, Ordered(articles))
  {
    hide Home, Indexed, MovesTo, HasSignals, Sort;
    OrderedMembers(articles);
    HomeMeans(isWeb, a, u);
    SignalsMean(a);
  }

  /** And in the Bookmark of a URL exactly when the row is saved and moves there. */
  lemma BookmarksHoldTheirRows(isWeb: URLTest, articles: seq<LegacyArticle>, p: Plan, u: string, id: string)
    requires IsPlan(isWeb, articles, p)
    ensures (exists b :: b in p.bookmarks && b.url == u && id in b.legacyIDs) <==>
            exists a :: Saves(isWeb, articles, u, a) && a.id == id
  {
    hide SavedGroup, Saves, IDs, ListsRecords, TalliesRows, Sort, URLsWith;
    var rows := Ordered(articles);
    SavedGroupMeans(isWeb, articles, u);
    IDsMean(SavedGroup(isWeb, rows, u), id);
    if b :| b in p.bookmarks && b.url == u && id in b.legacyIDs {
      assert b.legacyIDs == IDs(SavedGroup(isWeb, rows, u));
    }
    if a :| Saves(isWeb, articles, u, a) && a.id == id {
      SavedURL(isWeb, articles, u, a);
      var b :| b in p.bookmarks && b.url == u;
      assert b.legacyIDs == IDs(SavedGroup(isWeb, rows, u));
    }
  }

  lemma SavedURL(isWeb: URLTest, articles: seq<LegacyArticle>, u: string, a: LegacyArticle)
    requires Saves(isWeb, articles, u, a)
    ensures u in URLsWith(isWeb, Ordered(articles), SavedURLs)
  {
    hide Home, Indexed, MovesTo, Sort;
    OrderedMembers(articles);
    HomeMeans(isWeb, a, u);
  }

  // ----- Which row decides -----

  predicate Older(a: LegacyArticle, b: LegacyArticle) {
    a.createdAt < b.createdAt || (a.createdAt == b.createdAt && StrLess(a.id, b.id))
  }

  lemma OlderIsRowLess(a: LegacyArticle, b: LegacyArticle)
    ensures Older(a, b) <==> RowLess(a, b)
  {
  }

  lemma {:induction false} GroupSorted(isWeb: URLTest, rows: seq<LegacyArticle>, u: string)
    requires SortedBy(rows, RowLess)
    ensures SortedBy(Group(isWeb, rows, u), RowLess)
  {
    hide Indexed, Home, RowLess;
    if rows != [] {
      var init, last := rows[..|rows| - 1], rows[|rows| - 1];
      GroupSorted(isWeb, init, u);
      GroupMembers(isWeb, init, u);
      var g := Group(isWeb, init, u);
      forall i | 0 <= i < |g| ensures !RowLess(last, g[i]) {
        assert g[i] in g;
        var k :| 0 <= k < |init| && init[k] == g[i];
        assert rows[k] == g[i];
      }
    }
  }

  lemma {:induction false} SavedGroupSorted(isWeb: URLTest, rows: seq<LegacyArticle>, u: string)
    requires SortedBy(rows, RowLess)
    ensures SortedBy(SavedGroup(isWeb, rows, u), RowLess)
  {
    hide Home, RowLess;
    if rows != [] {
      var init, last := rows[..|rows| - 1], rows[|rows| - 1];
      SavedGroupSorted(isWeb, init, u);
      SavedGroupMembers(isWeb, init, u);
      var g := SavedGroup(isWeb, init, u);
      forall i | 0 <= i < |g| ensures !RowLess(last, g[i]) {
        assert g[i] in g;
        var k :| 0 <= k < |init| && init[k] == g[i];
        assert rows[k] == g[i];
      }
    }
  }

  /** `v` is the value of the oldest row that has one. */
  ghost predicate OldestSays<T(!new)>(isWeb: URLTest, articles: seq<LegacyArticle>, u: string,
                                      v: T, blank: T, of: LegacyArticle -> T) {
    if v == blank then forall a :: Feeds(isWeb, articles, u, a) ==> of(a) == blank
    else
      exists a ::
        && Feeds(isWeb, articles, u, a) && of(a) == v
        && forall b :: Feeds(isWeb, articles, u, b) && Older(b, a) ==> of(b) == blank
  }

  function TheTitle(a: LegacyArticle): string { a.title }
  function TheAuthor(a: LegacyArticle): string { a.author }
  function TheSummary(a: LegacyArticle): string { TrimSpace(a.summary) }
  function TheScore(a: LegacyArticle): int { a.score }
  function TheDate(a: LegacyArticle): Option<Time> { a.publishedAt }

  lemma FirstIsOldest<T(!new)>(isWeb: URLTest, articles: seq<LegacyArticle>, u: string, g: seq<LegacyArticle>,
                               v: T, blank: T, first: LegacyArticle -> T, of: LegacyArticle -> T)
    requires SortedBy(g, RowLess) && IsFirst(v, blank, g, first) && forall a :: first(a) == of(a)
    requires forall a :: a in g <==> Feeds(isWeb, articles, u, a)
    ensures OldestSays(isWeb, articles, u, v, blank, of)
  {
    hide Feeds;
    if v == blank {
      forall a | Feeds(isWeb, articles, u, a) ensures of(a) == blank {
        var i :| 0 <= i < |g| && g[i] == a;
        assert first(g[i]) == blank;
      }
    } else {
      var i :| 0 <= i < |g| && first(g[i]) == v && forall j :: 0 <= j < i ==> first(g[j]) == blank;
      assert g[i] in g;
      forall b | Feeds(isWeb, articles, u, b) && Older(b, g[i]) ensures of(b) == blank {
        OlderIsRowLess(b, g[i]);
        RowLessIsStrictWeakOrder();
        var j :| 0 <= j < |g| && g[j] == b;
        assert j < i;
        assert first(g[j]) == blank;
      }
    }
  }

  lemma RecordOfGroup(isWeb: URLTest, articles: seq<LegacyArticle>, p: Plan, r: IndexImport)
    requires IsPlan(isWeb, articles, p) && r in p.records
    ensures var g := Group(isWeb, Ordered(articles), r.canonicalURL);
            IsRecord(r, g, r.canonicalURL) && SortedBy(g, RowLess)
  {
    hide ListsBookmarks, TalliesRows, IsRecord, Group, RecordURLs;
    RowLessIsStrictWeakOrder();
    SortSorts(articles, RowLess);
    hide Sort;
    GroupSorted(isWeb, Ordered(articles), r.canonicalURL);
  }

  /** Of each plain field the oldest row that has it decides. */
  lemma OldestDecides(isWeb: URLTest, articles: seq<LegacyArticle>, p: Plan, r: IndexImport)
    requires IsPlan(isWeb, articles, p) && r in p.records
    ensures var u := r.canonicalURL;
            && OldestSays(isWeb, articles, u, r.title, "", TheTitle)
            && OldestSays(isWeb, articles, u, r.author, "", TheAuthor)
            && OldestSays(isWeb, articles, u, r.summary, "", TheSummary)
            && OldestSays(isWeb, articles, u, r.score, 0, TheScore)
            && OldestSays(isWeb, articles, u, r.publishedAt, None, TheDate)
  {
    hide IsPlan, Group, Feeds, SortedBy, TrimSpace, IsFirst, OldestSays, IsVote, Sort;
    var u := r.canonicalURL;
    var g := Group(isWeb, Ordered(articles), u);
    RecordOfGroup(isWeb, articles, p, r);
    GroupMeans(isWeb, articles, u);
    FirstIsOldest(isWeb, articles, u, g, r.title, "", TitleOf, TheTitle);
    FirstIsOldest(isWeb, articles, u, g, r.author, "", AuthorOf, TheAuthor);
    FirstIsOldest(isWeb, articles, u, g, r.summary, "", SummaryOf, TheSummary);
    FirstIsOldest(isWeb, articles, u, g, r.score, 0, ScoreOf, TheScore);
    FirstIsOldest(isWeb, articles, u, g, r.publishedAt, None, PublishedOf, TheDate);
  }

  /** The tags are those of all rows, the Open is the earliest, and the vote is one that no row's is
      newer than: of dated votes the latest, and an undated one only when none is dated. */
  lemma AllRowsDecide(isWeb: URLTest, articles: seq<LegacyArticle>, p: Plan, r: IndexImport)
    requires IsPlan(isWeb, articles, p) && r in p.records
    ensures var u := r.canonicalURL;
            && (forall t :: t in r.tags <==> exists a :: Feeds(isWeb, articles, u, a) && t in a.tags)
            && (forall a :: Feeds(isWeb, articles, u, a) && a.readAt.Some? ==>
                  r.openedAt.Some? && r.openedAt.value <= a.readAt.value)
            && (r.openedAt.Some? ==> exists a :: Feeds(isWeb, articles, u, a) && a.readAt == r.openedAt)
            && (forall a :: Feeds(isWeb, articles, u, a) && a.vote != "" ==>
                  && r.vote != ""
                  && (a.votedAt.Some? ==> r.votedAt.Some? && a.votedAt.value <= r.votedAt.value))
            && (r.vote != "" ==>
                  exists a :: Feeds(isWeb, articles, u, a) && a.vote == r.vote && a.votedAt == r.votedAt)
  {
    hide IsPlan, Group, Feeds, SortedBy, IsFirst, Sort;
    var u := r.canonicalURL;
    var g := Group(isWeb, Ordered(articles), u);
    RecordOfGroup(isWeb, articles, p, r);
    GroupMeans(isWeb, articles, u);
    forall i | 0 <= i < |g| ensures Feeds(isWeb, articles, u, g[i]) { assert g[i] in g; }
    forall a | Feeds(isWeb, articles, u, a) ensures exists i :: 0 <= i < |g| && g[i] == a { assert a in g; }
  }

  /** A Bookmark has the title of its oldest row. */
  lemma OldestNamesBookmark(isWeb: URLTest, articles: seq<LegacyArticle>, p: Plan, b: BookmarkImport)
    requires IsPlan(isWeb, articles, p) && b in p.bookmarks
    ensures exists a :: Saves(isWeb, articles, b.url, a) && a.title == b.title
                        && forall other :: Saves(isWeb, articles, b.url, other) ==> !Older(other, a)
  {
    hide ListsRecords, TalliesRows, SavedGroup, URLsWith, Saves, IDs;
    var rows, u := Ordered(articles), b.url;
    RowLessIsStrictWeakOrder();
    SortSorts(articles, RowLess);
    hide Sort;
    SavedGroupSorted(isWeb, rows, u);
    SavedGroupMeans(isWeb, articles, u);
    var g := SavedGroup(isWeb, rows, u);
    assert g[0] in g;
    forall other | Saves(isWeb, articles, u, other) ensures !Older(other, g[0]) {
      OlderIsRowLess(other, g[0]);
      var j :| 0 <= j < |g| && g[j] == other;
    }
  }

  // ----- Counts -----

  /** What is counted as transformed is what the plan carries: one Bookmark or record for each URL, but
      for a masked score. */
  lemma TransformedIsCarried(isWeb: URLTest, articles: seq<LegacyArticle>, p: Plan, c: DataClass)
    requires IsPlan(isWeb, articles, p) && c in MIGRATED
    ensures c == SavedURLs ==> p.counts[c].transformed == |p.bookmarks|
    ensures c != SavedURLs && c != Scores ==> p.counts[c].transformed == Holding(p.records, c)
    ensures c == Scores ==>
              (p.counts[c].transformed == Holding(p.records, c) <==> NoScoreMasked(isWeb, articles))
    ensures p.counts[c].source == p.counts[c].skipped + p.counts[c].duplicate + p.counts[c].transformed
  {
    hide ListsRecords, ListsBookmarks, Group, Masked, URLsWith, Sort, CountCarrying, CountHomeless, Holding;
    var rows := Ordered(articles);
    assert p.counts[c] == Balanced(CountCarrying(rows, c), CountHomeless(isWeb, rows, c), |URLsWith(isWeb, rows, c)|);
    hide TalliesRows;
    if c == SavedURLs {
      BookmarksMeetPromise(isWeb, rows, p.bookmarks);
    } else {
      RecordsMeetPromise(isWeb, rows, p.records, c);
    }
  }

  /** A row brings a class when it has something of it. */
  predicate Brings(a: LegacyArticle, c: DataClass) {
    match c
    case SavedURLs => a.isSaved
    case Scores => a.score > 0
    case Tags => |a.tags| > 0
    case Summaries => TrimSpace(a.summary) != ""
    case Opens => a.readAt.Some?
    case Votes => a.vote != ""
    case ArticleBodies => a.hasBody
    case SourceConfig => false
  }

  /** A row with no web URL moves nowhere. */
  predicate Stays(isWeb: URLTest, a: LegacyArticle) {
    !Web(isWeb, TrimSpace(a.canonicalURL)) && !Web(isWeb, TrimSpace(a.externalURL))
  }

  function Bringing(rows: seq<LegacyArticle>, c: DataClass): set<nat> {
    set i | 0 <= i < |rows| && Brings(rows[i], c)
  }

  function Staying(isWeb: URLTest, rows: seq<LegacyArticle>, c: DataClass): set<nat> {
    set i | 0 <= i < |rows| && Brings(rows[i], c) && Stays(isWeb, rows[i])
  }

  lemma CarriesMeans(a: LegacyArticle, c: DataClass)
    requires c in MIGRATED
    ensures Carries(a, c) <==> Brings(a, c)
  {
    CarriedLists(a);
    IndexedClassesLists(a.score, a.tags, a.summary, a.readAt, a.vote);
    hide IndexedClasses, Carried, TrimSpace;
  }

  lemma StaysMeans(isWeb: URLTest, a: LegacyArticle)
    ensures Home(isWeb, a).None? <==> Stays(isWeb, a)
  {
    hide TrimSpace;
  }

  lemma {:induction false} CountsOfRows(isWeb: URLTest, rows: seq<LegacyArticle>, c: DataClass)
    ensures c in MIGRATED ==> CountCarrying(rows, c) == |Bringing(rows, c)|
    ensures c in MIGRATED ==> CountHomeless(isWeb, rows, c) == |Staying(isWeb, rows, c)|
    ensures CountBodies(rows) == |Bringing(rows, ArticleBodies)|
  {
    hide Home, Carries, Stays;
    if rows != [] {
      var n := |rows| - 1;
      var a := rows[n];
      CountsOfRows(isWeb, rows[..n], c);
      if c in MIGRATED { CarriesMeans(a, c); }
      StaysMeans(isWeb, a);
      OneMore(Bringing(rows[..n], ArticleBodies), Bringing(rows, ArticleBodies), n, a.hasBody);
      hide Brings;
      OneMore(Bringing(rows[..n], c), Bringing(rows, c), n, Brings(a, c));
      OneMore(Staying(isWeb, rows[..n], c), Staying(isWeb, rows, c), n, Brings(a, c) && Stays(isWeb, a));
    } else {
      assert Bringing(rows, c) == {} && Bringing(rows, ArticleBodies) == {} && Staying(isWeb, rows, c) == {};
    }
  }

  /** The source count of a class is the number of rows that bring it, and the skipped count that of
      those with no web URL; Article bodies are counted and all skipped. */
  lemma CountsAreOfRows(isWeb: URLTest, articles: seq<LegacyArticle>, p: Plan, c: DataClass)
    requires IsPlan(isWeb, articles, p) && c in MIGRATED
    ensures var rows := Ordered(articles);
            && multiset(rows) == multiset(articles)
            && p.counts[c].source == |Bringing(rows, c)|
            && p.counts[c].skipped == |Staying(isWeb, rows, c)|
            && p.counts[ArticleBodies].source == p.counts[ArticleBodies].skipped == |Bringing(rows, ArticleBodies)|
  {
    hide ListsRecords, ListsBookmarks, URLsWith, Sort, CountCarrying, CountHomeless, CountBodies, Bringing, Staying;
    var rows := Ordered(articles);
    SortKeepsElements(articles, RowLess);
    CountsOfRows(isWeb, rows, c);
    assert p.counts[c] == CountsOf(isWeb, rows, c);
    assert p.counts[ArticleBodies] == CountsOf(isWeb, rows, ArticleBodies);
    hide TalliesRows;
  }
}
