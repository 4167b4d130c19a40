/** The daily Digest as state (internal/digestartifact/service.go over
    internal/storage/digest_artifact_repo.go): one artifact per date, each drawn from the
    Enrichment window that starts where the previous one ended. */
module DigestWindow {
  import opened Text
  import opened Sorting
  import opened DigestSelection

  type Time = int
  type Day = int

  /** 72 hours, in the seconds of the database clock. */
  const LOOKBACK: Time := 72 * 3600

  /** An Article Index row as the Digest sees it: `enrichedAt` is set when Enrichment completes. */
  datatype IndexRow = IndexRow(
    canonicalURL: string, title: string, summary: string, source: string, score: int,
    topics: seq<string>, enrichedAt: Option<Time>)

  datatype Window = Window(since: Time, until: Time)

  /** A stored artifact. Rows older than the window columns have none and count as ending when
      they were created. */
  datatype Artifact = Artifact(
    day: Day, items: seq<Candidate>, candidateCount: nat, floorPassCount: nat,
    window: Option<Window>, createdAt: Time)

  function End(a: Artifact): Time {
    match a.window
    case None => a.createdAt
    case Some(w) => w.until
  }

  datatype Settings = Settings(floor: int, max: nat)

  /** `NewService`. */
  function Configure(floor: int, max: int): (s: Settings)
    ensures 1 <= s.max <= 10 && s.floor >= 1
    ensures s.max == if 1 <= max <= 10 then max else 10
    ensures s.floor == if floor >= 1 then floor else 3
  {
    Settings(if floor <= 0 then 3 else floor, if max <= 0 || max > 10 then 10 else max)
  }

  type Digests = map<Day, Artifact>
  type Rows = map<string, IndexRow>

  predicate InWindow(row: IndexRow, w: Window) {
    row.enrichedAt.Some? && w.since <= row.enrichedAt.value < w.until
  }

  function PoolIDs(rows: Rows, w: Window): set<string> {
    set id | id in rows && InWindow(rows[id], w)
  }

  function ArticleOf(id: string, row: IndexRow): Article {
    Article(id, row.canonicalURL, row.title, row.summary, row.source, row.score, row.topics)
  }

  /** `since` is the latest end among the Digests of earlier dates, bounded by the lookback. */
  ghost predicate IsSince(digests: Digests, day: Day, now: Time, since: Time) {
    && since >= now - LOOKBACK
    && (forall d :: d in digests && d < day ==> End(digests[d]) <= since)
    && (since == now - LOOKBACK || exists d :: d in digests && d < day && End(digests[d]) == since)
  }

  /** When Enrichment of a row completed; rows that are still waiting are in no pool. */
  function Stamp(rows: Rows, id: string): Time {
    if id in rows && rows[id].enrichedAt.Some? then rows[id].enrichedAt.value else 0
  }

  /** The query's order: `score DESC, enriched_at DESC`. */
  function Ahead(rows: Rows): (Article, Article) -> bool {
    (a: Article, b: Article) =>
      a.score > b.score || (a.score == b.score && Stamp(rows, a.id) > Stamp(rows, b.id))
  }

  /** The pool of a window: its Articles, best score first and of equal scores the newest first. */
  ghost predicate IsPool(rows: Rows, w: Window, pool: seq<Article>) {
    && (forall a :: a in pool <==> a.id in PoolIDs(rows, w) && a == ArticleOf(a.id, rows[a.id]))
    && (forall i, j :: 0 <= i < j < |pool| ==> pool[i].id != pool[j].id && pool[i].score >= pool[j].score)
    && (forall i, j :: 0 <= i < j < |pool| && pool[i].score == pool[j].score ==>
          Stamp(rows, pool[i].id) >= Stamp(rows, pool[j].id))
  }

  /** Everything `compute` works out before it asks the model. */
  datatype Draft = Draft(window: Window, pool: seq<Article>, prepared: Prepared,
                         picks: seq<Article>, extra: seq<Article>)

  ghost predicate Drafts(digests: Digests, rows: Rows, s: Settings, day: Day, now: Time, d: Draft) {
    && d.window.until == now
    && IsSince(digests, day, now, d.window.since)
    && IsPool(rows, d.window, d.pool)
    && Prepares(d.pool, s.floor, s.max, d.prepared, d.picks, d.extra)
  }

  datatype Result = Served(a: Artifact) | Created(a: Artifact) | Empty(a: Artifact) | Failed

  function ArtifactOf(day: Day, d: Draft, ids: seq<string>, now: Time): Artifact {
    Artifact(day, Chosen(d.prepared.items, ids), d.prepared.total, d.prepared.floorPass, Some(d.window), now)
  }

  /** What a call for a date with no artifact yet comes to, once the model has answered: `ids`,
      or nothing when the call failed. */
  function Computed(day: Day, d: Draft, answer: Option<seq<string>>, now: Time): Result {
    if d.prepared.items == [] then Empty(ArtifactOf(day, d, [], now))
    else match answer
      case None => Failed
      case Some(ids) =>
        var a := ArtifactOf(day, d, ids, now);
        if a.items == [] then Empty(a) else Created(a)
  }

  function ResultOf(digests: Digests, day: Day, d: Draft, answer: Option<seq<string>>, now: Time): Result {
    if day in digests then Served(digests[day]) else Computed(day, d, answer, now)
  }

  function After(digests: Digests, day: Day, r: Result): Digests {
    if r.Created? then digests[day := r.a] else digests
  }

  /** What a call for a date must come to, `d` being what was worked out and `answer` the model's. A
      stored Digest is served. Otherwise one is created exactly when the model answered and named a
      candidate, with the candidates it named; it fails exactly when there were candidates and no
      answer; and only a created one is stored. */
  ghost predicate Answers(before: Digests, after: Digests, r: Result, day: Day, d: Draft,
                          answer: Option<seq<string>>, now: Time) {
    if day in before then r == Served(before[day]) && after == before
    else
      && (r.Created? <==> answer.Some? && exists c :: c in d.prepared.items && c.article.id in answer.value)
      && (r.Failed? <==> d.prepared.items != [] && answer.None?)
      && !r.Served? && (day in after <==> r.Created?) && (r.Created? ==> after[day] == r.a)
      && (forall e :: e != day ==> (e in after <==> e in before) && (e in before ==> after[e] == before[e]))
      && (!r.Failed? ==> HoldsNamed(r.a, day, d, answer, now))
  }

  /** The Digest of a date: the candidates the model named, in their order. */
  ghost predicate HoldsNamed(a: Artifact, day: Day, d: Draft, answer: Option<seq<string>>, now: Time) {
    && a.day == day && a.window == Some(d.window) && a.createdAt == now
    && a.candidateCount == d.prepared.total && a.floorPassCount == d.prepared.floorPass
    && IsSubsequence(a.items, d.prepared.items)
    && forall c :: c in a.items <==> c in d.prepared.items && answer.Some? && c.article.id in answer.value
  }

  lemma NamedAreChosen(day: Day, d: Draft, ids: seq<string>, now: Time)
    ensures HoldsNamed(ArtifactOf(day, d, ids, now), day, d, Some(ids), now)
  {
    hide IsSubsequence, Chosen;
    var items, chosen := d.prepared.items, Chosen(d.prepared.items, ids);
    ChosenLaw(items, ids);
    forall c ensures c in chosen <==> c in items && c.article.id in ids {
      assert c in chosen <==> multiset(chosen)[c] > 0;
      assert c in items <==> multiset(items)[c] > 0;
    }
  }

  /** And what it comes to is that. */
  lemma ResultAnswers(digests: Digests, day: Day, d: Draft, answer: Option<seq<string>>, now: Time)
    ensures var r := ResultOf(digests, day, d, answer, now);
            Answers(digests, After(digests, day, r), r, day, d, answer, now)
  {
    hide Chosen;
    var ids := if answer.Some? then answer.value else [];
    NamedAreChosen(day, d, ids, now);
    assert ArtifactOf(day, d, ids, now).items != [] ==>
        ArtifactOf(day, d, ids, now).items[0] in ArtifactOf(day, d, ids, now).items;
    if d.prepared.items == [] { NamedAreChosen(day, d, [], now); }
  }

  class Store {
    var digests: Digests
    var rows: Rows

    constructor (digests: Digests, rows: Rows)
      ensures this.digests == digests && this.rows == rows
    {
      this.digests, this.rows := digests, rows;
    }

    method Find(day: Day) returns (found: Option<Artifact>)
      ensures found == if day in digests then Some(digests[day]) else None
    {
      return if day in digests then Some(digests[day]) else None;
    }

    /** `MAX(COALESCE(window_end, created_at))` over the earlier dates, against the lookback. */
    method Since(day: Day, now: Time) returns (since: Time)
      ensures IsSince(digests, day, now, since)
    {
      since := now - LOOKBACK;
      var left := digests.Items;
      while left != {}
        invariant left <= digests.Items && since >= now - LOOKBACK
        invariant forall d :: d in digests && (d, digests[d]) !in left && d < day ==> End(digests[d]) <= since
        invariant since == now - LOOKBACK || exists d :: d in digests && d < day && End(digests[d]) == since
        decreases |left|
      {
        var item :| item in left;
        if item.0 < day && End(item.1) > since { since := End(item.1); }
        left := left - {item};
      }
    }

    method Candidates(day: Day, now: Time) returns (w: Window, pool: seq<Article>)
      ensures w.until == now && IsSince(digests, day, now, w.since) && IsPool(rows, w, pool)
    {
      hide IsSince, Ahead, Sort;
      var since := Since(day, now);
      w := Window(since, now);
      var ids, listed := PoolIDs(rows, w), [];
      while ids != {}
        invariant ids <= PoolIDs(rows, w)
        invariant forall a: Article :: a in listed <==>
                    a.id in PoolIDs(rows, w) && a.id !in ids && a == ArticleOf(a.id, rows[a.id])
        invariant forall i, j :: 0 <= i < j < |listed| ==> listed[i] != listed[j]
        decreases |ids|
      {
        var id :| id in ids;
        listed := listed + [ArticleOf(id, rows[id])];
        ids := ids - {id};
      }
      pool := Sort(listed, Ahead(rows));
      ListedIsPool(rows, w, listed);
    }

    /** `INSERT … ON CONFLICT (digest_date) DO NOTHING`, then the stored row. */
    method Save(a: Artifact) returns (stored: Artifact, created: bool)
      modifies this`digests
      ensures created <==> a.day !in old(digests)
      ensures digests == if created then old(digests)[a.day := a] else old(digests)
      ensures a.day in digests && stored == digests[a.day]
    {
      created := a.day !in digests;
      if created { digests := digests[a.day := a]; }
      stored := digests[a.day];
    }
  }

  lemma AheadIsStrictWeakOrder(rows: Rows)
    ensures StrictWeakOrder(Ahead(rows))
  {
  }

  lemma ListedIsPool(rows: Rows, w: Window, listed: seq<Article>)
    requires forall a :: a in listed <==> a.id in PoolIDs(rows, w) && a == ArticleOf(a.id, rows[a.id])
    requires forall i, j :: 0 <= i < j < |listed| ==> listed[i] != listed[j]
    ensures IsPool(rows, w, Sort(listed, Ahead(rows)))
  {
    hide Sort;
    var pool := Sort(listed, Ahead(rows));
    AheadIsStrictWeakOrder(rows);
    SortSorts(listed, Ahead(rows));
    SortKeepsMembers(listed, Ahead(rows));
    DistinctSurvives(listed, pool, Ahead(rows));
    forall a ensures a in pool <==> a in listed {}
    forall i, j | 0 <= i < j < |pool|
      ensures pool[i].id != pool[j].id && !Ahead(rows)(pool[j], pool[i])
    {
      assert pool[i] in listed && pool[j] in listed;
    }
  }

  class Service {
    const store: Store
    const settings: Settings

    constructor (store: Store, floor: int, max: int)
      ensures this.store == store && settings == Configure(floor, max)
    {
      this.store, this.settings := store, Configure(floor, max);
    }

    /** Get or create the Digest of a date. `now` is the database clock, `answer` the model's. */
    method ForDate(day: Day, now: Time, answer: Option<seq<string>>)
      returns (r: Result, ghost d: Draft)
      modifies store`digests
      ensures day !in old(store.digests) ==> Drafts(old(store.digests), store.rows, settings, day, now, d)
      ensures r == ResultOf(old(store.digests), day, d, answer, now)
      ensures store.digests == After(old(store.digests), day, r)
      ensures Answers(old(store.digests), store.digests, r, day, d, answer, now)
    {
      assert Chosen([], []) == [];
      hide IsSince, IsPool, Prepares, Answers, Chosen;
      d := Draft(Window(0, 0), [], Prepared([], 0, 0), [], []);
      ResultAnswers(store.digests, day, d, answer, now);
      var found := store.Find(day);
      if found.Some? { return Served(found.value), d; }
      var w, pool := store.Candidates(day, now);
      var prepared, picks, extra := UniqueAndDiverse(pool, settings.floor, settings.max);
      d := Draft(w, pool, prepared, picks, extra);
      ResultAnswers(store.digests, day, d, answer, now);
      var items := [];
      if |prepared.items| > 0 {
        if answer.None? { return Failed, d; }
        items := ChooseItems(prepared.items, answer.value);
      }
      var artifact := Artifact(day, items, prepared.total, prepared.floorPass, Some(w), now);
      if |items| == 0 {
        return Empty(artifact), d;
      }
      var stored, created := store.Save(artifact);
      r := Created(stored);
    }
  }

  // ----- Runs -----

  /** Enrichment completes for a row, or the Digest of a date is asked for; `draft` records how the
      Digest was worked out when it had to be. */
  datatype Event =
    | Enriched(id: string, row: IndexRow, now: Time)
    | Asked(day: Day, now: Time, answer: Option<seq<string>>, draft: Draft)

  /** `today` is the latest date asked for, `made` the dates whose Digest was created by the run. */
  datatype World = World(digests: Digests, rows: Rows, clock: Time, today: Day, made: set<Day>)

  /** One event, on a clock that does not run backwards, with dates in order, and each row
      stamped once. */
  ghost predicate Step(s: Settings, w: World, e: Event, w': World) {
    match e
    case Enriched(id, row, now) =>
      && now >= w.clock && row.enrichedAt == Some(now)
      && (id in w.rows ==> w.rows[id].enrichedAt.None?)
      && w' == w.(rows := w.rows[id := row], clock := now)
    case Asked(day, now, answer, draft) =>
      && now >= w.clock && day >= w.today
      && (day !in w.digests ==> Drafts(w.digests, w.rows, s, day, now, draft))
      && var r := ResultOf(w.digests, day, draft, answer, now);
         w' == w.(digests := After(w.digests, day, r), clock := now, today := day,
                  made := if r.Created? then w.made + {day} else w.made)
  }

  /** Where a run may start: any stored Digests whose dates and ends are in order and in the past. */
  ghost predicate Init(w: World) {
    && w.made == {}
    && (forall d :: d in w.digests ==> d <= w.today && End(w.digests[d]) <= w.clock)
    && (forall d, d' :: d in w.digests && d' in w.digests && d < d' ==> End(w.digests[d]) <= End(w.digests[d']))
    && (forall id :: id in w.rows && w.rows[id].enrichedAt.Some? ==> w.rows[id].enrichedAt.value <= w.clock)
  }

  ghost predicate IsRun(s: Settings, worlds: seq<World>, events: seq<Event>) {
    && |worlds| == |events| + 1 && Init(worlds[0])
    && forall i :: 0 <= i < |events| ==> Step(s, worlds[i], events[i], worlds[i + 1])
  }

  /** A window created by the run: not empty, after every earlier end, and no longer than needed. */
  ghost predicate FreshWindow(digests: Digests, d: Day)
    requires d in digests
  {
    && digests[d].window.Some? && digests[d].items != []
    && var w := digests[d].window.value;
       w.since < w.until && IsSince(digests, d, w.until, w.since)
  }

  /** The Articles a stored Digest shows, as the window sees them. */
  ghost predicate ShowsPool(rows: Rows, a: Artifact) {
    a.window.Some? && forall c :: c in a.items ==> c.article.id in PoolIDs(rows, a.window.value)
  }

  ghost predicate Inv(w: World) {
    && w.made <= w.digests.Keys
    && (forall d :: d in w.digests ==> d <= w.today && End(w.digests[d]) <= w.clock)
    && (forall d, d' :: d in w.digests && d' in w.digests && d < d' ==> End(w.digests[d]) <= End(w.digests[d']))
    && (forall id :: id in w.rows && w.rows[id].enrichedAt.Some? ==> w.rows[id].enrichedAt.value <= w.clock)
    && (forall d :: d in w.made ==> FreshWindow(w.digests, d) && ShowsPool(w.rows, w.digests[d]))
  }

  /** Enrichment stamps never fall into a window that is already closed. */
  lemma PoolIsClosed(rows: Rows, id: string, row: IndexRow, w: Window)
    requires id in rows ==> rows[id].enrichedAt.None?
    requires row.enrichedAt.Some? && row.enrichedAt.value >= w.until
    ensures PoolIDs(rows[id := row], w) == PoolIDs(rows, w)
  {
  }

  lemma EnrichedKeepsInv(s: Settings, w: World, e: Event, w': World)
    requires Inv(w) && e.Enriched? && Step(s, w, e, w')
    ensures Inv(w')
  {
    hide FreshWindow, PoolIDs;
    forall d | d in w'.made ensures FreshWindow(w'.digests, d) && ShowsPool(w'.rows, w'.digests[d]) {
      assert FreshWindow(w.digests, d);
      PoolIsClosed(w.rows, e.id, e.row, w.digests[d].window.value);
    }
  }

  /** A later Digest does not change what an earlier window had to start after. */
  lemma FreshWindowStays(digests: Digests, d: Day, day: Day, a: Artifact)
    requires d in digests && FreshWindow(digests, d) && day > d
    ensures FreshWindow(digests[day := a], d)
  {
    var after := digests[day := a];
    var w := digests[d].window.value;
    if w.since != w.until - LOOKBACK {
      var e :| e in digests && e < d && End(digests[e]) == w.since;
      assert e in after && End(after[e]) == w.since;
    }
  }

  /** The items come from the pool. */
  lemma ItemsInPool(digests: Digests, rows: Rows, s: Settings, day: Day, now: Time, d: Draft, ids: seq<string>)
    requires Drafts(digests, rows, s, day, now, d)
    ensures forall c :: c in Chosen(d.prepared.items, ids) ==> c.article.id in PoolIDs(rows, d.window)
  {
    hide IsSince, Prepares, PoolIDs;
    CandidateLaw(d.pool, s.floor, s.max, d.prepared, d.picks, d.extra);
    ChosenLaw(d.prepared.items, ids);
    forall c | c in Chosen(d.prepared.items, ids) ensures c.article.id in PoolIDs(rows, d.window) {
      assert c in multiset(Chosen(d.prepared.items, ids));
      assert c in multiset(d.prepared.items);
      var i :| 0 <= i < |d.prepared.items| && d.prepared.items[i] == c;
      assert c.article in d.pool;
    }
  }

  lemma CreatedIsFresh(s: Settings, w: World, day: Day, now: Time, ids: seq<string>, d: Draft, a: Artifact)
    requires Inv(w) && now >= w.clock && day !in w.digests && Drafts(w.digests, w.rows, s, day, now, d)
    requires a == ArtifactOf(day, d, ids, now) && a.items != []
    ensures FreshWindow(w.digests[day := a], day) && ShowsPool(w.rows, a)
  {
    hide IsPool, Prepares;
    ItemsInPool(w.digests, w.rows, s, day, now, d, ids);
    assert a.items[0] in a.items;
    assert InWindow(w.rows[a.items[0].article.id], d.window);
    var after := w.digests[day := a];
    if d.window.since != now - LOOKBACK {
      var e :| e in w.digests && e < day && End(w.digests[e]) == d.window.since;
      assert e in after && End(after[e]) == d.window.since;
    }
  }

  lemma AskedKeepsInv(s: Settings, w: World, e: Event, w': World)
    requires Inv(w) && e.Asked? && Step(s, w, e, w')
    ensures Inv(w')
  {
    hide FreshWindow, Drafts, ShowsPool, IsSince, IsPool;
    var r := ResultOf(w.digests, e.day, e.draft, e.answer, e.now);
    if r.Created? {
      CreatedIsFresh(s, w, e.day, e.now, e.answer.value, e.draft, r.a);
      forall d | d in w.made ensures FreshWindow(w'.digests, d) {
        FreshWindowStays(w.digests, d, e.day, r.a);
      }
      assert End(r.a) == e.now by {
        assert e.draft.window.until == e.now by { DraftEndsNow(w.digests, w.rows, s, e.day, e.now, e.draft); }
      }
    }
  }

  lemma DraftEndsNow(digests: Digests, rows: Rows, s: Settings, day: Day, now: Time, d: Draft)
    requires Drafts(digests, rows, s, day, now, d)
    ensures d.window.until == now
  {
  }

  lemma {:induction false} RunKeepsInv(s: Settings, worlds: seq<World>, events: seq<Event>, i: nat)
    requires IsRun(s, worlds, events) && i < |worlds|
    ensures Inv(worlds[i])
  {
    if i > 0 {
      hide Inv, Step, Init;
      RunKeepsInv(s, worlds, events, i - 1);
      assert Step(s, worlds[i - 1], events[i - 1], worlds[i]);
      if events[i - 1].Enriched? {
        EnrichedKeepsInv(s, worlds[i - 1], events[i - 1], worlds[i]);
      } else {
        AskedKeepsInv(s, worlds[i - 1], events[i - 1], worlds[i]);
      }
    }
  }

  // ----- The window protocol -----

  /** No stored Digest has a date between the two. */
  ghost predicate Consecutive(digests: Digests, d: Day, d': Day) {
    d in digests && d' in digests && d < d' && forall e :: e in digests ==> !(d < e < d')
  }

  /** In any run, a window the run created starts after every earlier one ended; consecutive
      windows abut exactly when at most 72 hours passed from the one's end to the other's
      computation. Empty and failed Digests in between change nothing. */
  lemma WindowsTile(s: Settings, worlds: seq<World>, events: seq<Event>, i: nat, d: Day, d': Day)
    requires IsRun(s, worlds, events) && i < |worlds|
    requires d in worlds[i].digests && d' in worlds[i].made && d < d'
    ensures d' in worlds[i].digests && worlds[i].digests[d'].window.Some?
    ensures var w := worlds[i].digests[d'].window.value;
            && w.since < w.until
            && End(worlds[i].digests[d]) <= w.since
            && (Consecutive(worlds[i].digests, d, d') ==>
                  (w.since == End(worlds[i].digests[d]) <==> w.until - End(worlds[i].digests[d]) <= LOOKBACK))
  {
    hide Step, Init;
    RunKeepsInv(s, worlds, events, i);
    assert FreshWindow(worlds[i].digests, d');
  }

  /** No Article is in the pools, nor among the items, of two Digests of the run. */
  lemma NoArticleTwice(s: Settings, worlds: seq<World>, events: seq<Event>, i: nat, d: Day, d': Day)
    requires IsRun(s, worlds, events) && i < |worlds|
    requires d in worlds[i].made && d' in worlds[i].made && d < d'
    ensures {d, d'} <= worlds[i].digests.Keys
    ensures var a, b := worlds[i].digests[d], worlds[i].digests[d'];
            && a.window.Some? && b.window.Some?
            && PoolIDs(worlds[i].rows, a.window.value) !! PoolIDs(worlds[i].rows, b.window.value)
            && forall x, y :: x in a.items && y in b.items ==> x.article.id != y.article.id
  {
    hide Step, Init, IsSince;
    RunKeepsInv(s, worlds, events, i);
    var w := worlds[i];
    assert FreshWindow(w.digests, d) && FreshWindow(w.digests, d');
    assert ShowsPool(w.rows, w.digests[d]) && ShowsPool(w.rows, w.digests[d']);
    WindowsTile(s, worlds, events, i, d, d');
    PoolsApart(w.rows, w.digests[d].window.value, w.digests[d'].window.value);
  }

  lemma PoolsApart(rows: Rows, a: Window, b: Window)
    requires a.until <= b.since
    ensures PoolIDs(rows, a) !! PoolIDs(rows, b)
  {
  }

  /** Windows listed in order, each starting where the one before ends. */
  ghost predicate Abut(ws: seq<Window>) {
    && ws != [] && (forall k :: 0 <= k < |ws| ==> ws[k].since <= ws[k].until)
    && forall k :: 0 <= k < |ws| - 1 ==> ws[k + 1].since == ws[k].until
  }

  /** Row `id` is in the pool of window `k` and of no other. */
  ghost predicate InOnly(rows: Rows, ws: seq<Window>, id: string, k: nat) {
    && k < |ws| && id in PoolIDs(rows, ws[k])
    && forall j :: 0 <= j < |ws| && j != k ==> id !in PoolIDs(rows, ws[j])
  }

  /** Across abutting windows no Article is skipped: whatever finished Enrichment between the first
      start and the last end is in the pool of exactly one of them. */
  lemma {:induction false} NoArticleSkipped(rows: Rows, ws: seq<Window>, id: string)
    requires Abut(ws) && id in rows && rows[id].enrichedAt.Some?
    requires ws[0].since <= rows[id].enrichedAt.value < ws[|ws| - 1].until
    ensures exists k: nat :: InOnly(rows, ws, id, k)
  {
    var at := rows[id].enrichedAt.value;
    var k := 0;
    while at >= ws[k].until
      invariant k < |ws| && ws[k].since <= at
      decreases |ws| - k
    {
      k := k + 1;
    }
    assert InWindow(rows[id], ws[k]);
    forall j | 0 <= j < |ws| && j != k ensures id !in PoolIDs(rows, ws[j]) {
      if j < k { AbutInOrder(ws, j, k); } else { AbutInOrder(ws, k, j); }
    }
    assert InOnly(rows, ws, id, k);
  }

  lemma {:induction false} AbutInOrder(ws: seq<Window>, j: nat, k: nat)
    requires Abut(ws) && j < k < |ws|
    ensures ws[j].until <= ws[k].since
    decreases k
  {
    if j < k - 1 { AbutInOrder(ws, j, k - 1); }
  }

  /** The stored Digests of consecutive dates, each computed within 72 hours of the end of the one
      before. */
  ghost predicate Unbroken(w: World, days: seq<Day>) {
    && days != []
    && (forall k :: 0 <= k < |days| ==> days[k] in w.made && days[k] in w.digests && w.digests[days[k]].window.Some?)
    && (forall k :: 0 <= k < |days| - 1 ==>
          && Consecutive(w.digests, days[k], days[k + 1])
          && w.digests[days[k + 1]].window.value.until - End(w.digests[days[k]]) <= LOOKBACK)
  }

  function WindowsOf(digests: Digests, days: seq<Day>): (ws: seq<Window>)
    requires forall k :: 0 <= k < |days| ==> days[k] in digests && digests[days[k]].window.Some?
    ensures |ws| == |days| && forall k :: 0 <= k < |days| ==> ws[k] == digests[days[k]].window.value
  {
    seq(|days|, k requires 0 <= k < |days| => digests[days[k]].window.value)
  }

  /** So between the Digests of an unbroken stretch of a run, every Article reaches exactly one. */
  lemma RunSkipsNothing(s: Settings, worlds: seq<World>, events: seq<Event>, i: nat, days: seq<Day>, id: string)
    requires IsRun(s, worlds, events) && i < |worlds| && Unbroken(worlds[i], days)
    requires id in worlds[i].rows && worlds[i].rows[id].enrichedAt.Some?
    requires var ws := WindowsOf(worlds[i].digests, days);
             ws[0].since <= worlds[i].rows[id].enrichedAt.value < ws[|ws| - 1].until
    ensures exists k: nat :: InOnly(worlds[i].rows, WindowsOf(worlds[i].digests, days), id, k)
  {
    hide IsRun, FreshWindow, PoolIDs;
    var w := worlds[i];
    var ws := WindowsOf(w.digests, days);
    RunKeepsInv(s, worlds, events, i);
    forall k | 0 <= k < |ws| ensures ws[k].since <= ws[k].until {
      assert FreshWindow(w.digests, days[k]);
      FreshWindowRuns(w.digests, days[k]);
    }
    forall k | 0 <= k < |ws| - 1 ensures ws[k + 1].since == ws[k].until {
      WindowsTile(s, worlds, events, i, days[k], days[k + 1]);
    }
    NoArticleSkipped(w.rows, ws, id);
  }

  lemma FreshWindowRuns(digests: Digests, d: Day)
    requires d in digests && FreshWindow(digests, d)
    ensures digests[d].window.value.since < digests[d].window.value.until
  {
  }

  predicate Overlap(a: Window, b: Window) {
    a.since < b.until && b.since < a.until
  }

  /** The stored Digest of a later date whose end no Digest of an earlier date reaches, recent enough
      for the lookback. */
  ghost predicate Overtakes(digests: Digests, day: Day, now: Time, d: Day) {
    && d in digests && d > day && digests[d].window.Some? && End(digests[d]) > now - LOOKBACK
    && forall e :: e in digests && e < day ==> End(digests[e]) < End(digests[d])
  }

  /** Dates asked for out of order break the tiling: the window of a date not yet stored shares some
      time with a stored window exactly when a later date has overtaken it. */
  lemma OutOfOrderOverlaps(digests: Digests, day: Day, now: Time, since: Time)
    requires day !in digests && IsSince(digests, day, now, since)
    requires forall d :: d in digests ==> End(digests[d]) <= now
    requires forall d :: d in digests && digests[d].window.Some? ==>
               digests[d].window.value.since < digests[d].window.value.until
    ensures (exists d :: Overtakes(digests, day, now, d)) <==>
            exists d :: d in digests && digests[d].window.Some? && Overlap(Window(since, now), digests[d].window.value)
  {
    forall d | d in digests && digests[d].window.Some?
      ensures Overlap(Window(since, now), digests[d].window.value) <==> Overtakes(digests, day, now, d)
    {
      if Overtakes(digests, day, now, d) {
        assert since < End(digests[d]);
      } else if d < day {
        assert End(digests[d]) <= since;
      }
    }
  }
}
