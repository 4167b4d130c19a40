/** Article Enrichment (internal/articleindex/service.go over
    internal/storage/article_index_repo.go): whoever inserts the row of a canonical URL enriches
    it, once, while other requests for it come and go. */
module Enrichment {
  import opened Outcomes
  import opened Summary
  import opened Text

  type Time = int

  datatype Status = Processing | Complete | Failed

  datatype Meta = Meta(
    entryID: int, sourceID: string, canonicalURL: string, title: string, author: string, publishedAt: Option<Time>)

  datatype Row = Row(
    id: nat, meta: Meta, status: Status, summary: Option<string>, tags: seq<string>, score: Option<int>,
    reason: Option<string>, enrichedAt: Option<Time>, openedAt: Option<Time>)

  /** `article_index`, by its unique `canonical_url`. */
  type Table = map<string, Row>

  datatype Request = Request(meta: Meta, bridge: string, feed: string)

  /** `validate`; whether the URL is an absolute http(s) one is the caller's to say. */
  predicate ValidRequest(r: Request, absolute: bool) {
    absolute && r.meta.entryID > 0 && TrimSpace(r.meta.title) != ""
  }

  // ----- What an enrichment comes to -----

  /** What the outside answers: the fetched page, the preferences, the three model calls. */
  datatype Heard = Heard(
    fetched: Reply<string>, preferences: Reply<string>,
    summary: Option<string>, category: Reply<string>, score: Reply<int>)

  datatype Content = Content(text: string, partial: bool)

  const UNREADABLE := "no readable article content"
  const OUT_OF_RANGE := "score out of range"

  predicate NeedsFetch(r: Request) {
    TrimSpace(r.bridge) == ""
  }

  function Page(fetched: Reply<string>): string {
    if fetched.Ok? then TrimSpace(fetched.value) else ""
  }

  /** Bridge content, else the fetched page, else the feed's own. */
  function ContentOf(r: Request, fetched: Reply<string>): Reply<Content> {
    if !NeedsFetch(r) then Ok(Content(TrimSpace(r.bridge), false))
    else if Page(fetched) != "" then Ok(Content(Page(fetched), false))
    else if TrimSpace(r.feed) != "" then Ok(Content(TrimSpace(r.feed), true))
    else Err(if fetched.Err? then fetched.error else UNREADABLE)
  }

  datatype Verdict = Enriched(summary: string, tag: string, score: int) | Rejected(reason: string)

  /** The first thing that goes wrong rejects the Article; a Summary that does not come never does. */
  function Judge(lib: Library, r: Request, h: Heard): (v: Verdict)
    ensures v.Enriched? ==> 1 <= v.score <= 5
    ensures v.Enriched? <==>
              && ContentOf(r, h.fetched).Ok? && h.preferences.Ok? && h.category.Ok?
              && h.score.Ok? && 1 <= h.score.value <= 5
  {
    match ContentOf(r, h.fetched)
    case Err(e) => Rejected(e)
    case Ok(c) =>
      if h.preferences.Err? then Rejected(h.preferences.error)
      else if h.category.Err? then Rejected(h.category.error)
      else if h.score.Err? then Rejected(h.score.error)
      else if h.score.value < 1 || h.score.value > 5 then Rejected(OUT_OF_RANGE)
      else Enriched(Stored(lib, r.meta.title, c.text, c.partial, h.summary), h.category.value, h.score.value)
  }

  /** Where the text may come from, in order; a page that could not be fetched is blank. */
  function Texts(r: Request, fetched: Reply<string>): seq<string> {
    [TrimSpace(r.bridge), if fetched.Ok? then TrimSpace(fetched.value) else "", TrimSpace(r.feed)]
  }

  /** `text` is the first that is not blank, at place `k`. */
  ghost predicate FirstText(texts: seq<string>, text: string, k: nat) {
    k < |texts| && texts[k] == text != "" && forall j :: 0 <= j < k ==> texts[j] == ""
  }

  /** The content is the first text there is, and partial when it is the feed's; there is none exactly
      when all are blank. */
  lemma ContentIsFirst(r: Request, fetched: Reply<string>)
    ensures var c, texts := ContentOf(r, fetched), Texts(r, fetched);
            && (c.Err? <==> forall k :: 0 <= k < 3 ==> texts[k] == "")
            && (c.Ok? ==> exists k :: FirstText(texts, c.value.text, k) && (c.value.partial <==> k == 2))
  {
    hide TrimSpace;
    var c, texts := ContentOf(r, fetched), Texts(r, fetched);
    if c.Ok? {
      var k := if texts[0] != "" then 0 else if texts[1] != "" then 1 else 2;
      assert FirstText(texts, c.value.text, k);
    }
  }

  /** An enriched Article has the category and the Score of the answers, and the Summary that is stored
      for its content. */
  lemma EnrichedSays(lib: Library, r: Request, h: Heard)
    requires Judge(lib, r, h).Enriched?
    ensures var v, c := Judge(lib, r, h), ContentOf(r, h.fetched);
            && c.Ok? && h.category == Ok(v.tag) && h.score == Ok(v.score)
            && v.summary == Stored(lib, r.meta.title, c.value.text, c.value.partial, h.summary)
  {
    hide TrimSpace, Stored;
  }

  // ----- The table -----

  function NewRow(id: nat, meta: Meta): Row {
    Row(id, meta, Processing, None, [], None, None, None, None)
  }

  /** What `Complete` or `Fail` sets on the row. */
  function Settle(row: Row, v: Verdict, now: Time): Row {
    match v
    case Enriched(summary, tag, score) =>
      row.(summary := Some(summary), tags := [tag], score := Some(score),
           status := Complete, reason := None, enrichedAt := Some(now))
    case Rejected(reason) => row.(status := Failed, reason := Some(reason))
  }

  /** `UPDATE … WHERE id = $1`. */
  function Saved(t: Table, id: nat, v: Verdict, now: Time): Table {
    map u | u in t :: if t[u].id == id then Settle(t[u], v, now) else t[u]
  }

  /** `opened_at = COALESCE(opened_at, NOW())`. */
  function Opened(t: Table, id: nat, now: Time): Table {
    map u | u in t :: if t[u].id == id && t[u].openedAt.None? then t[u].(openedAt := Some(now)) else t[u]
  }

  class IndexTable {
    var rows: Table
    var next: nat

    constructor (rows: Table, next: nat)
      ensures this.rows == rows && this.next == next
    {
      this.rows, this.next := rows, next;
    }

    /** `INSERT … ON CONFLICT (canonical_url) DO NOTHING`, then the row that is there. */
    method Create(meta: Meta, fault: Fault) returns (r: Reply<Row>, created: bool)
      modifies this
      ensures created <==> fault.Clean? && meta.canonicalURL !in old(rows)
      ensures fault.Clean? ==> meta.canonicalURL in rows && r == Ok(rows[meta.canonicalURL])
      ensures !fault.Clean? ==> r.Err?
      ensures fault.Dropped? || meta.canonicalURL in old(rows) ==> rows == old(rows) && next == old(next)
      ensures !fault.Dropped? && meta.canonicalURL !in old(rows) ==>
                rows == old(rows)[meta.canonicalURL := NewRow(old(next), meta)] && next == old(next) + 1
    {
      created := false;
      if !fault.Dropped? && meta.canonicalURL !in rows {
        rows := rows[meta.canonicalURL := NewRow(next, meta)];
        next := next + 1;
        created := fault.Clean?;
      }
      r := if fault.Clean? then Ok(rows[meta.canonicalURL]) else Err(STORE_ERROR);
    }

    method Save(id: nat, v: Verdict, now: Time, fault: Fault) returns (ok: bool)
      modifies this`rows
      ensures ok <==> fault.Clean?
      ensures rows == if fault.Dropped? then old(rows) else Saved(old(rows), id, v, now)
    {
      if !fault.Dropped? { rows := Saved(rows, id, v, now); }
      return fault.Clean?;
    }

    method Open(id: nat, now: Time)
      modifies this`rows
      ensures rows == Opened(old(rows), id, now)
    {
      rows := Opened(rows, id, now);
    }
  }

  /** What the outside is asked for an Article: the page, the preferences and the three model calls. */
  datatype Ask = FetchPage | ReadPreferences | AskSummary | AskCategory | AskScore

  /** The order of the asking, when nothing goes wrong. */
  function Script(r: Request): seq<Ask> {
    (if NeedsFetch(r) then [FetchPage] else []) + [ReadPreferences, AskSummary, AskCategory, AskScore]
  }

  /** Whether the answer to `a` rejects the Article; a Summary never does. */
  predicate Rejects(r: Request, h: Heard, a: Ask) {
    match a
    case FetchPage => ContentOf(r, h.fetched).Err?
    case ReadPreferences => h.preferences.Err?
    case AskSummary => false
    case AskCategory => h.category.Err?
    case AskScore => h.score.Err? || !(1 <= h.score.value <= 5)
  }

  /** The script up to the first answer that rejects the Article, or to its end. */
  ghost predicate AsksUpTo(r: Request, h: Heard, asked: seq<Ask>) {
    && [] < asked <= Script(r)
    && (forall k :: 0 <= k < |asked| - 1 ==> !Rejects(r, h, asked[k]))
    && (Rejects(r, h, asked[|asked| - 1]) || asked == Script(r))
  }

  /** Part of the script, with no answer that rejects. */
  ghost predicate Asking(r: Request, h: Heard, asked: seq<Ask>) {
    asked <= Script(r) && forall k :: 0 <= k < |asked| ==> !Rejects(r, h, asked[k])
  }

  lemma AskNext(r: Request, h: Heard, asked: seq<Ask>, a: Ask)
    requires Asking(r, h, asked) && |asked| < |Script(r)| && Script(r)[|asked|] == a
    ensures Rejects(r, h, a) || a.AskScore? ==> AsksUpTo(r, h, asked + [a])
    ensures !Rejects(r, h, a) ==> Asking(r, h, asked + [a])
  {
    hide Rejects;
  }

  class Service {
    const table: IndexTable
    const lib: Library

    constructor (table: IndexTable, lib: Library)
      ensures this.table == table && this.lib == lib
    {
      this.table, this.lib := table, lib;
    }

    /** Everything after the claim, up to what is to be saved. */
    method Enrich(r: Request, h: Heard) returns (v: Verdict, ghost asked: seq<Ask>)
      ensures v == Judge(lib, r, h)
      ensures AsksUpTo(r, h, asked)
      ensures v.Rejected? <==> Rejects(r, h, asked[|asked| - 1])
    {
      asked := [];
      assert Asking(r, h, asked);
      hide AsksUpTo, Asking, TrimSpace, Stored;
      var text, partial := TrimSpace(r.bridge), false;
      if text == "" {
        AskNext(r, h, asked, FetchPage);
        asked := asked + [FetchPage];
        if h.fetched.Ok? { text := TrimSpace(h.fetched.value); }
      }
      if text == "" {
        text := TrimSpace(r.feed);
        if text != "" {
          partial := true;
        } else if h.fetched.Err? {
          return Rejected(h.fetched.error), asked;
        } else {
          return Rejected(UNREADABLE), asked;
        }
      }
      AskNext(r, h, asked, ReadPreferences);
      asked := asked + [ReadPreferences];
      if h.preferences.Err? { return Rejected(h.preferences.error), asked; }
      AskNext(r, h, asked, AskSummary);
      asked := asked + [AskSummary];
      var summary, _ := Summarize(lib, r.meta.title, text, partial, h.summary);
      AskNext(r, h, asked, AskCategory);
      asked := asked + [AskCategory];
      if h.category.Err? { return Rejected(h.category.error), asked; }
      AskNext(r, h, asked, AskScore);
      asked := asked + [AskScore];
      if h.score.Err? { return Rejected(h.score.error), asked; }
      if h.score.value < 1 || h.score.value > 5 { return Rejected(OUT_OF_RANGE), asked; }
      return Enriched(summary, h.category.value, h.score.value), asked;
    }

    /** One request alone. Only the one that creates the row asks anything of the outside; an insert
        whose reply is lost leaves a blank row behind. */
    method Process(r: Request, absolute: bool, h: Heard, create: Fault, save: Fault, now: Time)
      returns (reply: Reply<Row>, created: bool, ghost asked: seq<Ask>)
      modifies table
      ensures var fits, u := absolute && r.meta.entryID > 0 && TrimSpace(r.meta.title) != "", r.meta.canonicalURL;
              && (created <==> fits && create.Clean? && u !in old(table.rows))
              && (!created ==> (reply.Err? <==> !fits || !create.Clean?))
              && (!created ==> table.rows == if fits && !create.Dropped? && u !in old(table.rows)
                                             then old(table.rows)[u := NewRow(old(table.next), r.meta)]
                                             else old(table.rows))
              && (!created && reply.Ok? ==> u in old(table.rows) && reply.value == old(table.rows)[u])
      ensures if created then AsksUpTo(r, h, asked) else asked == []
      ensures created ==>
                table.rows == AfterProcess(old(table.rows), old(table.next), r, Judge(lib, r, h), save, now)
      ensures created ==> (reply.Ok? <==> save.Clean? && Judge(lib, r, h).Enriched?)
    {
      created, asked := false, [];
      if !ValidRequest(r, absolute) { return Err("invalid request"), false, asked; }
      reply, created := table.Create(r.meta, create);
      if reply.Err? || !created { return; }
      var row, v := reply.value, Rejected("");
      v, asked := Enrich(r, h);
      var ok := table.Save(row.id, v, now, save);
      if !ok { reply := Err(STORE_ERROR); }
      else if v.Rejected? { reply := Err(v.reason); }
      else { reply := Ok(Settle(row, v, now)); }
    }
  }

  function AfterProcess(t: Table, next: nat, r: Request, v: Verdict, save: Fault, now: Time): Table {
    var created := t[r.meta.canonicalURL := NewRow(next, r.meta)];
    if save.Dropped? then created else Saved(created, next, v, now)
  }

  // ----- Requests interleaved -----

  type Tid = nat

  datatype PC = Creating | Fetching | Reading | Summarizing | Categorizing | Scoring | Saving(v: Verdict) | Done

  /** `id` is the row it created, if it did; `heard` fills up as the outside answers. */
  datatype Thread = Thread(request: Request, pc: PC, id: Option<nat>, heard: Heard, asked: seq<Ask>)

  /** `claims[u]` is the request whose insert made the row of `u`; `fetches` and `calls` count what
      was asked of the outside for a URL. */
  datatype State = State(
    table: Table, next: nat, threads: seq<Thread>, claims: map<string, Tid>,
    fetches: multiset<string>, calls: multiset<string>)

  datatype Event =
    | Arrive(request: Request)
    | Insert(t: Tid, fault: Fault)
    | Hear(t: Tid, says: Heard)
    | Save(t: Tid, fault: Fault, now: Time)
    | Open(id: nat, now: Time)

  const SILENCE := Heard(Err(""), Err(""), None, Err(""), Err(""))

  function URL(th: Thread): string {
    th.request.meta.canonicalURL
  }

  function AfterInsert(s: State, t: Tid, fault: Fault): State
    requires t < |s.threads|
  {
    var th := s.threads[t];
    if fault.Dropped? || URL(th) in s.table then s.(threads := s.threads[t := th.(pc := Done)])
    else
      s.(table := s.table[URL(th) := NewRow(s.next, th.request.meta)], next := s.next + 1,
         claims := s.claims[URL(th) := t],
         threads := s.threads[t := th.(id := Some(s.next), pc := if fault.Clean? then Fetching else Done)])
  }

  /** The thread after the next answer: on to the next step, or to saving the verdict once it is
      decided. */
  function Next(lib: Library, th: Thread, says: Heard): Thread {
    match th.pc
    case Fetching =>
      var h := th.heard.(fetched := says.fetched);
      th.(heard := h,
          pc := if ContentOf(th.request, h.fetched).Err? then Saving(Judge(lib, th.request, h)) else Reading)
    case Reading =>
      var h := th.heard.(preferences := says.preferences);
      th.(heard := h, pc := if h.preferences.Err? then Saving(Judge(lib, th.request, h)) else Summarizing)
    case Summarizing => th.(heard := th.heard.(summary := says.summary), pc := Categorizing)
    case Categorizing =>
      var h := th.heard.(category := says.category);
      th.(heard := h, pc := if h.category.Err? then Saving(Judge(lib, th.request, h)) else Scoring)
    case Scoring =>
      var h := th.heard.(score := says.score);
      th.(heard := h, pc := Saving(Judge(lib, th.request, h)))
    case _ => th
  }

  predicate Hears(pc: PC) {
    pc.Fetching? || pc.Reading? || pc.Summarizing? || pc.Categorizing? || pc.Scoring?
  }

  predicate AsksModel(pc: PC) {
    pc.Summarizing? || pc.Categorizing? || pc.Scoring?
  }

  /** What a thread asks in its next step. */
  function Asks(th: Thread): seq<Ask> {
    match th.pc
    case Fetching => if NeedsFetch(th.request) then [FetchPage] else []
    case Reading => [ReadPreferences]
    case Summarizing => [AskSummary]
    case Categorizing => [AskCategory]
    case Scoring => [AskScore]
    case _ => []
  }

  function AfterHear(lib: Library, s: State, t: Tid, says: Heard): State
    requires t < |s.threads|
  {
    var th := s.threads[t];
    s.(threads := s.threads[t := Next(lib, th, says).(asked := th.asked + Asks(th))],
       fetches := if th.pc.Fetching? && NeedsFetch(th.request) then s.fetches + multiset{URL(th)} else s.fetches,
       calls := if AsksModel(th.pc) then s.calls + multiset{URL(th)} else s.calls)
  }

  function AfterSave(s: State, t: Tid, fault: Fault, now: Time): State
    requires t < |s.threads| && s.threads[t].pc.Saving? && s.threads[t].id.Some?
  {
    var th := s.threads[t];
    s.(threads := s.threads[t := th.(pc := Done)],
       table := if fault.Dropped? then s.table else Saved(s.table, th.id.value, th.pc.v, now))
  }

  ghost predicate Step(lib: Library, s: State, e: Event, s': State) {
    match e
    case Arrive(request) => s' == s.(threads := s.threads + [Thread(request, Creating, None, SILENCE, [])])
    case Insert(t, fault) => t < |s.threads| && s.threads[t].pc.Creating? && s' == AfterInsert(s, t, fault)
    case Hear(t, says) => t < |s.threads| && Hears(s.threads[t].pc) && s' == AfterHear(lib, s, t, says)
    case Save(t, fault, now) =>
      t < |s.threads| && s.threads[t].pc.Saving? && (s.threads[t].id.Some? ==> s' == AfterSave(s, t, fault, now))
    case Open(id, now) => s' == s.(table := Opened(s.table, id, now))
  }

  /** The table may hold any rows at first; identifiers are told apart. */
  ghost predicate Keyed(t: Table, next: nat) {
    && (forall u :: u in t ==> t[u].id < next && t[u].meta.canonicalURL == u)
    && (forall u, w :: u in t && w in t && t[u].id == t[w].id ==> u == w)
  }

  ghost predicate Init(s: State) {
    Keyed(s.table, s.next) && s == State(s.table, s.next, [], map[], multiset{}, multiset{})
  }

  ghost predicate IsRun(lib: Library, states: seq<State>, events: seq<Event>) {
    && |states| == |events| + 1 && Init(states[0])
    && forall i :: 0 <= i < |events| ==> Step(lib, states[i], events[i], states[i + 1])
  }

  // ----- The invariant -----

  function CallsBefore(pc: PC): nat {
    match pc
    case Categorizing => 1
    case Scoring => 2
    case Saving(_) => 3
    case Done => 3
    case _ => 0
  }

  /** The row says what was decided. */
  predicate Shows(row: Row, v: Verdict) {
    match v
    case Enriched(summary, tag, score) =>
      && row.status == Complete && row.summary == Some(summary) && row.tags == [tag]
      && row.score == Some(score) && row.enrichedAt.Some? && row.reason.None?
    case Rejected(reason) => row.status == Failed && row.reason == Some(reason) && row.score.None? && row.summary.None?
  }

  predicate Blank(row: Row) {
    row.status == Processing && row.score.None? && row.summary.None? && row.reason.None? && row.tags == []
  }

  /** The row of a claimed URL is the claimant's, blank until it has saved its verdict. */
  ghost predicate ClaimOK(lib: Library, s: State, u: string) {
    u in s.claims ==>
      && u in s.table && s.claims[u] < |s.threads|
      && var th := s.threads[s.claims[u]];
         && URL(th) == u && th.id == Some(s.table[u].id) && !th.pc.Creating?
         && (!th.pc.Done? ==> Blank(s.table[u]))
         && (Blank(s.table[u]) || Shows(s.table[u], Judge(lib, th.request, th.heard)))
         && (th.pc.Saving? ==> th.pc.v == Judge(lib, th.request, th.heard))
         && s.fetches[u] <= (if th.pc.Fetching? then 0 else 1) && s.calls[u] <= CallsBefore(th.pc)
  }

  /** A request past its insert is the claimant of its URL; one that is not asks nothing. */
  ghost predicate ThreadOK(s: State, t: Tid)
    requires t < |s.threads|
  {
    var th := s.threads[t];
    && (th.id.Some? ==> URL(th) in s.claims && s.claims[URL(th)] == t)
    && (th.id.None? ==> th.pc.Creating? || th.pc.Done?)
  }

  ghost predicate Inv(lib: Library, s: State) {
    && Keyed(s.table, s.next)
    && (forall u :: ClaimOK(lib, s, u))
    && (forall t :: 0 <= t < |s.threads| ==> ThreadOK(s, t))
    && (forall u :: u !in s.claims ==> s.fetches[u] == 0 && s.calls[u] == 0)
  }

  lemma ArriveKeepsInv(lib: Library, s: State, request: Request)
    requires Inv(lib, s)
    ensures Inv(lib, s.(threads := s.threads + [Thread(request, Creating, None, SILENCE, [])]))
  {
    hide Judge, Shows, Blank, Keyed;
    var s' := s.(threads := s.threads + [Thread(request, Creating, None, SILENCE, [])]);
    forall u ensures ClaimOK(lib, s', u) { assert ClaimOK(lib, s, u); }
    forall t | 0 <= t < |s'.threads| ensures ThreadOK(s', t) { assert t < |s.threads| ==> ThreadOK(s, t); }
  }

  lemma InsertKeepsClaim(lib: Library, s: State, t: Tid, fault: Fault, u: string)
    requires t < |s.threads| && s.threads[t].pc.Creating? && s.threads[t].id.None?
    requires ClaimOK(lib, s, u)
    requires URL(s.threads[t]) !in s.table ==> s.fetches[URL(s.threads[t])] == 0 && s.calls[URL(s.threads[t])] == 0
    ensures ClaimOK(lib, AfterInsert(s, t, fault), u)
  {
    hide Judge, Shows;
  }

  lemma InsertKeepsKeys(s: State, t: Tid, fault: Fault)
    requires t < |s.threads| && Keyed(s.table, s.next)
    ensures Keyed(AfterInsert(s, t, fault).table, AfterInsert(s, t, fault).next)
  {
  }

  lemma InsertKeepsInv(lib: Library, s: State, t: Tid, fault: Fault)
    requires Inv(lib, s) && t < |s.threads| && s.threads[t].pc.Creating?
    ensures Inv(lib, AfterInsert(s, t, fault))
  {
    var s' := AfterInsert(s, t, fault);
    assert ThreadOK(s, t);
    assert ClaimOK(lib, s, URL(s.threads[t]));
    assert s.threads[t].id.None?;
    InsertKeepsKeys(s, t, fault);
    forall u ensures ClaimOK(lib, s', u) {
      hide ClaimOK, Keyed, AfterInsert;
      InsertKeepsClaim(lib, s, t, fault, u);
    }
    hide ClaimOK, Keyed;
    forall v | 0 <= v < |s'.threads| ensures ThreadOK(s', v) {
      hide AfterInsert, ThreadOK;
      InsertKeepsThread(s, t, fault, v);
    }
  }

  lemma InsertKeepsThread(s: State, t: Tid, fault: Fault, v: Tid)
    requires t < |s.threads| && s.threads[t].pc.Creating? && s.threads[t].id.None?
    requires URL(s.threads[t]) in s.claims ==> URL(s.threads[t]) in s.table
    requires v < |s.threads| && ThreadOK(s, v)
    ensures |AfterInsert(s, t, fault).threads| == |s.threads| && ThreadOK(AfterInsert(s, t, fault), v)
  {
  }

  lemma HearKeepsInv(lib: Library, s: State, t: Tid, says: Heard)
    requires Inv(lib, s) && t < |s.threads| && Hears(s.threads[t].pc)
    ensures Inv(lib, AfterHear(lib, s, t, says))
  {
    hide Judge, Shows, Keyed, Blank, ContentOf, NeedsFetch;
    var s' := AfterHear(lib, s, t, says);
    assert ThreadOK(s, t);
    forall u ensures ClaimOK(lib, s', u) { assert ClaimOK(lib, s, u); }
    forall v | 0 <= v < |s'.threads| ensures ThreadOK(s', v) { assert ThreadOK(s, v); }
  }

  lemma OthersStay(t: Table, next: nat, mine: string, v: Verdict, now: Time)
    requires Keyed(t, next) && mine in t
    ensures Keyed(Saved(t, t[mine].id, v, now), next)
    ensures forall u :: u in t && u != mine ==> Saved(t, t[mine].id, v, now)[u] == t[u]
    ensures Saved(t, t[mine].id, v, now).Keys == t.Keys && Saved(t, t[mine].id, v, now)[mine].id == t[mine].id
  {
  }

  lemma SettledShows(t: Table, next: nat, mine: string, v: Verdict, now: Time)
    requires Keyed(t, next) && mine in t && Blank(t[mine])
    ensures Shows(Saved(t, t[mine].id, v, now)[mine], v)
  {
  }

  lemma SaveKeepsClaim(lib: Library, s: State, t: Tid, fault: Fault, now: Time, u: string)
    requires t < |s.threads| && s.threads[t].pc.Saving? && s.threads[t].id.Some? && Keyed(s.table, s.next)
    requires ClaimOK(lib, s, URL(s.threads[t])) && ClaimOK(lib, s, u)
    requires URL(s.threads[t]) in s.claims && s.claims[URL(s.threads[t])] == t
    ensures ClaimOK(lib, AfterSave(s, t, fault, now), u)
  {
    hide Judge, Keyed, Saved, Settle, Shows, Blank;
    var mine := URL(s.threads[t]);
    OthersStay(s.table, s.next, mine, s.threads[t].pc.v, now);
    if u == mine && !fault.Dropped? { SettledShows(s.table, s.next, mine, s.threads[t].pc.v, now); }
  }

  lemma SaveKeepsInv(lib: Library, s: State, t: Tid, fault: Fault, now: Time)
    requires Inv(lib, s) && t < |s.threads| && s.threads[t].pc.Saving?
    ensures s.threads[t].id.Some? && Inv(lib, AfterSave(s, t, fault, now))
  {
    hide Judge, Keyed, Saved;
    assert ThreadOK(s, t);
    var s', mine := AfterSave(s, t, fault, now), URL(s.threads[t]);
    assert ClaimOK(lib, s, mine);
    OthersStay(s.table, s.next, mine, s.threads[t].pc.v, now);
    hide ClaimOK;
    forall u ensures ClaimOK(lib, s', u) {
      SaveKeepsClaim(lib, s, t, fault, now, u);
    }
    forall v | 0 <= v < |s'.threads| ensures ThreadOK(s', v) { assert ThreadOK(s, v); }
  }

  lemma OpenKeepsInv(lib: Library, s: State, id: nat, now: Time)
    requires Inv(lib, s)
    ensures Inv(lib, s.(table := Opened(s.table, id, now)))
  {
    hide Judge;
    var s' := s.(table := Opened(s.table, id, now));
    forall u ensures ClaimOK(lib, s', u) { assert ClaimOK(lib, s, u); }
    forall v | 0 <= v < |s'.threads| ensures ThreadOK(s', v) { assert ThreadOK(s, v); }
  }

  lemma {:induction false} RunKeepsInv(lib: Library, states: seq<State>, events: seq<Event>, i: nat)
    requires IsRun(lib, states, events) && i < |states|
    ensures Inv(lib, states[i])
  {
    if i > 0 {
      RunKeepsInv(lib, states, events, i - 1);
      assert Step(lib, states[i - 1], events[i - 1], states[i]);
      hide Inv, IsRun, AfterInsert, AfterHear, AfterSave, Opened;
      StepKeepsInv(lib, states[i - 1], events[i - 1], states[i]);
    }
  }

  lemma StepKeepsInv(lib: Library, s: State, e: Event, s': State)
    requires Inv(lib, s) && Step(lib, s, e, s')
    ensures Inv(lib, s')
  {
    hide Inv, AfterInsert, AfterHear, AfterSave, Opened;
    match e
    case Arrive(request) => ArriveKeepsInv(lib, s, request);
    case Insert(t, fault) => InsertKeepsInv(lib, s, t, fault);
    case Hear(t, says) => HearKeepsInv(lib, s, t, says);
    case Save(t, fault, now) => SaveKeepsInv(lib, s, t, fault, now);
    case Open(id, now) => OpenKeepsInv(lib, s, id, now);
  }

  // ----- What every run keeps -----

  /** A URL is claimed by one request, whoever else asks for it. */
  lemma ClaimedOnce(lib: Library, states: seq<State>, events: seq<Event>, i: nat, t: Tid, v: Tid)
    requires IsRun(lib, states, events) && i < |states| && t < |states[i].threads| && v < |states[i].threads|
    requires states[i].threads[t].id.Some? && states[i].threads[v].id.Some?
    requires URL(states[i].threads[t]) == URL(states[i].threads[v])
    ensures t == v
  {
    RunKeepsInv(lib, states, events, i);
    assert ThreadOK(states[i], t) && ThreadOK(states[i], v);
  }

  /** So the outside is asked at most once for its page and three times of the model, and never for
      a URL that was there before. */
  lemma AskedAtMostOnce(lib: Library, states: seq<State>, events: seq<Event>, i: nat, u: string)
    requires IsRun(lib, states, events) && i < |states|
    ensures states[i].fetches[u] <= 1 && states[i].calls[u] <= 3
    ensures u !in states[i].claims ==> states[i].fetches[u] == 0 && states[i].calls[u] == 0
  {
    RunKeepsInv(lib, states, events, i);
    assert ClaimOK(lib, states[i], u);
  }

  /** The row of a claimed URL is still blank or says what the answers its claimant heard amount to;
      complete, it has a Score of one to five, one tag and a Summary. */
  lemma RowIsJudged(lib: Library, states: seq<State>, events: seq<Event>, i: nat, u: string)
    requires IsRun(lib, states, events) && i < |states| && u in states[i].claims
    ensures u in states[i].table && states[i].claims[u] < |states[i].threads|
    ensures var row, th := states[i].table[u], states[i].threads[states[i].claims[u]];
            && URL(th) == u
            && (Blank(row) || Shows(row, Judge(lib, th.request, th.heard)))
            && (row.status.Complete? ==>
                  && row.score.Some? && 1 <= row.score.value <= 5
                  && |row.tags| == 1 && row.summary.Some? && row.enrichedAt.Some?)
  {
    RunKeepsInv(lib, states, events, i);
    assert ClaimOK(lib, states[i], u);
  }

  /** Somebody may still save to the row. */
  predicate Live(s: State, u: string) {
    u in s.claims && s.claims[u] < |s.threads| && !s.threads[s.claims[u]].pc.Done?
  }

  /** The same but for the first Open. */
  predicate SameButOpened(a: Row, b: Row) {
    b == a.(openedAt := b.openedAt) && (a.openedAt.Some? ==> b.openedAt == a.openedAt)
  }

  lemma SaveLeavesRow(lib: Library, s: State, t: Tid, fault: Fault, now: Time, u: string)
    requires Inv(lib, s) && t < |s.threads| && s.threads[t].pc.Saving? && s.threads[t].id.Some?
    requires u in s.table && !Live(s, u)
    ensures var s' := AfterSave(s, t, fault, now); u in s'.table && !Live(s', u) && s'.table[u] == s.table[u]
  {
    assert ThreadOK(s, t);
    assert ClaimOK(lib, s, URL(s.threads[t]));
    OthersStay(s.table, s.next, URL(s.threads[t]), s.threads[t].pc.v, now);
    hide Inv, ClaimOK, Saved;
  }

  lemma HearLeavesRow(lib: Library, s: State, t: Tid, says: Heard, u: string)
    requires t < |s.threads| && Hears(s.threads[t].pc) && ThreadOK(s, t)
    requires u in s.table && !Live(s, u)
    ensures var s' := AfterHear(lib, s, t, says); u in s'.table && !Live(s', u) && s'.table[u] == s.table[u]
  {
    hide Next;
    assert s.claims[URL(s.threads[t])] == t;
  }

  lemma StepLeavesRow(lib: Library, s: State, e: Event, s': State, u: string)
    requires Inv(lib, s) && Step(lib, s, e, s') && u in s.table && !Live(s, u)
    ensures u in s'.table && !Live(s', u) && SameButOpened(s.table[u], s'.table[u])
  {
    hide Judge, AfterHear, AfterSave, ClaimOK, Keyed;
    match e
    case Save(t, fault, now) =>
      assert ThreadOK(s, t);
      SaveLeavesRow(lib, s, t, fault, now, u);
    case Hear(t, says) =>
      assert ThreadOK(s, t);
      HearLeavesRow(lib, s, t, says, u);
    case Insert(t, fault) => InsertLeavesRow(s, t, fault, u);
    case Arrive(_) => assert ClaimInside(s, u) by { ClaimIsInside(lib, s, u); }
    case Open(_, _) =>
  }

  /** A claim is by a request there is. */
  predicate ClaimInside(s: State, u: string) {
    u in s.claims ==> s.claims[u] < |s.threads|
  }

  lemma ClaimIsInside(lib: Library, s: State, u: string)
    requires Inv(lib, s)
    ensures ClaimInside(s, u)
  {
    assert ClaimOK(lib, s, u);
  }

  lemma InsertLeavesRow(s: State, t: Tid, fault: Fault, u: string)
    requires t < |s.threads| && s.threads[t].pc.Creating? && u in s.table && !Live(s, u)
    ensures var s' := AfterInsert(s, t, fault); u in s'.table && !Live(s', u) && s'.table[u] == s.table[u]
  {
  }

  /** A row nobody is at work on never changes again, except for its first Open: one that is
      complete or failed, one that was there before, and one left processing by a lost reply. */
  lemma {:induction false} RowIsFinal(lib: Library, states: seq<State>, events: seq<Event>, i: nat, j: nat, u: string)
    requires IsRun(lib, states, events) && i <= j < |states|
    requires u in states[i].table && !Live(states[i], u)
    ensures u in states[j].table && !Live(states[j], u) && SameButOpened(states[i].table[u], states[j].table[u])
    decreases j
  {
    if i < j {
      RowIsFinal(lib, states, events, i, j - 1, u);
      RunKeepsInv(lib, states, events, j - 1);
      assert Step(lib, states[j - 1], events[j - 1], states[j]);
      hide Inv, Step, IsRun, Live;
      StepLeavesRow(lib, states[j - 1], events[j - 1], states[j], u);
    }
  }

  /** A claimed row that is not processing is final. */
  lemma SettledIsFinal(lib: Library, states: seq<State>, events: seq<Event>, i: nat, u: string)
    requires IsRun(lib, states, events) && i < |states|
    requires u in states[i].table && !states[i].table[u].status.Processing?
    ensures !Live(states[i], u)
  {
    RunKeepsInv(lib, states, events, i);
    assert ClaimOK(lib, states[i], u);
  }

  /** Rows appear processing, claimed by the request that made them, and none disappears. */
  lemma RowsAppearBlank(lib: Library, states: seq<State>, events: seq<Event>, i: nat, u: string)
    requires IsRun(lib, states, events) && i < |events|
    ensures u in states[i].table ==> u in states[i + 1].table
    ensures u !in states[i].table && u in states[i + 1].table ==>
              Blank(states[i + 1].table[u]) && u in states[i + 1].claims
  {
    RunKeepsInv(lib, states, events, i);
    assert Step(lib, states[i], events[i], states[i + 1]);
    hide IsRun, Keyed, ClaimOK, Judge;
    if events[i].Save? { assert ThreadOK(states[i], events[i].t); }
  }

  /** The first Open is the one that stays, whatever else happens to the row. */
  lemma {:induction false} FirstOpenStays(lib: Library, states: seq<State>, events: seq<Event>,
                                          i: nat, j: nat, u: string)
    requires IsRun(lib, states, events) && i <= j < |states|
    requires u in states[i].table && states[i].table[u].openedAt.Some?
    ensures u in states[j].table && states[j].table[u].openedAt == states[i].table[u].openedAt
    decreases j
  {
    if i < j {
      FirstOpenStays(lib, states, events, i, j - 1, u);
      RunKeepsInv(lib, states, events, j - 1);
      assert Step(lib, states[j - 1], events[j - 1], states[j]);
      hide IsRun;
      StepKeepsOpen(lib, states[j - 1], events[j - 1], states[j], u);
    }
  }

  lemma StepKeepsOpen(lib: Library, s: State, e: Event, s': State, u: string)
    requires Inv(lib, s) && Step(lib, s, e, s') && u in s.table && s.table[u].openedAt.Some?
    ensures u in s'.table && s'.table[u].openedAt == s.table[u].openedAt
  {
    hide Keyed, ClaimOK, Judge;
    if e.Save? { assert ThreadOK(s, e.t); }
  }

  /** A request alone leaves every other row as it was, and in its own what was decided, or nothing
      when the save is dropped. */
  lemma ProcessSettles(t: Table, next: nat, r: Request, v: Verdict, save: Fault, now: Time)
    requires Keyed(t, next) && r.meta.canonicalURL !in t
    ensures var after, u := AfterProcess(t, next, r, v, save, now), r.meta.canonicalURL;
            && after.Keys == t.Keys + {u} && (forall w :: w in t ==> after[w] == t[w])
            && after[u].meta == r.meta && after[u].openedAt.None?
            && (if save.Dropped? then Blank(after[u]) else Shows(after[u], v))
  {
  }

  // ----- Everything is asked that is due -----

  function StillToAsk(pc: PC): nat {
    match pc
    case Reading => 4
    case Summarizing => 3
    case Categorizing => 2
    case Scoring => 1
    case _ => 0
  }

  /** A request has asked the script up to where it stands, with no answer that rejects; its verdict is
      due when it has one, or has asked everything. */
  ghost predicate AskOK(th: Thread) {
    match th.pc
    case Creating => th.asked == []
    case Fetching => th.asked == []
    case Saving(v) => AsksUpTo(th.request, th.heard, th.asked)
                      && (v.Rejected? <==> Rejects(th.request, th.heard, th.asked[|th.asked| - 1]))
    case Done => th.asked == [] || AsksUpTo(th.request, th.heard, th.asked)
    case _ => StillToAsk(th.pc) + |th.asked| == |Script(th.request)| && Asking(th.request, th.heard, th.asked)
  }

  /** Answers to what has not been asked yet do not matter. */
  lemma LaterAnswers(r: Request, h: Heard, h': Heard, asked: seq<Ask>)
    requires Asking(r, h, asked)
    requires forall a :: a in asked ==> (Rejects(r, h, a) <==> Rejects(r, h', a))
    ensures Asking(r, h', asked)
  {
  }

  lemma ScriptPlaces(r: Request)
    ensures var n := |Script(r)|;
            && n == 4 + (if NeedsFetch(r) then 1 else 0)
            && Script(r)[n - 4..] == [ReadPreferences, AskSummary, AskCategory, AskScore]
            && (NeedsFetch(r) ==> Script(r)[0] == FetchPage)
            && FetchPage !in Script(r)[n - 4..]
  {
  }

  lemma JudgeMeans(lib: Library, r: Request, h: Heard)
    ensures Judge(lib, r, h).Rejected? <==> exists a :: a in Script(r) && Rejects(r, h, a)
  {
    hide TrimSpace, Stored;
    var tail := [ReadPreferences, AskSummary, AskCategory, AskScore];
    assert ReadPreferences in tail && AskCategory in tail && AskScore in tail;
    assert forall a :: a in tail ==> a in Script(r);
    assert NeedsFetch(r) ==> FetchPage in [FetchPage] + tail;
  }

  /** The verdict on what has been heard says which answer rejected the Article, if one did. */
  lemma JudgeRejects(lib: Library, r: Request, h: Heard, asked: seq<Ask>)
    requires AsksUpTo(r, h, asked)
    ensures Judge(lib, r, h).Rejected? <==> Rejects(r, h, asked[|asked| - 1])
  {
    JudgeMeans(lib, r, h);
    hide Script, Judge, Rejects;
    var last := |asked| - 1;
    assert asked[last] == Script(r)[last] && asked[last] in Script(r);
    if !Rejects(r, h, asked[last]) {
      forall a | a in Script(r) ensures !Rejects(r, h, a) {
        var k :| 0 <= k < |asked| && asked[k] == a;
      }
    }
  }

  function ReasonOf(r: Request, h: Heard, a: Ask): string
    requires Rejects(r, h, a)
  {
    match a
    case FetchPage => if h.fetched.Err? then h.fetched.error else UNREADABLE
    case ReadPreferences => h.preferences.error
    case AskCategory => h.category.error
    case AskScore => if h.score.Err? then h.score.error else OUT_OF_RANGE
  }

  /** What comes before a question in the script. */
  lemma BeforeLast(r: Request, h: Heard, asked: seq<Ask>)
    requires AsksUpTo(r, h, asked)
    ensures var a := asked[|asked| - 1];
            && (a != FetchPage && NeedsFetch(r) ==> !Rejects(r, h, FetchPage))
            && (a.AskCategory? || a.AskScore? ==> !Rejects(r, h, ReadPreferences))
            && (a.AskScore? ==> !Rejects(r, h, AskCategory))
            && (a == FetchPage ==> NeedsFetch(r))
  {
    hide Rejects;
    var last, n := |asked| - 1, |Script(r)|;
    assert forall k :: 0 <= k <= last ==> asked[k] == Script(r)[k];
    assert Script(r)[n - 4] == ReadPreferences && Script(r)[n - 3] == AskSummary;
    assert Script(r)[n - 2] == AskCategory && Script(r)[n - 1] == AskScore;
    assert last > n - 4 ==> !Rejects(r, h, asked[n - 4]);
    assert last > n - 2 ==> !Rejects(r, h, asked[n - 2]);
    assert last > 0 ==> !Rejects(r, h, asked[0]);
  }

  /** A rejected Article is told the error of the call that rejected it. */
  lemma ReasonIsOfTheLast(lib: Library, r: Request, h: Heard, asked: seq<Ask>)
    requires AsksUpTo(r, h, asked) && Rejects(r, h, asked[|asked| - 1])
    ensures Judge(lib, r, h) == Rejected(ReasonOf(r, h, asked[|asked| - 1]))
  {
    BeforeLast(r, h, asked);
    hide TrimSpace, Stored, AsksUpTo, Script;
  }

  lemma FetchKeepsAsks(lib: Library, th: Thread, says: Heard)
    requires AskOK(th) && th.pc.Fetching?
    ensures AskOK(Next(lib, th, says).(asked := th.asked + Asks(th)))
  {
    var r, th' := th.request, Next(lib, th, says).(asked := th.asked + Asks(th));
    ScriptPlaces(r);
    assert Asking(r, th'.heard, []);
    if NeedsFetch(r) {
      AskNext(r, th'.heard, [], FetchPage);
      assert th'.asked == [] + [FetchPage];
    } else {
      hide TrimSpace, Judge;
    }
    hide Asking, AsksUpTo, Judge, TrimSpace, Stored;
    if th'.pc.Saving? { JudgeRejects(lib, r, th'.heard, th'.asked); }
  }

  /** An answer bears on its own question and on no earlier one. */
  lemma OwnAnswer(lib: Library, th: Thread, says: Heard, a: Ask)
    requires Hears(th.pc) && !th.pc.Fetching? && a in Script(th.request)[..|Script(th.request)| - StillToAsk(th.pc)]
    ensures Rejects(th.request, th.heard, a) <==> Rejects(th.request, Next(lib, th, says).heard, a)
  {
    hide TrimSpace, Judge, ContentOf;
  }

  lemma NextPC(lib: Library, th: Thread, says: Heard)
    requires Hears(th.pc) && !th.pc.Fetching?
    ensures var th' := Next(lib, th, says);
            && th'.request == th.request && |Asks(th)| == 1
            && (if Rejects(th.request, th'.heard, Asks(th)[0]) || th.pc.Scoring?
                then th'.pc == Saving(Judge(lib, th.request, th'.heard))
                else (th'.pc.Summarizing? || th'.pc.Categorizing? || th'.pc.Scoring?)
                     && StillToAsk(th'.pc) == StillToAsk(th.pc) - 1)
            && (th.pc.Scoring? <==> Asks(th)[0].AskScore?)
            && Script(th.request)[|Script(th.request)| - StillToAsk(th.pc)] == Asks(th)[0]
  {
    hide TrimSpace, Judge, ContentOf;
  }

  lemma HearKeepsAsks(lib: Library, th: Thread, says: Heard)
    requires AskOK(th) && Hears(th.pc) && !th.pc.Fetching?
    ensures AskOK(Next(lib, th, says).(asked := th.asked + Asks(th)))
  {
    var r := th.request;
    NextPC(lib, th, says);
    assert th.asked == Script(r)[..|th.asked|] && |th.asked| == |Script(r)| - StillToAsk(th.pc);
    hide Next, Asks, Judge, Rejects, Script, AsksUpTo, Hears;
    var th' := Next(lib, th, says);
    var asked, a := th.asked + Asks(th), Asks(th)[0];
    forall b | b in th.asked ensures Rejects(r, th.heard, b) <==> Rejects(r, th'.heard, b) {
      OwnAnswer(lib, th, says, b);
    }
    LaterAnswers(r, th.heard, th'.heard, th.asked);
    hide Asking;
    AskNext(r, th'.heard, th.asked, a);
    assert asked == th.asked + [a] && asked[|asked| - 1] == a;
    if th'.pc.Saving? { JudgeRejects(lib, r, th'.heard, asked); }
  }

  lemma StepKeepsAsks(lib: Library, s: State, e: Event, s': State, t: Tid)
    requires Step(lib, s, e, s') && t < |s.threads| && AskOK(s.threads[t])
    requires e.Save? && e.t < |s.threads| ==> ThreadOK(s, e.t)
    ensures t < |s'.threads| && AskOK(s'.threads[t])
  {
    hide Next, Saved, Opened, Asking, AsksUpTo, Rejects, Script, Judge;
    if e.Hear? && e.t == t {
      var th := s.threads[t];
      assert s'.threads[t] == Next(lib, th, e.says).(asked := th.asked + Asks(th));
      hide AskOK;
      if th.pc.Fetching? { FetchKeepsAsks(lib, th, e.says); } else { HearKeepsAsks(lib, th, e.says); }
    }
  }

  lemma NewThreads(lib: Library, s: State, e: Event, s': State, t: Tid)
    requires Step(lib, s, e, s') && |s.threads| <= t < |s'.threads|
    requires e.Save? && e.t < |s.threads| ==> ThreadOK(s, e.t)
    ensures s'.threads[t].asked == [] && s'.threads[t].pc.Creating?
  {
    hide Next, Saved, Opened;
  }

  lemma SaverOK(lib: Library, s: State, e: Event)
    requires Inv(lib, s)
    ensures e.Save? && e.t < |s.threads| ==> ThreadOK(s, e.t)
  {
    hide ThreadOK, ClaimOK, Keyed;
  }

  lemma LastStep(lib: Library, states: seq<State>, events: seq<Event>, i: nat)
    requires IsRun(lib, states, events) && 0 < i < |states|
    ensures |states| == |events| + 1 && Step(lib, states[i - 1], events[i - 1], states[i])
  {
    hide Step;
  }

  lemma {:induction false} RunKeepsAsks(lib: Library, states: seq<State>, events: seq<Event>, i: nat, t: Tid)
    requires IsRun(lib, states, events) && i < |states| && t < |states[i].threads|
    ensures AskOK(states[i].threads[t])
    decreases i
  {
    if i > 0 {
      hide IsRun, Inv, Step, Asking, AsksUpTo;
      var s := states[i - 1];
      LastStep(lib, states, events, i);
      RunKeepsInv(lib, states, events, i - 1);
      SaverOK(lib, s, events[i - 1]);
      if t < |s.threads| {
        RunKeepsAsks(lib, states, events, i - 1, t);
        StepKeepsAsks(lib, s, events[i - 1], states[i], t);
      } else {
        NewThreads(lib, s, events[i - 1], states[i], t);
      }
    }
  }

  /** A verdict that is being saved is that on what was heard, and comes of the first answer that
      rejects the Article or of the whole script; and a request that asked anything has gone that
      far when it is done. */
  lemma NothingIsSkipped(lib: Library, states: seq<State>, events: seq<Event>, i: nat, t: Tid)
    requires IsRun(lib, states, events) && i < |states| && t < |states[i].threads|
    ensures var th := states[i].threads[t];
            && (th.pc.Saving? ==>
                  && th.pc.v == Judge(lib, th.request, th.heard) && AsksUpTo(th.request, th.heard, th.asked)
                  && (th.pc.v.Rejected? <==> Rejects(th.request, th.heard, th.asked[|th.asked| - 1])))
            && (th.pc.Done? ==> th.asked == [] || AsksUpTo(th.request, th.heard, th.asked))
  {
    RunKeepsAsks(lib, states, events, i, t);
    RunKeepsInv(lib, states, events, i);
    assert ThreadOK(states[i], t);
    assert ClaimOK(lib, states[i], URL(states[i].threads[t]));
    hide IsRun, Judge, AsksUpTo, Rejects;
  }

  /** A request that finds no row of its URL makes one, unless its insert is dropped, and goes on to
      ask when it hears of it; any other asks nothing. */
  lemma InsertDecides(lib: Library, states: seq<State>, events: seq<Event>, i: nat, t: Tid, fault: Fault)
    requires IsRun(lib, states, events) && i < |events| && events[i] == Insert(t, fault) && t < |states[i].threads|
    requires |states| == |events| + 1
    ensures var s, s', u := states[i], states[i + 1], URL(states[i].threads[t]);
            && t < |s'.threads|
            && (u in s'.table <==> u in s.table || !fault.Dropped?)
            && (u !in s.table && u in s'.table ==> s'.table[u].meta == s.threads[t].request.meta)
            && s'.threads[t].pc == (if u !in s.table && fault.Clean? then Fetching else Done)
            && s'.threads[t].asked == []
  {
    RunKeepsAsks(lib, states, events, i, t);
    assert Step(lib, states[i], events[i], states[i + 1]);
    hide IsRun;
  }

  /** A save that lands leaves the row saying what was decided. */
  lemma SaveSettles(lib: Library, states: seq<State>, events: seq<Event>, i: nat, t: Tid, fault: Fault, now: Time)
    requires IsRun(lib, states, events) && i < |events| && |states| == |events| + 1
    requires events[i] == Save(t, fault, now) && t < |states[i].threads| && !fault.Dropped?
    ensures var th, table := states[i].threads[t], states[i + 1].table;
            && URL(th) in table && Shows(table[URL(th)], Judge(lib, th.request, th.heard))
            && !table[URL(th)].status.Processing?
            && (table[URL(th)].status.Complete? ==> table[URL(th)].enrichedAt == Some(now))
  {
    RunKeepsInv(lib, states, events, i);
    var s, th := states[i], states[i].threads[t];
    assert Step(lib, s, events[i], states[i + 1]);
    assert ThreadOK(s, t) && ClaimOK(lib, s, URL(th));
    hide IsRun, Judge, Inv, ClaimOK, ThreadOK;
    SettledShows(s.table, s.next, URL(th), th.pc.v, now);
  }

  /** After an Open the row has its first one. */
  lemma OpenIsKept(lib: Library, states: seq<State>, events: seq<Event>, i: nat, id: nat, now: Time, u: string)
    requires IsRun(lib, states, events) && i < |events| && |states| == |events| + 1 && events[i] == Open(id, now)
    requires u in states[i].table && states[i].table[u].id == id
    ensures var was := states[i].table[u].openedAt;
            u in states[i + 1].table && states[i + 1].table[u].openedAt == if was.Some? then was else Some(now)
  {
    assert Step(lib, states[i], events[i], states[i + 1]);
  }

  // ----- What was heard -----

  /** The two say the same to the question. */
  predicate SameAnswer(h: Heard, h': Heard, a: Ask) {
    match a
    case FetchPage => h.fetched == h'.fetched
    case ReadPreferences => h.preferences == h'.preferences
    case AskSummary => h.summary == h'.summary
    case AskCategory => h.category == h'.category
    case AskScore => h.score == h'.score
  }

  /** The answer heard is kept. */
  lemma HearsIt(lib: Library, th: Thread, says: Heard, a: Ask)
    requires Hears(th.pc) && a in Asks(th)
    ensures SameAnswer(says, Next(lib, th, says).heard, a)
  {
    hide Judge, TrimSpace, ContentOf, NeedsFetch;
  }

  /** And so are those to earlier questions. */
  lemma KeepsEarlier(lib: Library, th: Thread, says: Heard, a: Ask)
    requires Hears(th.pc) && !th.pc.Fetching? && a in Script(th.request)[..|Script(th.request)| - StillToAsk(th.pc)]
    ensures SameAnswer(th.heard, Next(lib, th, says).heard, a)
  {
    hide TrimSpace, Judge, ContentOf;
  }

  /** A step that hears an answer keeps it, and those it has heard before. */
  lemma NextHears(lib: Library, th: Thread, says: Heard, a: Ask)
    requires AskOK(th) && Hears(th.pc)
    ensures a in Asks(th) ==> SameAnswer(says, Next(lib, th, says).heard, a)
    ensures a in th.asked ==> SameAnswer(th.heard, Next(lib, th, says).heard, a)
  {
    if !th.pc.Fetching? && a in th.asked {
      assert th.asked == Script(th.request)[..|Script(th.request)| - StillToAsk(th.pc)];
    }
    assert th.pc.Fetching? ==> th.asked == [];
    hide AskOK, Next, Asks, SameAnswer, Script, StillToAsk;
    if a in Asks(th) { HearsIt(lib, th, says, a); }
    if a in th.asked { KeepsEarlier(lib, th, says, a); }
  }

  lemma OtherThreads(lib: Library, s: State, e: Event, s': State, t: Tid)
    requires Step(lib, s, e, s') && t < |s.threads| && !(e.Hear? && e.t == t)
    requires e.Save? && e.t < |s.threads| ==> ThreadOK(s, e.t)
    ensures t < |s'.threads| && s'.threads[t].heard == s.threads[t].heard && s'.threads[t].asked == s.threads[t].asked
  {
    hide Next, Saved, Opened;
  }

  /** What a request goes by is what it was told: each of its questions was answered so, once, at a step
      of its own. */
  lemma {:induction false} AnswersAreKept(lib: Library, states: seq<State>, events: seq<Event>, i: nat, t: Tid, a: Ask)
    returns (k: nat)
    requires IsRun(lib, states, events) && i < |states| && t < |states[i].threads| && a in states[i].threads[t].asked
    ensures k < i && k < |events| && events[k].Hear? && events[k].t == t
    ensures SameAnswer(events[k].says, states[i].threads[t].heard, a)
    decreases i
  {
    if i == 0 {
      assert false;
    } else {
      var s, e := states[i - 1], events[i - 1];
      RunKeepsInv(lib, states, events, i - 1);
      assert Step(lib, s, e, states[i]);
      assert e.Save? && e.t < |s.threads| ==> ThreadOK(s, e.t);
      hide Step, Inv, SameAnswer;
      if t >= |s.threads| {
        NewThreads(lib, s, e, states[i], t);
      } else if e.Hear? && e.t == t {
        RunKeepsAsks(lib, states, events, i - 1, t);
        HearStep(lib, s, e, states[i], a);
        if a in s.threads[t].asked {
          k := AnswersAreKept(lib, states, events, i - 1, t, a);
          Transitive(events[k].says, s.threads[t].heard, states[i].threads[t].heard, a);
        } else {
          k := i - 1;
        }
      } else {
        OtherThreads(lib, s, e, states[i], t);
        k := AnswersAreKept(lib, states, events, i - 1, t, a);
      }
    }
  }

  lemma Transitive(h: Heard, h': Heard, h'': Heard, a: Ask)
    requires SameAnswer(h, h', a) && SameAnswer(h', h'', a)
    ensures SameAnswer(h, h'', a)
  {
  }

  lemma HearStep(lib: Library, s: State, e: Event, s': State, a: Ask)
    requires e.Hear? && Step(lib, s, e, s') && e.t < |s.threads| && AskOK(s.threads[e.t])
    requires e.t < |s'.threads| && a in s'.threads[e.t].asked
    ensures var th, h := s.threads[e.t], s'.threads[e.t].heard;
            && (a in th.asked ==> SameAnswer(th.heard, h, a))
            && (a !in th.asked ==> SameAnswer(e.says, h, a))
  {
    var th := s.threads[e.t];
    assert s'.threads[e.t] == Next(lib, th, e.says).(asked := th.asked + Asks(th));
    hide Next, AskOK, SameAnswer;
    NextHears(lib, th, e.says, a);
  }
}
