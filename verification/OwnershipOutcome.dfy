/** What a migration leaves behind (internal/ownership/run.go, internal/storage/ownership_repo.go),
    said of the rows and the report alone: nothing is overwritten, everything is delivered, and the
    report counts what happened. */
module OwnershipOutcome {
  import opened Counting
  import opened Text
  import opened OwnershipPlan
  import opened OwnershipRun

  // ----- Nothing is overwritten -----

  /** `row` is what is left of what was found at its URL, with gaps filled from `r` at most; or, when
      nothing was found, `r` itself. */
  ghost predicate Comes(found: Option<IndexRow>, row: IndexRow, r: IndexImport) {
    match found
    case None => Born(row, r)
    case Some(was) =>
      && Keeps(was, row)
      && (row.openedAt == was.openedAt || row.openedAt == r.openedAt)
      && (row.feedback == was.feedback || BringsVote(row.feedback, r))
  }

  ghost predicate RowComes(found: Option<IndexRow>, now: Option<IndexRow>, r: IndexImport) {
    now == found || (now.Some? && Comes(found, now.value, r))
  }

  lemma StepComes(index: Index, r: IndexImport, f: Fate, write: Write, found: Option<IndexRow>)
    requires RowComes(found, RowAt(index, r.canonicalURL), r)
    ensures RowComes(found, RowAt(RecordStep(index, r, f, write).0, r.canonicalURL), r)
  {
    hide Acceptable, Outcome;
  }

  /** No row is lost or overwritten: each is as it was found, or comes from it and the record of its
      URL; and no saved URL is lost or retitled. */
  ghost predicate Preserves(start: World, now: World, p: Plan) {
    && (forall r :: r in p.records ==>
          RowComes(RowAt(start.index, r.canonicalURL), RowAt(now.index, r.canonicalURL), r))
    && (forall u :: (forall r :: r in p.records ==> r.canonicalURL != u) ==>
          RowAt(now.index, u) == RowAt(start.index, u))
    && (forall b :: b in p.bookmarks ==>
          var found, title := TitleAt(start.saved, b.url), TitleAt(now.saved, b.url);
          title == found || (found.None? && title == Some(b.title)))
    && (forall u :: (forall b :: b in p.bookmarks ==> b.url != u) ==>
          TitleAt(now.saved, u) == TitleAt(start.saved, u))
  }

  lemma IndexingPreserves(start: World, now: World, p: Plan, w: Weather, write: Write)
    requires NoURLTwice(p) && Preserves(start, now, p)
    ensures var after := After(now, p, w, write).index;
            && (forall r :: r in p.records ==>
                  RowComes(RowAt(start.index, r.canonicalURL), RowAt(after, r.canonicalURL), r))
            && (forall u :: (forall r :: r in p.records ==> r.canonicalURL != u) ==>
                  RowAt(after, u) == RowAt(start.index, u))
  {
    hide RecordStep, RowAt, RecordPass, RowComes, BookmarkPass;
    var fates := RecordFates(p.records, w);
    RecordPassAt(now.index, p.records, fates, write);
    var after := After(now, p, w, write).index;
    forall r | r in p.records
      ensures RowComes(RowAt(start.index, r.canonicalURL), RowAt(after, r.canonicalURL), r)
    {
      var i :| 0 <= i < |p.records| && p.records[i] == r;
      StepComes(now.index, r, fates[i], write, RowAt(start.index, r.canonicalURL));
    }
    forall u | forall r :: r in p.records ==> r.canonicalURL != u
      ensures RowAt(after, u) == RowAt(start.index, u)
    {
      assert forall i :: 0 <= i < |p.records| ==> p.records[i] in p.records;
    }
  }

  lemma SavingPreserves(start: World, now: World, p: Plan, w: Weather, write: Write)
    requires NoURLTwice(p) && Preserves(start, now, p)
    ensures var after := After(now, p, w, write).saved;
            && (forall b :: b in p.bookmarks ==>
                  var found, title := TitleAt(start.saved, b.url), TitleAt(after, b.url);
                  title == found || (found.None? && title == Some(b.title)))
            && (forall u :: (forall b :: b in p.bookmarks ==> b.url != u) ==>
                  TitleAt(after, u) == TitleAt(start.saved, u))
  {
    hide RecordPass, BookmarkPass, RowComes;
    var fates := BookmarkFates(p.bookmarks, w);
    BookmarkPassAt(now.saved, p.bookmarks, fates, write);
    var after := After(now, p, w, write).saved;
    forall b | b in p.bookmarks
      ensures var found, title := TitleAt(start.saved, b.url), TitleAt(after, b.url);
              title == found || (found.None? && title == Some(b.title))
    {
      var i :| 0 <= i < |p.bookmarks| && p.bookmarks[i] == b;
      assert TitleAt(after, b.url) == TitleAt(BookmarkStep(now.saved, b, fates[i], write).0, b.url);
    }
    forall u | forall b :: b in p.bookmarks ==> b.url != u
      ensures TitleAt(after, u) == TitleAt(start.saved, u)
    {
      assert forall i :: 0 <= i < |p.bookmarks| ==> p.bookmarks[i] in p.bookmarks;
    }
  }

  lemma {:induction false} RunsPreserve(d: World, p: Plan, ws: seq<Weather>)
    requires NoURLTwice(p)
    ensures Preserves(d, AfterAll(d, p, ws), p)
  {
    hide After, Comes, RowAt, TitleAt;
    if ws != [] {
      var now := AfterAll(d, p, ws[..|ws| - 1]);
      RunsPreserve(d, p, ws[..|ws| - 1]);
      IndexingPreserves(d, now, p, ws[|ws| - 1], Apply);
      SavingPreserves(d, now, p, ws[|ws| - 1], Apply);
    }
  }

  /** Whatever fails, and however often the migration is applied: every row that was there keeps its
      Enrichment, and its Open and vote if it had them; every other row is the record of its URL;
      saved URLs keep their titles; and other ones are Bookmarks of the plan. */
  lemma NothingIsOverwritten(p: Plan, d: World, ws: seq<Weather>)
    requires NoURLTwice(p)
    ensures var now := AfterAll(d, p, ws);
            && (forall u :: u in d.index ==> u in now.index && Keeps(d.index[u], now.index[u]))
            && (forall u :: u in now.index && u !in d.index ==>
                  exists r :: r in p.records && r.canonicalURL == u && Born(now.index[u], r))
            && (forall u :: u in d.saved ==> u in now.saved && now.saved[u] == d.saved[u])
            && (forall u :: u in now.saved && u !in d.saved ==>
                  exists b :: b in p.bookmarks && b.url == u && b.title == now.saved[u])
  {
    var now := AfterAll(d, p, ws);
    RunsPreserve(d, p, ws);
    hide NoURLTwice, AfterAll;
    forall u | u in d.index ensures u in now.index && Keeps(d.index[u], now.index[u]) {
      assert RowAt(d.index, u) == Some(d.index[u]);
      if r :| r in p.records && r.canonicalURL == u {
        assert RowComes(RowAt(d.index, u), RowAt(now.index, u), r);
      } else {
        assert RowAt(now.index, u) == RowAt(d.index, u);
      }
    }
    forall u | u in now.index && u !in d.index
      ensures exists r :: r in p.records && r.canonicalURL == u && Born(now.index[u], r)
    {
      assert RowAt(d.index, u) == None;
      assert (forall r :: r in p.records ==> r.canonicalURL != u) ==> RowAt(now.index, u) == RowAt(d.index, u);
    }
    forall u | u in d.saved ensures u in now.saved && now.saved[u] == d.saved[u] {
      assert TitleAt(d.saved, u) == Some(d.saved[u]);
      if b :| b in p.bookmarks && b.url == u {
        assert TitleAt(now.saved, b.url) == TitleAt(d.saved, b.url);
      } else {
        assert TitleAt(now.saved, u) == TitleAt(d.saved, u);
      }
    }
    forall u | u in now.saved && u !in d.saved
      ensures exists b :: b in p.bookmarks && b.url == u && b.title == now.saved[u]
    {
      assert TitleAt(d.saved, u) == None;
      assert (forall b :: b in p.bookmarks ==> b.url != u) ==> TitleAt(now.saved, u) == TitleAt(d.saved, u);
    }
  }

  /** Two worlds the same but for stamps save the same URLs and have the same rows, with the same
      Enrichment, Opens, votes and legacy dates of votes. */
  lemma SameButStampsMeans(a: World, b: World)
    requires SameButStamps(a, b)
    ensures a.saved == b.saved && a.index.Keys == b.index.Keys
    ensures forall u :: u in a.index ==>
              var x, y := a.index[u], b.index[u];
              && x.title == y.title && x.author == y.author && x.publishedAt == y.publishedAt
              && x.summary == y.summary && x.tags == y.tags && x.score == y.score && x.openedAt == y.openedAt
              && (x.feedback.Some? <==> y.feedback.Some?)
              && (x.feedback.Some? ==>
                    && x.feedback.value.vote == y.feedback.value.vote
                    && (x.feedback.value.votedAt.Copied? || y.feedback.value.votedAt.Copied? ==>
                          x.feedback.value.votedAt == y.feedback.value.votedAt))
  {
    forall u ensures u in a.index <==> u in b.index {
      assert ErasedRow(RowAt(a.index, u)) == ErasedRow(RowAt(b.index, u));
    }
    forall u | u in a.index ensures u in b.index && Erased(a.index[u]) == Erased(b.index[u]) {
      assert ErasedRow(RowAt(a.index, u)) == ErasedRow(RowAt(b.index, u));
    }
  }

  // ----- Everything is delivered -----

  /** What the record has that a row may lack is there. */
  ghost predicate Delivered(row: IndexRow, r: IndexImport) {
    (r.openedAt.Some? ==> row.openedAt.Some?) && (r.vote != "" ==> row.feedback.Some?)
  }

  lemma LuckyDelivers(index: Index, r: IndexImport, f: Fate)
    requires Lucky(f) && (r.score == 0 || 1 <= r.score <= 5) && r.vote in {"", "up", "down"}
    ensures var row := RowAt(RecordStep(index, r, f, Apply).0, r.canonicalURL); row.Some? && Delivered(row.value, r)
  {
    hide Outcome;
  }

  /** After a run without failures every URL of the plan is saved, and every record the schema takes
      has a row, with the record's Open and vote unless it had its own. */
  lemma CleanRunDelivers(p: Plan, d: World, w: Weather)
    requires NoURLTwice(p) && FairWeather(w)
    ensures var now := After(d, p, w, Apply);
            && (forall b :: b in p.bookmarks ==> b.url in now.saved)
            && (forall r :: r in p.records && (r.score == 0 || 1 <= r.score <= 5) && r.vote in {"", "up", "down"} ==>
                  r.canonicalURL in now.index && Delivered(now.index[r.canonicalURL], r))
  {
    var now := After(d, p, w, Apply);
    RecordPassAt(d.index, p.records, RecordFates(p.records, w), Apply);
    BookmarkPassAt(d.saved, p.bookmarks, BookmarkFates(p.bookmarks, w), Apply);
    hide RecordStep, RecordPass, BookmarkPass, Delivered;
    forall r | r in p.records && (r.score == 0 || 1 <= r.score <= 5) && r.vote in {"", "up", "down"}
      ensures r.canonicalURL in now.index && Delivered(now.index[r.canonicalURL], r)
    {
      var i :| 0 <= i < |p.records| && p.records[i] == r;
      LuckyDelivers(d.index, r, w.record(r.canonicalURL));
    }
    forall b | b in p.bookmarks ensures b.url in now.saved {
      var i :| 0 <= i < |p.bookmarks| && p.bookmarks[i] == b;
      var step := BookmarkStep(d.saved, b, w.bookmark(b.url), Apply).0;
      assert TitleAt(now.saved, b.url) == TitleAt(step, b.url) && b.url in step;
    }
  }

  // ----- The report counts what happened -----

  /** What a row has gained of a class: a class of Enrichment comes with the row itself. */
  ghost predicate Gained(c: DataClass, was: Option<IndexRow>, now: Option<IndexRow>) {
    match c
    case Opens => (was.None? || was.value.openedAt.None?) && now.Some? && now.value.openedAt.Some?
    case Votes => (was.None? || was.value.feedback.None?) && now.Some? && now.value.feedback.Some?
    case _ => was.None? && now.Some?
  }

  /** An item of an applied run fails exactly when a call fails or the schema refuses it; one that
      does not is counted as stored for just those of its classes that its row has gained. */
  lemma StoredIsGained(index: Index, r: IndexImport, f: Fate)
    ensures var (now, fortune) := RecordStep(index, r, f, Apply);
            var was, row := RowAt(index, r.canonicalURL), RowAt(now, r.canonicalURL);
            && (fortune.Failed? <==> f.lookupError.Some? || f.writeError.Some?
                                     || !((r.score == 0 || 1 <= r.score <= 5) && r.vote in {"", "up", "down"}))
            && (fortune.Settled? ==>
                  forall c :: c in RecordClasses(r) ==> (Stored(c, fortune.result) <==> Gained(c, was, row)))
  {
    RecordClassesListed(r);
    RecordHolds(r);
    hide RecordClasses;
  }

  lemma RecordHolds(r: IndexImport)
    ensures Opens in RecordClasses(r) <==> r.openedAt.Some?
    ensures Votes in RecordClasses(r) <==> r.vote != ""
  {
    IndexedClassesLists(r.score, r.tags, r.summary, r.openedAt, r.vote);
  }

  ghost predicate RecordFails(r: IndexImport, w: Weather) {
    var f := w.record(r.canonicalURL);
    || f.lookupError.Some? || f.writeError.Some?
    || !((r.score == 0 || 1 <= r.score <= 5) && r.vote in {"", "up", "down"})
  }

  /** The records that carry class `c` and fail. */
  ghost function FailedItems(p: Plan, w: Weather, c: DataClass): set<nat> {
    set i | 0 <= i < |p.records| && c in RecordClasses(p.records[i]) && RecordFails(p.records[i], w)
  }

  /** The records that carry class `c`, do not fail, and whose row has gained it. */
  ghost function GainedItems(p: Plan, d: World, now: World, w: Weather, c: DataClass): set<nat> {
    set i | 0 <= i < |p.records| && c in RecordClasses(p.records[i]) && !RecordFails(p.records[i], w)
            && Gained(c, RowAt(d.index, p.records[i].canonicalURL), RowAt(now.index, p.records[i].canonicalURL))
  }

  predicate Lost(c: DataClass, r: IndexImport, fortune: Fortune<ImportResult>) {
    c in RecordClasses(r) && fortune.Failed?
  }

  predicate Won(c: DataClass, r: IndexImport, fortune: Fortune<ImportResult>) {
    c in RecordClasses(r) && fortune.Settled? && Stored(c, fortune.result)
  }

  lemma CountOne(n: Counts, c: DataClass, r: IndexImport, fortune: Fortune<ImportResult>)
    ensures var m := if c in RecordClasses(r) then CountRecord(n, c, fortune) else n;
            && m.failed == n.failed + (if Lost(c, r, fortune) then 1 else 0)
            && m.destination == n.destination + (if Won(c, r, fortune) then 1 else 0)
  {
    hide RecordClasses, Stored;
  }

  ghost function Losses(c: DataClass, items: seq<IndexImport>, fortunes: seq<Fortune<ImportResult>>): set<nat>
    requires |items| == |fortunes|
  {
    set i | 0 <= i < |items| && Lost(c, items[i], fortunes[i])
  }

  ghost function Wins(c: DataClass, items: seq<IndexImport>, fortunes: seq<Fortune<ImportResult>>): set<nat>
    requires |items| == |fortunes|
  {
    set i | 0 <= i < |items| && Won(c, items[i], fortunes[i])
  }

  lemma LastCounts(c: DataClass, items: seq<IndexImport>, fortunes: seq<Fortune<ImportResult>>)
    requires |items| == |fortunes| > 0
    ensures var k := |items| - 1;
            && |Losses(c, items, fortunes)| ==
                 |Losses(c, items[..k], fortunes[..k])| + (if Lost(c, items[k], fortunes[k]) then 1 else 0)
            && |Wins(c, items, fortunes)| ==
                 |Wins(c, items[..k], fortunes[..k])| + (if Won(c, items[k], fortunes[k]) then 1 else 0)
  {
    hide Lost, Won;
    var k := |items| - 1;
    OneMore(Losses(c, items[..k], fortunes[..k]), Losses(c, items, fortunes), k, Lost(c, items[k], fortunes[k]));
    OneMore(Wins(c, items[..k], fortunes[..k]), Wins(c, items, fortunes), k, Won(c, items[k], fortunes[k]));
  }

  lemma {:induction false} RecordsCounted(n: Counts, c: DataClass, items: seq<IndexImport>,
                                          fortunes: seq<Fortune<ImportResult>>)
    requires |items| == |fortunes|
    ensures var m := CountRecords(n, c, items, fortunes);
            && m.failed == n.failed + |Losses(c, items, fortunes)|
            && m.destination == n.destination + |Wins(c, items, fortunes)|
  {
    if items == [] {
      assert Losses(c, items, fortunes) == {} && Wins(c, items, fortunes) == {};
    } else {
      hide RecordClasses, Lost, Won, Losses, Wins, CountRecord;
      var k := |items| - 1;
      RecordsCounted(n, c, items[..k], fortunes[..k]);
      CountOne(CountRecords(n, c, items[..k], fortunes[..k]), c, items[k], fortunes[k]);
      LastCounts(c, items, fortunes);
    }
  }

  lemma OneIsTrue(d: World, now: World, r: IndexImport, w: Weather, fortune: Fortune<ImportResult>, c: DataClass)
    requires var step := RecordStep(d.index, r, w.record(r.canonicalURL), Apply);
             fortune == step.1 && RowAt(now.index, r.canonicalURL) == RowAt(step.0, r.canonicalURL)
    ensures Lost(c, r, fortune) <==> c in RecordClasses(r) && RecordFails(r, w)
    ensures Won(c, r, fortune) <==>
            && c in RecordClasses(r) && !RecordFails(r, w)
            && Gained(c, RowAt(d.index, r.canonicalURL), RowAt(now.index, r.canonicalURL))
  {
    StoredIsGained(d.index, r, w.record(r.canonicalURL));
    hide RecordStep, RecordClasses, Stored, Gained, RowAt;
  }

  lemma ItemIsTrue(p: Plan, d: World, w: Weather, c: DataClass, i: nat)
    requires NoURLTwice(p) && i < |p.records|
    ensures var now, fortunes := After(d, p, w, Apply), Indexing(d, p, w, Apply).1;
            && (Lost(c, p.records[i], fortunes[i]) <==> i in FailedItems(p, w, c))
            && (Won(c, p.records[i], fortunes[i]) <==> i in GainedItems(p, d, now, w, c))
  {
    hide RecordPass, BookmarkPass, RecordStep, RecordClasses, Gained, RowAt, Lost, Won, RecordFails;
    RecordPassAt(d.index, p.records, RecordFates(p.records, w), Apply);
    OneIsTrue(d, After(d, p, w, Apply), p.records[i], w, Indexing(d, p, w, Apply).1[i], c);
  }

  /** So a report of an applied run says for each class how many rows gained it, and how many records
      that carry it failed. */
  lemma ReportIsTrue(p: Plan, d: World, sources: nat, w: Weather, report: Report, c: DataClass)
    requires NoURLTwice(p) && Unstarted(p.counts) && ReportsRun(report, d, p, sources, w, Apply)
    requires c in MIGRATED && c != SavedURLs
    ensures var now := After(d, p, w, Apply);
            && report.counts[c].failed == |FailedItems(p, w, c)|
            && report.counts[c].destination == |GainedItems(p, d, now, w, c)|
  {
    hide RecordPass, BookmarkPass, CountRecords, CountBookmarks, RecordFailures, BookmarkFailures, NoURLTwice;
    var now := After(d, p, w, Apply);
    var fortunes := Indexing(d, p, w, Apply).1;
    assert report.counts[c] == CountRecords(p.counts[c], c, p.records, fortunes);
    hide ReportsRun, After, Indexing, Lost, Won;
    RecordsCounted(p.counts[c], c, p.records, fortunes);
    SameItems(p, d, now, w, c, fortunes);
  }

  lemma SameItems(p: Plan, d: World, now: World, w: Weather, c: DataClass, fortunes: seq<Fortune<ImportResult>>)
    requires NoURLTwice(p) && now == After(d, p, w, Apply) && fortunes == Indexing(d, p, w, Apply).1
    ensures Losses(c, p.records, fortunes) == FailedItems(p, w, c)
    ensures Wins(c, p.records, fortunes) == GainedItems(p, d, now, w, c)
  {
    hide After, Indexing, Lost, Won, RecordClasses, Gained, RowAt, RecordFails, NoURLTwice;
    forall i | 0 <= i < |p.records|
      ensures i in Losses(c, p.records, fortunes) <==> i in FailedItems(p, w, c)
      ensures i in Wins(c, p.records, fortunes) <==> i in GainedItems(p, d, now, w, c)
    {
      ItemIsTrue(p, d, w, c, i);
    }
  }

  /** A Bookmark fails when its lookup does, or when it has to be written and that fails. */
  ghost predicate BookmarkFails(b: BookmarkImport, d: World, w: Weather) {
    var f := w.bookmark(b.url);
    f.lookupError.Some? || (b.url !in d.saved && f.writeError.Some?)
  }

  ghost function FailedBookmarks(p: Plan, d: World, w: Weather): set<nat> {
    set i | 0 <= i < |p.bookmarks| && BookmarkFails(p.bookmarks[i], d, w)
  }

  ghost function NewBookmarks(p: Plan, d: World, w: Weather): set<nat> {
    set i | 0 <= i < |p.bookmarks| && !BookmarkFails(p.bookmarks[i], d, w) && p.bookmarks[i].url !in d.saved
  }

  ghost function Failing(fortunes: seq<Fortune<bool>>): set<nat> {
    set i | 0 <= i < |fortunes| && fortunes[i].Failed?
  }

  ghost function Creating(fortunes: seq<Fortune<bool>>): set<nat> {
    set i | 0 <= i < |fortunes| && fortunes[i] == Settled(true)
  }

  lemma {:induction false} BookmarksCounted(n: Counts, fortunes: seq<Fortune<bool>>)
    ensures var m := CountBookmarks(n, fortunes);
            m.failed == n.failed + |Failing(fortunes)| && m.destination == n.destination + |Creating(fortunes)|
  {
    if fortunes != [] {
      var k := |fortunes| - 1;
      BookmarksCounted(n, fortunes[..k]);
      OneMore(Failing(fortunes[..k]), Failing(fortunes), k, fortunes[k].Failed?);
      OneMore(Creating(fortunes[..k]), Creating(fortunes), k, fortunes[k] == Settled(true));
    } else {
      assert Failing(fortunes) == {} && Creating(fortunes) == {};
    }
  }

  lemma BookmarkItemIsTrue(p: Plan, d: World, w: Weather, i: nat)
    requires NoURLTwice(p) && i < |p.bookmarks|
    ensures var fortunes := Bookmarking(d, p, w, Apply).1;
            && (fortunes[i].Failed? <==> i in FailedBookmarks(p, d, w))
            && (fortunes[i] == Settled(true) <==> i in NewBookmarks(p, d, w))
  {
    hide RecordPass, BookmarkPass;
    BookmarkPassAt(d.saved, p.bookmarks, BookmarkFates(p.bookmarks, w), Apply);
  }

  /** And of the Bookmarks it says how many were created, and how many failed. */
  lemma BookmarkReportIsTrue(p: Plan, d: World, sources: nat, w: Weather, report: Report)
    requires NoURLTwice(p) && Unstarted(p.counts) && ReportsRun(report, d, p, sources, w, Apply)
    ensures report.counts[SavedURLs].failed == |FailedBookmarks(p, d, w)|
    ensures report.counts[SavedURLs].destination == |NewBookmarks(p, d, w)|
  {
    hide RecordPass, BookmarkPass, CountRecords, CountBookmarks, RecordFailures, BookmarkFailures, NoURLTwice;
    var fortunes := Bookmarking(d, p, w, Apply).1;
    assert report.counts[SavedURLs] == CountBookmarks(p.counts[SavedURLs], fortunes);
    BookmarksCounted(p.counts[SavedURLs], fortunes);
    hide ReportsRun, Bookmarking, BookmarkFails;
    forall i | 0 <= i < |p.bookmarks|
      ensures i in Failing(fortunes) <==> i in FailedBookmarks(p, d, w)
      ensures i in Creating(fortunes) <==> i in NewBookmarks(p, d, w)
    {
      BookmarkItemIsTrue(p, d, w, i);
    }
    assert Failing(fortunes) == FailedBookmarks(p, d, w) && Creating(fortunes) == NewBookmarks(p, d, w);
  }

  // ----- Every failure is listed -----

  ghost predicate IsRecordFailure(f: Failure, r: IndexImport, fortune: Fortune<ImportResult>) {
    fortune.Failed? && f.key == r.canonicalURL && f.reason == fortune.reason && f.classes == RecordClasses(r)
  }

  lemma {:induction false} RecordFailuresListed(items: seq<IndexImport>, fortunes: seq<Fortune<ImportResult>>,
                                                f: Failure)
    requires |items| == |fortunes|
    ensures f in RecordFailures(items, fortunes) <==>
            exists i :: 0 <= i < |items| && IsRecordFailure(f, items[i], fortunes[i])
  {
    hide RecordClasses;
    if items != [] {
      var k := |items| - 1;
      RecordFailuresListed(items[..k], fortunes[..k], f);
      assert f in RecordFailure(items[k], fortunes[k]) <==> IsRecordFailure(f, items[k], fortunes[k]);
      hide IsRecordFailure;
      assert forall i :: 0 <= i < k ==> items[..k][i] == items[i] && fortunes[..k][i] == fortunes[i];
    }
  }

  ghost predicate IsBookmarkFailure(f: Failure, b: BookmarkImport, fortune: Fortune<bool>) {
    fortune.Failed? && f.key == b.url && f.reason == fortune.reason && f.classes == [SavedURLs]
  }

  lemma {:induction false} BookmarkFailuresListed(items: seq<BookmarkImport>, fortunes: seq<Fortune<bool>>, f: Failure)
    requires |items| == |fortunes|
    ensures f in BookmarkFailures(items, fortunes) <==>
            exists i :: 0 <= i < |items| && IsBookmarkFailure(f, items[i], fortunes[i])
  {
    if items != [] {
      var k := |items| - 1;
      BookmarkFailuresListed(items[..k], fortunes[..k], f);
      assert f in BookmarkFailure(items[k], fortunes[k]) <==> IsBookmarkFailure(f, items[k], fortunes[k]);
      hide IsBookmarkFailure;
      assert forall i :: 0 <= i < k ==> items[..k][i] == items[i] && fortunes[..k][i] == fortunes[i];
    }
  }

  /** The failures of a report are those of its Bookmarks and of its records, each with its URL, its
      reason and the classes it strands. */
  lemma FailuresListed(p: Plan, d: World, sources: nat, w: Weather, write: Write, report: Report, f: Failure)
    requires ReportsRun(report, d, p, sources, w, write)
    ensures var b, r := Bookmarking(d, p, w, write).1, Indexing(d, p, w, write).1;
            f in report.failures <==>
            || (exists i :: 0 <= i < |p.bookmarks| && IsBookmarkFailure(f, p.bookmarks[i], b[i]))
            || (exists i :: 0 <= i < |p.records| && IsRecordFailure(f, p.records[i], r[i]))
  {
    hide RecordPass, BookmarkPass, CountRecords, CountBookmarks, RecordFailures, BookmarkFailures;
    BookmarkFailuresListed(p.bookmarks, Bookmarking(d, p, w, write).1, f);
    RecordFailuresListed(p.records, Indexing(d, p, w, write).1, f);
  }
}
