/** The carrying-out half of the ownership migration (internal/ownership/run.go) over the row
    semantics of internal/storage/ownership_repo.go: item by item, under arbitrary failures. */
module OwnershipRun {
  import opened Text
  import Sorting
  import opened OwnershipPlan

  // ----- Destinations -----

  /** A vote's date: copied from the legacy vote, or stamped by the import itself. */
  datatype VoteDate = Copied(at: Time) | Stamped(at: Time)

  datatype Feedback = Feedback(vote: string, votedAt: VoteDate, updatedAt: Time)

  /** A row of `article_index` with its row of `article_index_feedback`. Empty strings, score 0
      and NULL are the same thing on both sides of the import. */
  datatype IndexRow = IndexRow(
    title: string, author: string, publishedAt: Option<Time>, summary: string,
    tags: seq<string>, score: int, openedAt: Option<Time>, createdAt: Time, updatedAt: Time,
    feedback: Option<Feedback>)

  type Bookmarks = map<string, string>
  type Index = map<string, IndexRow>

  /** What the environment does to one item: a lookup that errors, or a write that errors,
      having landed or not. */
  datatype Fate = Fate(lookupError: Option<string>, writeError: Option<string>, landed: bool, now: Time)

  predicate Lucky(f: Fate) {
    f.lookupError.None? && f.writeError.None?
  }

  datatype Write = DryRun | Apply

  datatype ImportResult = ImportResult(created: bool, openStored: bool, voteStored: bool)

  /** How one item ended. */
  datatype Fortune<T> = Failed(reason: string) | Settled(result: T)

  datatype Failure = Failure(classes: seq<DataClass>, key: string, reason: string)

  const CONSTRAINT := "violates check constraint"

  /** The CHECK constraints on the two tables, as they bear on an imported record. */
  predicate Acceptable(r: IndexImport) {
    && (r.score == 0 || 1 <= r.score <= 5)
    && r.vote in {"", "up", "down"}
  }

  /** `outcome`: what importing `r` over the existing row would achieve. */
  function Outcome(r: IndexImport, existing: Option<IndexRow>): ImportResult {
    ImportResult(
      existing.None?,
      r.openedAt.Some? && (existing.None? || existing.value.openedAt.None?),
      r.vote != "" && (existing.None? || existing.value.feedback.None?))
  }

  predicate Stored(c: DataClass, result: ImportResult) {
    match c
    case Opens => result.openStored
    case Votes => result.voteStored
    case _ => result.created
  }

  /** The upsert: a new row holds the record; an existing one only has its gaps in opened_at
      and feedback filled. */
  function Upsert(existing: Option<IndexRow>, r: IndexImport, now: Time): IndexRow {
    var row := match existing
      case None => IndexRow(r.title, r.author, r.publishedAt, r.summary, r.tags, r.score,
                            r.openedAt, now, now, None)
      case Some(e) => e.(openedAt := if e.openedAt.Some? then e.openedAt else r.openedAt,
                         updatedAt := now);
    if r.vote == "" || row.feedback.Some? then row
    else row.(feedback := Some(Feedback(
                r.vote, if r.votedAt.Some? then Copied(r.votedAt.value) else Stamped(now), now)))
  }

  function RowAt(index: Index, url: string): Option<IndexRow> {
    if url in index then Some(index[url]) else None
  }

  // ----- What an import may do to the table -----

  /** A row that was there keeps everything the live pipeline gave it, its Open and its vote too if
      it had them. */
  ghost predicate Keeps(was: IndexRow, row: IndexRow) {
    && row.title == was.title && row.author == was.author && row.publishedAt == was.publishedAt
    && row.summary == was.summary && row.tags == was.tags && row.score == was.score
    && row.createdAt == was.createdAt
    && (was.openedAt.Some? ==> row.openedAt == was.openedAt)
    && (was.feedback.Some? ==> row.feedback == was.feedback)
  }

  /** The record's vote, dated as the record dates it. */
  ghost predicate BringsVote(feedback: Option<Feedback>, r: IndexImport) {
    if r.vote == "" then feedback.None?
    else
      && feedback.Some? && feedback.value.vote == r.vote
      && if r.votedAt.Some? then feedback.value.votedAt == Copied(r.votedAt.value)
         else feedback.value.votedAt.Stamped?
  }

  /** A row that was not there holds the record, and nothing else. */
  ghost predicate Born(row: IndexRow, r: IndexImport) {
    && row.title == r.title && row.author == r.author && row.publishedAt == r.publishedAt
    && row.summary == r.summary && row.tags == r.tags && row.score == r.score
    && row.openedAt == r.openedAt && BringsVote(row.feedback, r)
  }

  /** One record imported: its row is new, or has its gaps filled, and no other row is touched. */
  ghost predicate Imported(was: Index, now: Index, r: IndexImport) {
    && now.Keys == was.Keys + {r.canonicalURL}
    && (forall u :: u in was && u != r.canonicalURL ==> now[u] == was[u])
    && var row := now[r.canonicalURL];
       if r.canonicalURL !in was then Born(row, r)
       else
         var old' := was[r.canonicalURL];
         && Keeps(old', row)
         && (old'.openedAt.None? ==> row.openedAt == r.openedAt)
         && (old'.feedback.None? ==> BringsVote(row.feedback, r))
  }

  // ----- One item, as a function of the destination -----

  function BookmarkStep(saved: Bookmarks, b: BookmarkImport, f: Fate, write: Write)
    : (Bookmarks, Fortune<bool>)
  {
    if f.lookupError.Some? then (saved, Failed(f.lookupError.value))
    else if b.url in saved then (saved, Settled(false))
    else if write == DryRun then (saved, Settled(true))
    else if f.writeError.Some? then
      (if f.landed then saved[b.url := b.title] else saved, Failed(f.writeError.value))
    else (saved[b.url := b.title], Settled(true))
  }

  function ImportStep(index: Index, r: IndexImport, f: Fate): (Index, Option<string>) {
    if !Acceptable(r) then (index, Some(CONSTRAINT))
    else if f.writeError.Some? && !f.landed then (index, f.writeError)
    else (index[r.canonicalURL := Upsert(RowAt(index, r.canonicalURL), r, f.now)], f.writeError)
  }

  function RecordStep(index: Index, r: IndexImport, f: Fate, write: Write)
    : (Index, Fortune<ImportResult>)
  {
    if f.lookupError.Some? then (index, Failed(f.lookupError.value))
    else
      var result := Outcome(r, RowAt(index, r.canonicalURL));
      if write == DryRun then (index, Settled(result))
      else
        var (after, error) := ImportStep(index, r, f);
        (after, if error.Some? then Failed(error.value) else Settled(result))
  }

  // ----- A whole pass -----

  function BookmarkPass(saved: Bookmarks, items: seq<BookmarkImport>, fates: seq<Fate>, write: Write)
    : (r: (Bookmarks, seq<Fortune<bool>>))
    requires |fates| == |items|
    ensures |r.1| == |items|
  {
    if items == [] then (saved, []) else
      var n := |items| - 1;
      var (before, fortunes) := BookmarkPass(saved, items[..n], fates[..n], write);
      var (after, fortune) := BookmarkStep(before, items[n], fates[n], write);
      (after, fortunes + [fortune])
  }

  function RecordPass(index: Index, items: seq<IndexImport>, fates: seq<Fate>, write: Write)
    : (r: (Index, seq<Fortune<ImportResult>>))
    requires |fates| == |items|
    ensures |r.1| == |items|
  {
    if items == [] then (index, []) else
      var n := |items| - 1;
      var (before, fortunes) := RecordPass(index, items[..n], fates[..n], write);
      var (after, fortune) := RecordStep(before, items[n], fates[n], write);
      (after, fortunes + [fortune])
  }

  function BumpFailed(n: Counts): Counts { n.(failed := n.failed + 1) }
  function BumpDestination(n: Counts): Counts { n.(destination := n.destination + 1) }
  function BumpDuplicate(n: Counts): Counts { n.(duplicate := n.duplicate + 1) }

  function CountBookmark(n: Counts, fortune: Fortune<bool>): Counts {
    match fortune
    case Failed(_) => BumpFailed(n)
    case Settled(created) => if created then BumpDestination(n) else BumpDuplicate(n)
  }

  function CountRecord(n: Counts, c: DataClass, fortune: Fortune<ImportResult>): Counts {
    match fortune
    case Failed(_) => BumpFailed(n)
    case Settled(result) => if Stored(c, result) then BumpDestination(n) else BumpDuplicate(n)
  }

  function CountBookmarks(n: Counts, fortunes: seq<Fortune<bool>>): Counts {
    if fortunes == [] then n else
      CountBookmark(CountBookmarks(n, fortunes[..|fortunes| - 1]), fortunes[|fortunes| - 1])
  }

  /** The tally of class `c` after the records met their fortunes. */
  function CountRecords(n: Counts, c: DataClass, items: seq<IndexImport>, fortunes: seq<Fortune<ImportResult>>)
    : Counts
    requires |items| == |fortunes|
  {
    if items == [] then n else
      var last := |items| - 1;
      var before := CountRecords(n, c, items[..last], fortunes[..last]);
      if c in RecordClasses(items[last]) then CountRecord(before, c, fortunes[last]) else before
  }

  function BookmarkFailure(b: BookmarkImport, fortune: Fortune<bool>): seq<Failure> {
    if fortune.Failed? then [Failure([SavedURLs], b.url, fortune.reason)] else []
  }

  function RecordFailure(r: IndexImport, fortune: Fortune<ImportResult>): seq<Failure> {
    if fortune.Failed? then [Failure(RecordClasses(r), r.canonicalURL, fortune.reason)] else []
  }

  function BookmarkFailures(items: seq<BookmarkImport>, fortunes: seq<Fortune<bool>>): seq<Failure>
    requires |items| == |fortunes|
  {
    if items == [] then [] else
      var last := |items| - 1;
      BookmarkFailures(items[..last], fortunes[..last]) + BookmarkFailure(items[last], fortunes[last])
  }

  function RecordFailures(items: seq<IndexImport>, fortunes: seq<Fortune<ImportResult>>): seq<Failure>
    requires |items| == |fortunes|
  {
    if items == [] then [] else
      var last := |items| - 1;
      RecordFailures(items[..last], fortunes[..last]) + RecordFailure(items[last], fortunes[last])
  }

  datatype Report = Report(write: Write, counts: Tally, failures: seq<Failure>)

  /** Everything one run does: the bookmarks, then the records. */
  datatype World = World(saved: Bookmarks, index: Index)

  /** The fate of every item of one run, by its URL: a plan has no URL twice. */
  datatype Weather = Weather(bookmark: string -> Fate, record: string -> Fate)

  function BookmarkFates(items: seq<BookmarkImport>, w: Weather): (fates: seq<Fate>)
    ensures |fates| == |items| && forall i :: 0 <= i < |items| ==> fates[i] == w.bookmark(items[i].url)
  {
    seq(|items|, i requires 0 <= i < |items| => w.bookmark(items[i].url))
  }

  function RecordFates(items: seq<IndexImport>, w: Weather): (fates: seq<Fate>)
    ensures |fates| == |items|
    ensures forall i :: 0 <= i < |items| ==> fates[i] == w.record(items[i].canonicalURL)
  {
    seq(|items|, i requires 0 <= i < |items| => w.record(items[i].canonicalURL))
  }

  function Bookmarking(d: World, p: Plan, w: Weather, write: Write): (r: (Bookmarks, seq<Fortune<bool>>))
    ensures |r.1| == |p.bookmarks|
  {
    BookmarkPass(d.saved, p.bookmarks, BookmarkFates(p.bookmarks, w), write)
  }

  function Indexing(d: World, p: Plan, w: Weather, write: Write): (r: (Index, seq<Fortune<ImportResult>>))
    ensures |r.1| == |p.records|
  {
    RecordPass(d.index, p.records, RecordFates(p.records, w), write)
  }

  function After(d: World, p: Plan, w: Weather, write: Write): World {
    World(Bookmarking(d, p, w, write).0, Indexing(d, p, w, write).0)
  }

  ghost predicate ReportsRun(report: Report, d: World, p: Plan, sources: nat, w: Weather, write: Write) {
    var b := Bookmarking(d, p, w, write).1;
    var r := Indexing(d, p, w, write).1;
    && p.counts.Keys == report.counts.Keys == CLASSES
    && report.write == write
    && report.failures == BookmarkFailures(p.bookmarks, b) + RecordFailures(p.records, r)
    && report.counts[SavedURLs] == CountBookmarks(p.counts[SavedURLs], b)
    && (forall c :: c in MIGRATED && c != SavedURLs ==>
          report.counts[c] == CountRecords(p.counts[c], c, p.records, r))
    && report.counts[ArticleBodies] == p.counts[ArticleBodies]
    && report.counts[SourceConfig] == ExcludeSources(p.counts, sources)[SourceConfig]
  }

  // ----- How far a pass has come -----

  datatype Progress<D, N> = Progress(at: D, tally: N, failures: seq<Failure>)

  ghost predicate Saving(start: Progress<Bookmarks, Counts>, items: seq<BookmarkImport>, fates: seq<Fate>,
                         write: Write, i: nat, now: Progress<Bookmarks, Counts>)
    requires i <= |items| == |fates|
  {
    var pass := BookmarkPass(start.at, items[..i], fates[..i], write);
    && now.at == pass.0
    && now.tally == CountBookmarks(start.tally, pass.1)
    && now.failures == start.failures + BookmarkFailures(items[..i], pass.1)
  }

  lemma SavingStarts(start: Progress<Bookmarks, Counts>, items: seq<BookmarkImport>, fates: seq<Fate>,
                     write: Write)
    requires |items| == |fates|
    ensures Saving(start, items, fates, write, 0, start)
  {
    assert items[..0] == [] && start.failures + [] == start.failures;
  }

  lemma SavingGoesOn(start: Progress<Bookmarks, Counts>, items: seq<BookmarkImport>, fates: seq<Fate>,
                     write: Write, i: nat, was: Progress<Bookmarks, Counts>)
    requires i < |items| == |fates| && Saving(start, items, fates, write, i, was)
    ensures var step := BookmarkStep(was.at, items[i], fates[i], write);
            Saving(start, items, fates, write, i + 1,
                   Progress(step.0, CountBookmark(was.tally, step.1),
                            was.failures + BookmarkFailure(items[i], step.1)))
  {
    hide BookmarkStep, CountBookmark, BookmarkFailure;
    var done := BookmarkPass(start.at, items[..i], fates[..i], write).1;
    assert items[..i + 1][..i] == items[..i] && fates[..i + 1][..i] == fates[..i];
    var fortune := BookmarkStep(was.at, items[i], fates[i], write).1;
    assert (done + [fortune])[..i] == done;
  }

  lemma SavingEnds(start: Progress<Bookmarks, Counts>, items: seq<BookmarkImport>, fates: seq<Fate>,
                   write: Write, now: Progress<Bookmarks, Counts>)
    requires |items| == |fates| && Saving(start, items, fates, write, |items|, now)
    ensures var pass := BookmarkPass(start.at, items, fates, write);
            && now.at == pass.0
            && now.tally == CountBookmarks(start.tally, pass.1)
            && now.failures == start.failures + BookmarkFailures(items, pass.1)
  {
    assert items[..|items|] == items && fates[..|items|] == fates;
  }

  ghost predicate Importing(start: Progress<Index, Tally>, items: seq<IndexImport>, fates: seq<Fate>,
                            write: Write, i: nat, now: Progress<Index, Tally>)
    requires i <= |items| == |fates|
  {
    var pass := RecordPass(start.at, items[..i], fates[..i], write);
    && now.at == pass.0
    && start.tally.Keys == now.tally.Keys == CLASSES
    && (forall c :: c in CLASSES ==>
          now.tally[c] == CountRecords(start.tally[c], c, items[..i], pass.1))
    && now.failures == start.failures + RecordFailures(items[..i], pass.1)
  }

  lemma ImportingStarts(start: Progress<Index, Tally>, items: seq<IndexImport>, fates: seq<Fate>, write: Write)
    requires |items| == |fates| && start.tally.Keys == CLASSES
    ensures Importing(start, items, fates, write, 0, start)
  {
    assert items[..0] == [] && start.failures + [] == start.failures;
  }

  lemma ImportingGoesOn(start: Progress<Index, Tally>, items: seq<IndexImport>, fates: seq<Fate>, write: Write,
                        i: nat, was: Progress<Index, Tally>, now: Progress<Index, Tally>)
    requires i < |items| == |fates| && Importing(start, items, fates, write, i, was)
    requires now.at == RecordStep(was.at, items[i], fates[i], write).0
    requires now.tally.Keys == CLASSES
    requires var fortune := RecordStep(was.at, items[i], fates[i], write).1;
             && (forall c :: c in CLASSES && c in RecordClasses(items[i]) ==>
                   now.tally[c] == CountRecord(was.tally[c], c, fortune))
             && (forall c :: c in CLASSES && c !in RecordClasses(items[i]) ==> now.tally[c] == was.tally[c])
             && now.failures == if fortune.Failed?
                then was.failures + [Failure(RecordClasses(items[i]), items[i].canonicalURL, fortune.reason)]
                else was.failures
    ensures Importing(start, items, fates, write, i + 1, now)
  {
    hide RecordStep, CountRecord, RecordClasses, RecordFailure;
    var done := RecordPass(start.at, items[..i], fates[..i], write).1;
    assert items[..i + 1][..i] == items[..i] && fates[..i + 1][..i] == fates[..i];
    var fortune := RecordStep(was.at, items[i], fates[i], write).1;
    var grown := done + [fortune];
    assert grown[..i] == done;
    assert RecordPass(start.at, items[..i + 1], fates[..i + 1], write) == (now.at, grown);
    hide RecordPass;
    forall c | c in CLASSES
      ensures now.tally[c] == CountRecords(start.tally[c], c, items[..i + 1], grown)
    {
      assert was.tally[c] == CountRecords(start.tally[c], c, items[..i], done);
    }
    hide CountRecords;
    assert RecordFailures(items[..i + 1], grown) == RecordFailures(items[..i], done) + RecordFailure(items[i], fortune);
    FailureListed(was.failures, items[i], fortune);
    hide RecordFailures;
    assert start.failures + (RecordFailures(items[..i], done) + RecordFailure(items[i], fortune))
        == was.failures + RecordFailure(items[i], fortune);
  }

  lemma FailureListed(failures: seq<Failure>, r: IndexImport, fortune: Fortune<ImportResult>)
    ensures failures + RecordFailure(r, fortune) ==
            if fortune.Failed? then failures + [Failure(RecordClasses(r), r.canonicalURL, fortune.reason)] else failures
  {
    assert failures + [] == failures;
  }

  lemma ImportingEnds(start: Progress<Index, Tally>, items: seq<IndexImport>, fates: seq<Fate>, write: Write,
                      now: Progress<Index, Tally>)
    requires |items| == |fates| && Importing(start, items, fates, write, |items|, now)
    ensures var pass := RecordPass(start.at, items, fates, write);
            && now.at == pass.0
            && now.tally.Keys == CLASSES
            && (forall c :: c in CLASSES ==> now.tally[c] == CountRecords(start.tally[c], c, items, pass.1))
            && now.failures == start.failures + RecordFailures(items, pass.1)
  {
    assert items[..|items|] == items && fates[..|items|] == fates;
  }

  // ----- The objects -----

  class Karakeep {
    var saved: Bookmarks

    constructor (saved: Bookmarks)
      ensures this.saved == saved
    {
      this.saved := saved;
    }

    method Lookup(url: string, f: Fate) returns (answer: Fortune<bool>)
      ensures answer == if f.lookupError.Some? then Failed(f.lookupError.value) else Settled(url in saved)
    {
      if f.lookupError.Some? { return Failed(f.lookupError.value); }
      return Settled(url in saved);
    }

    method Create(url: string, title: string, f: Fate) returns (error: Option<string>)
      modifies this
      ensures error == f.writeError
      ensures saved == if f.writeError.None? || f.landed then old(saved)[url := title] else old(saved)
    {
      error := f.writeError;
      if f.writeError.None? || f.landed { saved := saved[url := title]; }
    }
  }

  class IndexTable {
    var rows: Index

    constructor (rows: Index)
      ensures this.rows == rows
    {
      this.rows := rows;
    }

    method Lookup(url: string, f: Fate) returns (answer: Fortune<Option<IndexRow>>)
      ensures answer == if f.lookupError.Some? then Failed(f.lookupError.value) else Settled(RowAt(rows, url))
    {
      if f.lookupError.Some? { return Failed(f.lookupError.value); }
      return Settled(if url in rows then Some(rows[url]) else None);
    }

    /** One transaction: the record, then its vote. */
    method Import(r: IndexImport, f: Fate) returns (error: Option<string>)
      modifies this
      ensures (rows, error) == ImportStep(old(rows), r, f)
      ensures var fits := (r.score == 0 || 1 <= r.score <= 5) && r.vote in {"", "up", "down"};
              && (error.None? <==> fits && f.writeError.None?)
              && (fits && (error.None? || f.landed) ==> Imported(old(rows), rows, r))
              && (!fits || (error.Some? && !f.landed) ==> rows == old(rows))
    {
      if !Acceptable(r) { return Some(CONSTRAINT); }
      error := f.writeError;
      if error.None? || f.landed {
        var row;
        if r.canonicalURL in rows {
          row := rows[r.canonicalURL];
          if row.openedAt.None? { row := row.(openedAt := r.openedAt); }
          row := row.(updatedAt := f.now);
        } else {
          row := IndexRow(r.title, r.author, r.publishedAt, r.summary, r.tags, r.score,
                          r.openedAt, f.now, f.now, None);
        }
        if r.vote != "" && row.feedback.None? {
          var votedAt := Stamped(f.now);
          if r.votedAt.Some? { votedAt := Copied(r.votedAt.value); }
          row := row.(feedback := Some(Feedback(r.vote, votedAt, f.now)));
        }
        rows := rows[r.canonicalURL := row];
      }
    }
  }

  class Runner {
    const bookmarker: Karakeep
    const importer: IndexTable

    constructor (bookmarker: Karakeep, importer: IndexTable)
      ensures this.bookmarker == bookmarker && this.importer == importer
    {
      this.bookmarker, this.importer := bookmarker, importer;
    }

    /** One turn of the loop of `saveBookmarks`. Looking first is what makes a rerun safe. */
    method SaveBookmark(b: BookmarkImport, f: Fate, write: Write, n: Counts, failures: seq<Failure>)
      returns (n': Counts, failures': seq<Failure>)
      modifies bookmarker
      ensures var step := BookmarkStep(old(bookmarker.saved), b, f, write);
              && bookmarker.saved == step.0
              && n' == CountBookmark(n, step.1)
              && failures' == failures + BookmarkFailure(b, step.1)
    {
      n', failures' := n, failures;
      var found := bookmarker.Lookup(b.url, f);
      if found.Failed? {
        n' := n.(failed := n.failed + 1);
        failures' := failures + [Failure([SavedURLs], b.url, found.reason)];
        return;
      }
      if found.result {
        n' := n.(duplicate := n.duplicate + 1);
        return;
      }
      if write == Apply {
        var error := bookmarker.Create(b.url, b.title, f);
        if error.Some? {
          n' := n.(failed := n.failed + 1);
          failures' := failures + [Failure([SavedURLs], b.url, error.value)];
          return;
        }
      }
      n' := n.(destination := n.destination + 1);
    }

    method SaveBookmarks(items: seq<BookmarkImport>, fates: seq<Fate>, write: Write,
                         counts: Tally, failures: seq<Failure>)
      returns (counts': Tally, failures': seq<Failure>)
      requires |fates| == |items| && SavedURLs in counts
      modifies bookmarker
      ensures var pass := BookmarkPass(old(bookmarker.saved), items, fates, write);
              && bookmarker.saved == pass.0
              && counts' == counts[SavedURLs := CountBookmarks(counts[SavedURLs], pass.1)]
              && failures' == failures + BookmarkFailures(items, pass.1)
    {
      hide BookmarkStep, CountBookmark, BookmarkFailure, Saving;
      failures' := failures;
      var n := counts[SavedURLs];
      ghost var start := Progress(bookmarker.saved, n, failures);
      SavingStarts(start, items, fates, write);
      for i := 0 to |items|
        invariant Saving(start, items, fates, write, i, Progress(bookmarker.saved, n, failures'))
      {
        ghost var was := Progress(bookmarker.saved, n, failures');
        n, failures' := SaveBookmark(items[i], fates[i], write, n, failures');
        SavingGoesOn(start, items, fates, write, i, was);
      }
      SavingEnds(start, items, fates, write, Progress(bookmarker.saved, n, failures'));
      counts' := counts[SavedURLs := n];
    }

    method CountAll(counts: Tally, classes: seq<DataClass>, fortune: Fortune<ImportResult>)
      returns (counts': Tally)
      requires Sorting.Distinct(classes) && forall c :: c in classes ==> c in counts
      ensures counts'.Keys == counts.Keys
      ensures forall c :: c in counts && c in classes ==> counts'[c] == CountRecord(counts[c], c, fortune)
      ensures forall c :: c in counts && c !in classes ==> counts'[c] == counts[c]
    {
      counts' := counts;
      for i := 0 to |classes|
        invariant counts'.Keys == counts.Keys
        invariant forall c :: c in counts && c in classes[..i] ==>
                    counts'[c] == CountRecord(counts[c], c, fortune)
        invariant forall c :: c in counts && c !in classes[..i] ==> counts'[c] == counts[c]
      {
        var c := classes[i];
        var n := counts'[c];
        assert c !in classes[..i];
        if fortune.Failed? {
          n := n.(failed := n.failed + 1);
        } else if Stored(c, fortune.result) {
          n := n.(destination := n.destination + 1);
        } else {
          n := n.(duplicate := n.duplicate + 1);
        }
        counts' := counts'[c := n];
      }
    }

    /** One turn of the loop of `importRecords`, up to the counting. */
    method ImportRecord(r: IndexImport, f: Fate, write: Write) returns (fortune: Fortune<ImportResult>)
      modifies importer
      ensures (importer.rows, fortune) == RecordStep(old(importer.rows), r, f, write)
    {
      var found := importer.Lookup(r.canonicalURL, f);
      if found.Failed? { return Failed(found.reason); }
      var result := Outcome(r, found.result);
      if write == Apply {
        var error := importer.Import(r, f);
        if error.Some? { return Failed(error.value); }
      }
      return Settled(result);
    }

    method ImportRecords(items: seq<IndexImport>, fates: seq<Fate>, write: Write,
                         counts: Tally, failures: seq<Failure>)
      returns (counts': Tally, failures': seq<Failure>)
      requires |fates| == |items| && counts.Keys == CLASSES
      modifies importer
      ensures var pass := RecordPass(old(importer.rows), items, fates, write);
              && importer.rows == pass.0
              && counts'.Keys == CLASSES
              && (forall c :: c in CLASSES ==> counts'[c] == CountRecords(counts[c], c, items, pass.1))
              && failures' == failures + RecordFailures(items, pass.1)
    {
      hide RecordStep, CountRecord, RecordClasses, Importing;
      counts', failures' := counts, failures;
      ghost var start := Progress(importer.rows, counts, failures);
      ImportingStarts(start, items, fates, write);
      for i := 0 to |items|
        invariant counts'.Keys == CLASSES
        invariant Importing(start, items, fates, write, i, Progress(importer.rows, counts', failures'))
      {
        ghost var was := Progress(importer.rows, counts', failures');
        var fortune := ImportRecord(items[i], fates[i], write);
        RecordClassesListed(items[i]);
        var classes := RecordClasses(items[i]);
        if fortune.Failed? {
          failures' := failures' + [Failure(classes, items[i].canonicalURL, fortune.reason)];
        }
        counts' := CountAll(counts', classes, fortune);
        ImportingGoesOn(start, items, fates, write, i, was, Progress(importer.rows, counts', failures'));
      }
      ImportingEnds(start, items, fates, write, Progress(importer.rows, counts', failures'));
    }

    /** A run: classify, then carry out the plan. The articles and the number of Sources are
        what the legacy database answered. */
    method Run(isWeb: URLTest, articles: seq<LegacyArticle>, sources: nat, write: Write, w: Weather)
      returns (report: Report, ghost plan: Plan)
      modifies bookmarker, importer
      ensures IsPlan(isWeb, articles, plan)
      ensures var d := World(old(bookmarker.saved), old(importer.rows));
              && World(bookmarker.saved, importer.rows) == After(d, plan, w, write)
              && ReportsRun(report, d, plan, sources, w, write)
    {
      hide PlansOrdered, BookmarkPass, RecordPass, CountBookmarks, CountRecords, BookmarkFailures,
        RecordFailures;
      var p := Classify(isWeb, articles);
      PlanCountsEverything(isWeb, articles, p);
      var counts := ExcludeSources(p.counts, sources);
      var failures;
      counts, failures := SaveBookmarks(p.bookmarks, BookmarkFates(p.bookmarks, w), write, counts, []);
      ghost var r := RecordPass(importer.rows, p.records, RecordFates(p.records, w), write).1;
      counts, failures := ImportRecords(p.records, RecordFates(p.records, w), write, counts, failures);
      NoRecordCarries(p.records, r);
      report, plan := Report(write, counts, failures), p;
    }
  }

  lemma PlanCountsEverything(isWeb: URLTest, articles: seq<LegacyArticle>, p: Plan)
    requires IsPlan(isWeb, articles, p)
    ensures p.counts.Keys == CLASSES
  {
  }

  lemma RecordClassesListed(r: IndexImport)
    ensures Sorting.Distinct(RecordClasses(r))
    ensures forall c :: c in RecordClasses(r) ==> c in MIGRATED && c != SavedURLs
  {
    IndexedClassesLists(r.score, r.tags, r.summary, r.openedAt, r.vote);
  }

  lemma {:induction false} NoRecordCarries(items: seq<IndexImport>, fortunes: seq<Fortune<ImportResult>>)
    requires |items| == |fortunes|
    ensures forall n, c :: c in {SavedURLs, SourceConfig, ArticleBodies} ==>
              CountRecords(n, c, items, fortunes) == n
  {
    if items != [] {
      var last := |items| - 1;
      NoRecordCarries(items[..last], fortunes[..last]);
      RecordClassesListed(items[last]);
    }
  }

  // ----- Conservation -----

  predicate Conserved(n: Counts) {
    n.source == n.skipped + n.duplicate + n.destination + n.failed
  }

  function Moved(n: Counts): int {
    n.duplicate + n.destination + n.failed
  }

  lemma {:induction false} BookmarksAccountedFor(n: Counts, fortunes: seq<Fortune<bool>>)
    ensures var m := CountBookmarks(n, fortunes);
            m.source == n.source && m.skipped == n.skipped && Moved(m) == Moved(n) + |fortunes|
  {
    if fortunes != [] { BookmarksAccountedFor(n, fortunes[..|fortunes| - 1]); }
  }

  function Holding(items: seq<IndexImport>, c: DataClass): nat {
    if items == [] then 0 else
      Holding(items[..|items| - 1], c) + if c in RecordClasses(items[|items| - 1]) then 1 else 0
  }

  lemma {:induction false} RecordsAccountedFor(n: Counts, c: DataClass, items: seq<IndexImport>,
                                               fortunes: seq<Fortune<ImportResult>>)
    requires |items| == |fortunes|
    ensures var m := CountRecords(n, c, items, fortunes);
            m.source == n.source && m.skipped == n.skipped && Moved(m) == Moved(n) + Holding(items, c)
  {
    hide RecordClasses;
    if items != [] {
      var last := |items| - 1;
      RecordsAccountedFor(n, c, items[..last], fortunes[..last]);
    }
  }

  ghost function HoldingURLs(items: seq<IndexImport>, c: DataClass): set<string> {
    set r | r in items && c in RecordClasses(r) :: r.canonicalURL
  }

  ghost predicate DistinctURLs(items: seq<IndexImport>) {
    forall i, j :: 0 <= i < j < |items| ==> items[i].canonicalURL != items[j].canonicalURL
  }

  lemma {:induction false} HoldingIsURLs(items: seq<IndexImport>, c: DataClass)
    requires DistinctURLs(items)
    ensures Holding(items, c) == |HoldingURLs(items, c)|
  {
    if items == [] {
      assert HoldingURLs(items, c) == {};
    } else {
      hide RecordClasses, HoldingURLs, DistinctURLs;
      var init, last := items[..|items| - 1], items[|items| - 1];
      LastHolds(items, c);
      HoldingIsURLs(init, c);
    }
  }

  lemma LastHolds(items: seq<IndexImport>, c: DataClass)
    requires items != [] && DistinctURLs(items)
    ensures var init, last := items[..|items| - 1], items[|items| - 1];
            && DistinctURLs(init)
            && |HoldingURLs(items, c)| == |HoldingURLs(init, c)| + if c in RecordClasses(last) then 1 else 0
  {
    hide RecordClasses, HoldingURLs;
    var init, last := items[..|items| - 1], items[|items| - 1];
    var held := HoldingURLs(init, c);
    assert items == init + [last];
    HoldingURLsStep(init, last, c);
    AddOne(held, last.canonicalURL);
    assert held + {} == held;
  }

  lemma HoldingURLsStep(init: seq<IndexImport>, last: IndexImport, c: DataClass)
    requires forall i :: 0 <= i < |init| ==> init[i].canonicalURL != last.canonicalURL
    ensures HoldingURLs(init + [last], c) ==
            HoldingURLs(init, c) + if c in RecordClasses(last) then {last.canonicalURL} else {}
    ensures last.canonicalURL !in HoldingURLs(init, c)
  {
    hide RecordClasses;
    assert forall r :: r in init + [last] <==> r in init || r == last;
  }

  lemma {:induction false} GroupMembers(isWeb: URLTest, rows: seq<LegacyArticle>, u: string)
    ensures forall a :: a in Group(isWeb, rows, u) <==>
              a in rows && Indexed(a) != [] && Home(isWeb, a) == Some(u)
  {
    hide Indexed, Home;
    if rows != [] {
      var init, last := rows[..|rows| - 1], rows[|rows| - 1];
      assert rows == init + [last];
      GroupMembers(isWeb, init, u);
    }
  }

  /** A URL brings a class exactly when a row of its group does. */
  lemma BroughtByGroup(isWeb: URLTest, rows: seq<LegacyArticle>, u: string, c: DataClass)
    requires c in MIGRATED && c != SavedURLs
    ensures u in URLsWith(isWeb, rows, c) <==> exists a :: a in Group(isWeb, rows, u) && c in Indexed(a)
  {
    hide Indexed, Home, Carried, Group;
    GroupMembers(isWeb, rows, u);
    forall a | a in rows ensures Carries(a, c) <==> c in Indexed(a) { CarriedLists(a); }
    if u in URLsWith(isWeb, rows, c) {
      var a :| a in rows && Carries(a, c) && Home(isWeb, a).Some? && Home(isWeb, a).value == u;
      assert a in Group(isWeb, rows, u);
    }
  }

  /** The first non-zero score of the group is negative and a later one is positive: the rows
      bring Scores, the record does not carry it. */
  ghost predicate Masked(g: seq<LegacyArticle>) {
    exists i, k :: 0 <= i < k < |g| && g[i].score < 0 < g[k].score && forall j :: 0 <= j < i ==> g[j].score == 0
  }

  lemma FirstScore(v: int, g: seq<LegacyArticle>)
    requires IsFirst(v, 0, g, ScoreOf)
    ensures v > 0 <==> (exists a :: a in g && a.score > 0) && !Masked(g)
  {
    assert forall j :: 0 <= j < |g| ==> ScoreOf(g[j]) == g[j].score;
    if v != 0 {
      var i :| 0 <= i < |g| && ScoreOf(g[i]) == v && forall j :: 0 <= j < i ==> ScoreOf(g[j]) == 0;
      assert g[i] in g;
      if v < 0 {
        if a :| a in g && a.score > 0 {
          var k :| 0 <= k < |g| && g[k] == a;
          assert i < k;
        }
      }
    }
  }

  lemma ScoreSurvives(r: IndexImport, g: seq<LegacyArticle>, url: string)
    requires IsRecord(r, g, url)
    ensures r.score > 0 <==> (exists a :: a in g && a.score > 0) && !Masked(g)
  {
    hide IsFirst, TrimSpace, HoldsTags, IsVote, IsEarliestRead, Masked;
    FirstScore(r.score, g);
  }

  lemma SummarySurvives(r: IndexImport, g: seq<LegacyArticle>, url: string)
    requires IsRecord(r, g, url)
    ensures TrimSpace(r.summary) != "" <==> exists a :: a in g && TrimSpace(a.summary) != ""
  {
    hide TrimSpace, HoldsTags, IsVote, IsEarliestRead;
    assert IsFirst(r.summary, "", g, SummaryOf);
    assert forall j :: 0 <= j < |g| ==> SummaryOf(g[j]) == TrimSpace(g[j].summary);
    assert TrimSpace("") == "" by { TrimmedIsFixed(""); }
    if r.summary != "" {
      var i :| 0 <= i < |g| && SummaryOf(g[i]) == r.summary && forall j :: 0 <= j < i ==> SummaryOf(g[j]) == "";
      TrimSpaceIdempotent(g[i].summary);
      assert g[i] in g;
    }
  }

  /** A record carries what its rows bring, except for a masked score. */
  lemma RecordCarries(r: IndexImport, g: seq<LegacyArticle>, url: string, c: DataClass)
    requires IsRecord(r, g, url) && c in MIGRATED && c != SavedURLs
    ensures c in RecordClasses(r) <==>
            (exists a :: a in g && c in Indexed(a)) && !(c == Scores && Masked(g))
  {
    hide IsFirst, TrimSpace, Masked, IndexedClasses;
    IndexedClassesLists(r.score, r.tags, r.summary, r.openedAt, r.vote);
    forall a | a in g
      ensures c in Indexed(a) <==>
              || (c == Scores && a.score > 0) || (c == Tags && |a.tags| > 0)
              || (c == Summaries && TrimSpace(a.summary) != "")
              || (c == Opens && a.readAt.Some?) || (c == Votes && a.vote != "")
    {
      IndexedClassesLists(a.score, a.tags, a.summary, a.readAt, a.vote);
    }
    match c
    case Scores => ScoreSurvives(r, g, url);
    case Summaries => SummarySurvives(r, g, url);
    case Tags =>
      if |r.tags| > 0 {
        assert r.tags[0] in r.tags;
        var i :| 0 <= i < |g| && r.tags[0] in g[i].tags;
        assert g[i] in g;
      }
      if a :| a in g && |a.tags| > 0 {
        var i :| 0 <= i < |g| && g[i] == a;
        assert a.tags[0] in g[i].tags;
        assert a.tags[0] in r.tags;
      }
    case Opens =>
      if r.openedAt.Some? {
        var i :| 0 <= i < |g| && g[i].readAt == r.openedAt;
        assert g[i] in g;
      }
    case Votes =>
      if r.vote != "" {
        var i: nat :| IsCurrentVote(g, i) && g[i].vote == r.vote && g[i].votedAt == r.votedAt;
        assert g[i] in g;
      }
  }

  ghost predicate NoScoreMasked(isWeb: URLTest, articles: seq<LegacyArticle>) {
    var rows := Ordered(articles);
    forall u :: u in URLsWith(isWeb, rows, Scores) ==> !Masked(Group(isWeb, rows, u))
  }

  lemma HeldURLs(isWeb: URLTest, rows: seq<LegacyArticle>, records: seq<IndexImport>, c: DataClass, u: string)
    requires ListsRecords(isWeb, rows, records) && c in MIGRATED && c != SavedURLs
    ensures u in HoldingURLs(records, c) <==>
            u in URLsWith(isWeb, rows, c) && !(c == Scores && Masked(Group(isWeb, rows, u)))
  {
    hide IsRecord, Group, RecordClasses, Indexed, Home, Masked, URLsWith;
    BroughtByGroup(isWeb, rows, u, c);
    if u in HoldingURLs(records, c) {
      var r :| r in records && c in RecordClasses(r) && r.canonicalURL == u;
      RecordCarries(r, Group(isWeb, rows, u), u, c);
    }
    if u in URLsWith(isWeb, rows, c) && !(c == Scores && Masked(Group(isWeb, rows, u))) {
      GroupMembers(isWeb, rows, u);
      assert u in RecordURLs(isWeb, rows);
      var r :| r in records && r.canonicalURL == u;
      RecordCarries(r, Group(isWeb, rows, u), u, c);
    }
  }

  lemma SubsetSize<T>(s: set<T>, t: set<T>)
    requires s <= t
    ensures |s| <= |t| && (|s| == |t| <==> s == t)
  {
    assert t == s + (t - s) && |t| == |s| + |t - s|;
    if |s| == |t| { assert t - s == {}; }
  }

  lemma AscendingURLsDiffer(records: seq<IndexImport>)
    requires forall i, j :: 0 <= i < j < |records| ==> StrLess(records[i].canonicalURL, records[j].canonicalURL)
    ensures DistinctURLs(records)
  {
    forall i, j | 0 <= i < j < |records| ensures records[i].canonicalURL != records[j].canonicalURL {
      StrLessTotal(records[i].canonicalURL, records[j].canonicalURL);
    }
  }

  /** How many records carry a class, against how many URLs were promised it. */
  lemma RecordsMeetPromise(isWeb: URLTest, rows: seq<LegacyArticle>, records: seq<IndexImport>, c: DataClass)
    requires ListsRecords(isWeb, rows, records) && c in MIGRATED && c != SavedURLs
    ensures Holding(records, c) == |URLsWith(isWeb, rows, c)| <==>
            forall u :: u in URLsWith(isWeb, rows, c) ==> !(c == Scores && Masked(Group(isWeb, rows, u)))
  {
    hide Group, RecordClasses, Masked, URLsWith, HoldingURLs, IsRecord, RecordURLs;
    AscendingURLsDiffer(records);
    HoldingIsURLs(records, c);
    forall u
      ensures u in HoldingURLs(records, c) <==>
              u in URLsWith(isWeb, rows, c) && !(c == Scores && Masked(Group(isWeb, rows, u)))
    {
      HeldURLs(isWeb, rows, records, c, u);
    }
    SubsetSize(HoldingURLs(records, c), URLsWith(isWeb, rows, c));
  }

  lemma BookmarksMeetPromise(isWeb: URLTest, rows: seq<LegacyArticle>, bookmarks: seq<BookmarkImport>)
    requires ListsBookmarks(isWeb, rows, bookmarks)
    ensures |bookmarks| == |URLsWith(isWeb, rows, SavedURLs)|
  {
    hide URLsWith, IsBookmark, SavedGroup;
    var urls := BookmarkURLList(bookmarks);
    forall i, j | 0 <= i < j < |urls| ensures urls[i] != urls[j] { StrLessTotal(urls[i], urls[j]); }
    DistinctSize(urls);
    forall u ensures u in URLsWith(isWeb, rows, SavedURLs) <==> u in urls {
      if u in URLsWith(isWeb, rows, SavedURLs) {
        var b :| b in bookmarks && b.url == u;
        var k :| 0 <= k < |bookmarks| && bookmarks[k] == b;
        assert urls[k] == u;
      }
    }
    assert URLsWith(isWeb, rows, SavedURLs) == set u | u in urls;
  }

  lemma {:induction false} DistinctSize<T>(s: seq<T>)
    requires forall i, j :: 0 <= i < j < |s| ==> s[i] != s[j]
    ensures |set x | x in s| == |s|
  {
    if s != [] {
      var init, last := s[..|s| - 1], s[|s| - 1];
      DistinctSize(init);
      assert s == init + [last];
      assert (set x | x in s) == (set x | x in init) + {last};
    }
  }

  /** End-to-end conservation, under any failures, dry or applied: what the legacy rows brought
      was skipped, was a duplicate, was stored or failed. For Scores this holds exactly when no
      URL's first score is negative and masks a positive one. */
  lemma RunConserves(isWeb: URLTest, articles: seq<LegacyArticle>, p: Plan, d: World, sources: nat,
                     w: Weather, write: Write, report: Report)
    requires IsPlan(isWeb, articles, p) && ReportsRun(report, d, p, sources, w, write)
    ensures forall c :: c in MIGRATED && c != Scores ==> Conserved(report.counts[c])
    ensures Conserved(report.counts[Scores]) <==> NoScoreMasked(isWeb, articles)
    ensures report.counts[ArticleBodies].source == report.counts[ArticleBodies].skipped
    ensures report.counts[SourceConfig].source == report.counts[SourceConfig].skipped == sources
  {
    hide CountsOf, ListsRecords, ListsBookmarks, Group, Masked, URLsWith, RecordPass, BookmarkPass;
    var rows := Ordered(articles);
    SourcesExcluded(isWeb, rows, p.counts, sources);
    forall c | c in MIGRATED && c != SavedURLs
      ensures Conserved(report.counts[c]) <==>
              forall u :: u in URLsWith(isWeb, rows, c) ==> !(c == Scores && Masked(Group(isWeb, rows, u)))
    {
      RecordsMeetPromise(isWeb, rows, p.records, c);
      RecordsAccountedFor(p.counts[c], c, p.records, Indexing(d, p, w, write).1);
      PlanBalances(isWeb, rows, c);
    }
    BookmarksMeetPromise(isWeb, rows, p.bookmarks);
    BookmarksAccountedFor(p.counts[SavedURLs], Bookmarking(d, p, w, write).1);
    PlanBalances(isWeb, rows, SavedURLs);
  }

  lemma PlanBalances(isWeb: URLTest, rows: seq<LegacyArticle>, c: DataClass)
    requires c in MIGRATED
    ensures var n := CountsOf(isWeb, rows, c);
            && n.source == n.skipped + n.duplicate + |URLsWith(isWeb, rows, c)|
            && n.failed == n.destination == 0
  {
  }

  lemma SourcesExcluded(isWeb: URLTest, rows: seq<LegacyArticle>, counts: Tally, sources: nat)
    requires TalliesRows(isWeb, rows, counts)
    ensures counts[ArticleBodies].source == counts[ArticleBodies].skipped
    ensures var n := ExcludeSources(counts, sources)[SourceConfig];
            n.source == n.skipped == sources
  {
  }

  lemma TwoInOrder(a: LegacyArticle, b: LegacyArticle)
    requires RowLess(a, b) && !RowLess(b, a)
    ensures Ordered([a, b]) == [a, b]
  {
    var rows := [a, b];
    assert rows[0] == a && rows[1..] == [b] && [b][1..] == [];
    assert Sorting.Sort([b], RowLess) == Sorting.Insert(b, [], RowLess) == [b];
    assert Sorting.Sort(rows, RowLess) == Sorting.Insert(a, [b], RowLess);
  }

  /** A row scored -1 and a later one scored 3, for one URL: the 3 counts as transformed, and no
      record carries it. */
  lemma MaskedScore(isWeb: URLTest, u: string, a: LegacyArticle, b: LegacyArticle)
    requires u != "" && TrimSpace(u) == u && isWeb(u)
    requires a == LegacyArticle("1", u, u, "t", "", "", None, -1, ["x"], false, None, None, "", None, false, 1)
    requires b == LegacyArticle("2", u, u, "t", "", "", None, 3, [], false, None, None, "", None, false, 2)
    ensures !NoScoreMasked(isWeb, [a, b])
  {
    var rows := [a, b];
    assert Ordered(rows) == rows by { TwoInOrder(a, b); }
    assert rows[..1] == [a] && [a][..0] == [];
    assert Home(isWeb, a) == Home(isWeb, b) == Some(u);
    assert Indexed(a) == [Tags] && Indexed(b) == [Scores] by { assert TrimSpace("") == ""; }
    hide Indexed, Home, Ordered;
    assert Group(isWeb, [a], u) == [a];
    assert Group(isWeb, rows, u) == [a] + [b];
    assert Masked(Group(isWeb, rows, u));
    assert Carries(b, Scores);
    assert b in rows;
    assert u in URLsWith(isWeb, rows, Scores);
  }

  /** The case the source expects: scores are never negative, and everything is conserved. */
  lemma NonNegativeScoresConserve(isWeb: URLTest, articles: seq<LegacyArticle>)
    requires forall a :: a in articles ==> a.score >= 0
    ensures NoScoreMasked(isWeb, articles)
  {
    hide Home, Indexed, URLsWith;
    var rows := Ordered(articles);
    OrderedMembers(articles);
    forall u ensures !Masked(Group(isWeb, rows, u)) {
      GroupMembers(isWeb, rows, u);
      var g := Group(isWeb, rows, u);
      forall i | 0 <= i < |g| ensures g[i].score >= 0 { assert g[i] in g && g[i] in rows; }
    }
  }

  lemma OrderedMembers(articles: seq<LegacyArticle>)
    ensures forall a :: a in Ordered(articles) <==> a in articles
  {
    Sorting.SortKeepsMembers(articles, RowLess);
  }

  // ----- One item is untouched by the others -----

  ghost predicate DistinctBookmarks(items: seq<BookmarkImport>) {
    forall i, j :: 0 <= i < j < |items| ==> items[i].url != items[j].url
  }

  ghost predicate NoURLTwice(p: Plan) {
    DistinctURLs(p.records) && DistinctBookmarks(p.bookmarks)
  }

  /** Nothing has been stored yet. */
  ghost predicate Unstarted(counts: Tally) {
    counts.Keys == CLASSES && forall c :: c in CLASSES ==> counts[c].destination == counts[c].failed == 0
  }

  /** The plans `Classify` makes are ready to be carried out. */
  lemma PlanIsReady(isWeb: URLTest, articles: seq<LegacyArticle>, p: Plan)
    requires IsPlan(isWeb, articles, p)
    ensures NoURLTwice(p) && Unstarted(p.counts)
  {
    AscendingURLsDiffer(p.records);
    forall c | c in CLASSES { PlanStoresNothing(isWeb, Ordered(articles), c); }
    forall i, j | 0 <= i < j < |p.bookmarks| ensures p.bookmarks[i].url != p.bookmarks[j].url {
      StrLessTotal(p.bookmarks[i].url, p.bookmarks[j].url);
    }
  }

  function TitleAt(saved: Bookmarks, url: string): Option<string> {
    if url in saved then Some(saved[url]) else None
  }

  /** A step reads and writes its own key only. */
  lemma RecordStepIsLocal(a: Index, b: Index, r: IndexImport, f: Fate, write: Write)
    requires RowAt(a, r.canonicalURL) == RowAt(b, r.canonicalURL)
    ensures RecordStep(a, r, f, write).1 == RecordStep(b, r, f, write).1
    ensures RowAt(RecordStep(a, r, f, write).0, r.canonicalURL) == RowAt(RecordStep(b, r, f, write).0, r.canonicalURL)
    ensures forall u :: u != r.canonicalURL ==> RowAt(RecordStep(a, r, f, write).0, u) == RowAt(a, u)
  {
    hide Upsert, Acceptable, Outcome;
  }

  lemma {:induction false} RecordPassElsewhere(index: Index, items: seq<IndexImport>, fates: seq<Fate>,
                                               write: Write, u: string)
    requires |fates| == |items| && forall i :: 0 <= i < |items| ==> items[i].canonicalURL != u
    ensures RowAt(RecordPass(index, items, fates, write).0, u) == RowAt(index, u)
  {
    if items != [] {
      hide RecordStep, RowAt;
      var n := |items| - 1;
      RecordPassElsewhere(index, items[..n], fates[..n], write, u);
      var before := RecordPass(index, items[..n], fates[..n], write).0;
      RecordStepIsLocal(before, before, items[n], fates[n], write);
    }
  }

  /** After a pass, an item's row is what its one step made of the row it found at the start. */
  lemma {:induction false} RecordPassItem(index: Index, items: seq<IndexImport>, fates: seq<Fate>,
                                          write: Write, i: nat)
    requires i < |items| == |fates| && DistinctURLs(items)
    ensures var pass := RecordPass(index, items, fates, write);
            var u := items[i].canonicalURL;
            && RowAt(pass.0, u) == RowAt(RecordStep(index, items[i], fates[i], write).0, u)
            && pass.1[i] == RecordStep(index, items[i], fates[i], write).1
  {
    hide RecordStep, RowAt;
    var n := |items| - 1;
    var before := RecordPass(index, items[..n], fates[..n], write).0;
    if i < n {
      RecordPassItem(index, items[..n], fates[..n], write, i);
      RecordStepIsLocal(before, before, items[n], fates[n], write);
    } else {
      RecordPassElsewhere(index, items[..n], fates[..n], write, items[n].canonicalURL);
      RecordStepIsLocal(before, index, items[n], fates[n], write);
    }
  }

  lemma RecordPassAt(index: Index, items: seq<IndexImport>, fates: seq<Fate>, write: Write)
    requires |fates| == |items| && DistinctURLs(items)
    ensures var pass := RecordPass(index, items, fates, write);
            && (forall i :: 0 <= i < |items| ==>
                  var u := items[i].canonicalURL;
                  && RowAt(pass.0, u) == RowAt(RecordStep(index, items[i], fates[i], write).0, u)
                  && pass.1[i] == RecordStep(index, items[i], fates[i], write).1)
            && (forall u :: (forall i :: 0 <= i < |items| ==> items[i].canonicalURL != u) ==>
                  RowAt(pass.0, u) == RowAt(index, u))
  {
    hide RecordStep, RowAt, RecordPass;
    forall i | 0 <= i < |items| { RecordPassItem(index, items, fates, write, i); }
    forall u | forall i :: 0 <= i < |items| ==> items[i].canonicalURL != u {
      RecordPassElsewhere(index, items, fates, write, u);
    }
  }

  lemma BookmarkStepIsLocal(a: Bookmarks, c: Bookmarks, b: BookmarkImport, f: Fate, write: Write)
    requires TitleAt(a, b.url) == TitleAt(c, b.url)
    ensures BookmarkStep(a, b, f, write).1 == BookmarkStep(c, b, f, write).1
    ensures TitleAt(BookmarkStep(a, b, f, write).0, b.url) == TitleAt(BookmarkStep(c, b, f, write).0, b.url)
    ensures forall u :: u != b.url ==> TitleAt(BookmarkStep(a, b, f, write).0, u) == TitleAt(a, u)
  {
  }

  lemma {:induction false} BookmarkPassElsewhere(saved: Bookmarks, items: seq<BookmarkImport>,
                                                 fates: seq<Fate>, write: Write, u: string)
    requires |fates| == |items| && forall i :: 0 <= i < |items| ==> items[i].url != u
    ensures TitleAt(BookmarkPass(saved, items, fates, write).0, u) == TitleAt(saved, u)
  {
    if items != [] {
      hide BookmarkStep, TitleAt;
      var n := |items| - 1;
      BookmarkPassElsewhere(saved, items[..n], fates[..n], write, u);
      var before := BookmarkPass(saved, items[..n], fates[..n], write).0;
      BookmarkStepIsLocal(before, before, items[n], fates[n], write);
    }
  }

  lemma {:induction false} BookmarkPassItem(saved: Bookmarks, items: seq<BookmarkImport>, fates: seq<Fate>,
                                            write: Write, i: nat)
    requires i < |items| == |fates| && DistinctBookmarks(items)
    ensures var pass := BookmarkPass(saved, items, fates, write);
            var u := items[i].url;
            && TitleAt(pass.0, u) == TitleAt(BookmarkStep(saved, items[i], fates[i], write).0, u)
            && pass.1[i] == BookmarkStep(saved, items[i], fates[i], write).1
  {
    hide BookmarkStep, TitleAt;
    var n := |items| - 1;
    var before := BookmarkPass(saved, items[..n], fates[..n], write).0;
    if i < n {
      BookmarkPassItem(saved, items[..n], fates[..n], write, i);
      BookmarkStepIsLocal(before, before, items[n], fates[n], write);
    } else {
      BookmarkPassElsewhere(saved, items[..n], fates[..n], write, items[n].url);
      BookmarkStepIsLocal(before, saved, items[n], fates[n], write);
    }
  }

  lemma BookmarkPassAt(saved: Bookmarks, items: seq<BookmarkImport>, fates: seq<Fate>, write: Write)
    requires |fates| == |items| && DistinctBookmarks(items)
    ensures var pass := BookmarkPass(saved, items, fates, write);
            && (forall i :: 0 <= i < |items| ==>
                  var u := items[i].url;
                  && TitleAt(pass.0, u) == TitleAt(BookmarkStep(saved, items[i], fates[i], write).0, u)
                  && pass.1[i] == BookmarkStep(saved, items[i], fates[i], write).1)
            && (forall u :: (forall i :: 0 <= i < |items| ==> items[i].url != u) ==>
                  TitleAt(pass.0, u) == TitleAt(saved, u))
  {
    hide BookmarkStep, TitleAt, BookmarkPass;
    forall i | 0 <= i < |items| { BookmarkPassItem(saved, items, fates, write, i); }
    forall u | forall i :: 0 <= i < |items| ==> items[i].url != u {
      BookmarkPassElsewhere(saved, items, fates, write, u);
    }
  }

  // ----- A dry run predicts an apply -----

  /** Does applying this item get as far as a write, and does the write report an error? */
  predicate BookmarkWriteFails(saved: Bookmarks, b: BookmarkImport, f: Fate) {
    f.lookupError.None? && b.url !in saved && f.writeError.Some?
  }

  predicate RecordWriteFails(r: IndexImport, f: Fate) {
    f.lookupError.None? && (!Acceptable(r) || f.writeError.Some?)
  }

  predicate AWriteFails(d: World, p: Plan, w: Weather) {
    || (exists b :: b in p.bookmarks && BookmarkWriteFails(d.saved, b, w.bookmark(b.url)))
    || (exists r :: r in p.records && RecordWriteFails(r, w.record(r.canonicalURL)))
  }

  /** From the same destinations and the same lookup answers, a dry run foretells the fortune
      of every item exactly when no write the apply attempts fails. */
  lemma DryRunPredictsApply(p: Plan, d: World, w: Weather)
    requires NoURLTwice(p)
    ensures && Bookmarking(d, p, w, DryRun).1 == Bookmarking(d, p, w, Apply).1
            && Indexing(d, p, w, DryRun).1 == Indexing(d, p, w, Apply).1
            <==> !AWriteFails(d, p, w)
  {
    hide Acceptable, Outcome, Upsert;
    var bs, rs := BookmarkFates(p.bookmarks, w), RecordFates(p.records, w);
    BookmarkPassAt(d.saved, p.bookmarks, bs, DryRun);
    BookmarkPassAt(d.saved, p.bookmarks, bs, Apply);
    RecordPassAt(d.index, p.records, rs, DryRun);
    RecordPassAt(d.index, p.records, rs, Apply);
    var bd, ba := Bookmarking(d, p, w, DryRun).1, Bookmarking(d, p, w, Apply).1;
    var rd, ra := Indexing(d, p, w, DryRun).1, Indexing(d, p, w, Apply).1;
    forall i | 0 <= i < |p.bookmarks|
      ensures bd[i] == ba[i] <==> !BookmarkWriteFails(d.saved, p.bookmarks[i], w.bookmark(p.bookmarks[i].url))
    {
      BookmarkForetold(d.saved, p.bookmarks[i], bs[i]);
    }
    forall i | 0 <= i < |p.records|
      ensures rd[i] == ra[i] <==> !RecordWriteFails(p.records[i], w.record(p.records[i].canonicalURL))
    {
      RecordForetold(d.index, p.records[i], rs[i]);
    }
    AllForetold(d, p, w, bd, ba, rd, ra);
  }

  lemma BookmarkForetold(saved: Bookmarks, b: BookmarkImport, f: Fate)
    ensures BookmarkStep(saved, b, f, DryRun).1 == BookmarkStep(saved, b, f, Apply).1
            <==> !BookmarkWriteFails(saved, b, f)
  {
  }

  lemma RecordForetold(index: Index, r: IndexImport, f: Fate)
    ensures RecordStep(index, r, f, DryRun).1 == RecordStep(index, r, f, Apply).1 <==> !RecordWriteFails(r, f)
  {
    hide Acceptable, Outcome, Upsert;
  }

  lemma AllForetold(d: World, p: Plan, w: Weather, bd: seq<Fortune<bool>>, ba: seq<Fortune<bool>>,
                    rd: seq<Fortune<ImportResult>>, ra: seq<Fortune<ImportResult>>)
    requires |bd| == |ba| == |p.bookmarks| && |rd| == |ra| == |p.records|
    requires forall i :: 0 <= i < |bd| ==>
               (bd[i] == ba[i] <==> !BookmarkWriteFails(d.saved, p.bookmarks[i], w.bookmark(p.bookmarks[i].url)))
    requires forall i :: 0 <= i < |rd| ==>
               (rd[i] == ra[i] <==> !RecordWriteFails(p.records[i], w.record(p.records[i].canonicalURL)))
    ensures bd == ba && rd == ra <==> !AWriteFails(d, p, w)
  {
    hide BookmarkWriteFails, RecordWriteFails;
    if bd == ba && rd == ra {
      forall b | b in p.bookmarks ensures !BookmarkWriteFails(d.saved, b, w.bookmark(b.url)) {
        var i :| 0 <= i < |bd| && p.bookmarks[i] == b;
        assert bd[i] == ba[i];
      }
      forall r | r in p.records ensures !RecordWriteFails(r, w.record(r.canonicalURL)) {
        var i :| 0 <= i < |rd| && p.records[i] == r;
        assert rd[i] == ra[i];
      }
    }
    if !AWriteFails(d, p, w) {
      forall i | 0 <= i < |bd| ensures bd[i] == ba[i] { assert p.bookmarks[i] in p.bookmarks; }
      forall i | 0 <= i < |rd| ensures rd[i] == ra[i] { assert p.records[i] in p.records; }
    }
  }

  /** The two reports then agree on every count and every failure. */
  lemma ReportsAgree(p: Plan, d: World, sources: nat, w: Weather, dry: Report, applied: Report)
    requires NoURLTwice(p) && !AWriteFails(d, p, w)
    requires ReportsRun(dry, d, p, sources, w, DryRun) && ReportsRun(applied, d, p, sources, w, Apply)
    ensures dry.counts == applied.counts && dry.failures == applied.failures
  {
    hide NoURLTwice, AWriteFails, CountBookmarks, CountRecords, BookmarkFailures, RecordFailures;
    DryRunPredictsApply(p, d, w);
    forall c | c in CLASSES ensures dry.counts[c] == applied.counts[c] {
      if c in MIGRATED && c != SavedURLs {
        assert dry.counts[c] == CountRecords(p.counts[c], c, p.records, Indexing(d, p, w, DryRun).1);
      }
    }
  }

  /** And a dry run writes nothing. */
  lemma {:induction false} DryRunWritesNothing(d: World, p: Plan, w: Weather)
    ensures After(d, p, w, DryRun) == d
  {
    BookmarkDryPass(d.saved, p.bookmarks, BookmarkFates(p.bookmarks, w));
    RecordDryPass(d.index, p.records, RecordFates(p.records, w));
  }

  lemma {:induction false} BookmarkDryPass(saved: Bookmarks, items: seq<BookmarkImport>, fates: seq<Fate>)
    requires |fates| == |items|
    ensures BookmarkPass(saved, items, fates, DryRun).0 == saved
  {
    if items != [] { BookmarkDryPass(saved, items[..|items| - 1], fates[..|items| - 1]); }
  }

  lemma {:induction false} RecordDryPass(index: Index, items: seq<IndexImport>, fates: seq<Fate>)
    requires |fates| == |items|
    ensures RecordPass(index, items, fates, DryRun).0 == index
  {
    if items != [] { RecordDryPass(index, items[..|items| - 1], fates[..|items| - 1]); }
  }

  // ----- Convergence -----

  /** A row without the timestamps the import stamps itself. */
  function Erased(row: IndexRow): IndexRow {
    row.(createdAt := 0, updatedAt := 0,
         feedback := match row.feedback
           case None => None
           case Some(f) => Some(Feedback(f.vote, if f.votedAt.Stamped? then Stamped(0) else f.votedAt, 0)))
  }

  function ErasedRow(row: Option<IndexRow>): Option<IndexRow> {
    match row
    case None => None
    case Some(r) => Some(Erased(r))
  }

  /** Two worlds that differ only in timestamps the import stamped. */
  ghost predicate SameButStamps(a: World, b: World) {
    && a.saved == b.saved
    && forall u :: ErasedRow(RowAt(a.index, u)) == ErasedRow(RowAt(b.index, u))
  }

  /** Where a record is heading, from the row found before the first run. */
  function Goal(found: Option<IndexRow>, r: IndexImport): Option<IndexRow> {
    if Acceptable(r) then Some(Erased(Upsert(found, r, 0))) else ErasedRow(found)
  }

  /** The upsert ignores stamps, and a second one changes nothing but stamps. */
  lemma UpsertSettles(a: Option<IndexRow>, b: Option<IndexRow>, r: IndexImport, s: Time, t: Time)
    ensures ErasedRow(a) == ErasedRow(b) ==> Erased(Upsert(a, r, s)) == Erased(Upsert(b, r, t))
    ensures Erased(Upsert(Some(Upsert(a, r, s)), r, t)) == Erased(Upsert(a, r, 0))
  {
  }

  lemma UpsertOnGoal(found: Option<IndexRow>, now: Option<IndexRow>, r: IndexImport, t: Time)
    requires Acceptable(r)
    requires ErasedRow(now) == ErasedRow(found) || ErasedRow(now) == Goal(found, r)
    ensures Some(Erased(Upsert(now, r, t))) == Goal(found, r)
  {
    hide Upsert, Erased, Acceptable;
    UpsertSettles(now, found, r, t, 0);
    UpsertSettles(now, Some(Upsert(found, r, 0)), r, t, 0);
    UpsertSettles(found, found, r, 0, 0);
  }

  /** An applied step leaves a row where it was or takes it to its goal; a lucky one takes it
      there for sure. */
  lemma StepTowardsGoal(index: Index, found: Option<IndexRow>, r: IndexImport, f: Fate)
    requires var now := ErasedRow(RowAt(index, r.canonicalURL));
             now == ErasedRow(found) || now == Goal(found, r)
    ensures var now := ErasedRow(RowAt(index, r.canonicalURL));
            var then' := ErasedRow(RowAt(RecordStep(index, r, f, Apply).0, r.canonicalURL));
            && (then' == now || then' == Goal(found, r))
            && (Lucky(f) ==> then' == Goal(found, r))
  {
    hide Upsert, Erased, Acceptable, Outcome;
    if Acceptable(r) { UpsertOnGoal(found, RowAt(index, r.canonicalURL), r, f.now); }
  }

  function SavedGoal(found: Option<string>, b: BookmarkImport): Option<string> {
    if found.Some? then found else Some(b.title)
  }

  /** Every key of `now` is where `start` had it, or at its goal. */
  ghost predicate OnTheWay(start: World, now: World, p: Plan) {
    && (forall u :: (forall r :: r in p.records ==> r.canonicalURL != u) ==>
          ErasedRow(RowAt(now.index, u)) == ErasedRow(RowAt(start.index, u)))
    && (forall r :: r in p.records ==>
          var row := ErasedRow(RowAt(now.index, r.canonicalURL));
          var found := RowAt(start.index, r.canonicalURL);
          row == ErasedRow(found) || row == Goal(found, r))
    && (forall u :: (forall b :: b in p.bookmarks ==> b.url != u) ==>
          TitleAt(now.saved, u) == TitleAt(start.saved, u))
    && (forall b :: b in p.bookmarks ==>
          var found := TitleAt(start.saved, b.url);
          TitleAt(now.saved, b.url) == found || TitleAt(now.saved, b.url) == SavedGoal(found, b))
  }

  ghost predicate Arrived(start: World, now: World, p: Plan) {
    && OnTheWay(start, now, p)
    && (forall r :: r in p.records ==>
          ErasedRow(RowAt(now.index, r.canonicalURL)) == Goal(RowAt(start.index, r.canonicalURL), r))
    && (forall b :: b in p.bookmarks ==>
          TitleAt(now.saved, b.url) == SavedGoal(TitleAt(start.saved, b.url), b))
  }

  ghost predicate FairWeather(w: Weather) {
    (forall u :: Lucky(w.bookmark(u))) && (forall u :: Lucky(w.record(u)))
  }

  lemma RecordsKeepGoing(start: World, now: World, p: Plan, w: Weather)
    requires DistinctURLs(p.records) && OnTheWay(start, now, p)
    ensures var after := After(now, p, w, Apply);
            && (forall u :: (forall r :: r in p.records ==> r.canonicalURL != u) ==>
                  ErasedRow(RowAt(after.index, u)) == ErasedRow(RowAt(start.index, u)))
            && (forall r :: r in p.records ==>
                  var row := ErasedRow(RowAt(after.index, r.canonicalURL));
                  var goal := Goal(RowAt(start.index, r.canonicalURL), r);
                  && (row == ErasedRow(RowAt(now.index, r.canonicalURL)) || row == goal)
                  && (Lucky(w.record(r.canonicalURL)) ==> row == goal))
  {
    hide RecordStep, Goal, ErasedRow, RowAt, Lucky;
    var fates := RecordFates(p.records, w);
    RecordPassAt(now.index, p.records, fates, Apply);
    forall r | r in p.records
      ensures var row := ErasedRow(RowAt(After(now, p, w, Apply).index, r.canonicalURL));
              var goal := Goal(RowAt(start.index, r.canonicalURL), r);
              && (row == ErasedRow(RowAt(now.index, r.canonicalURL)) || row == goal)
              && (Lucky(w.record(r.canonicalURL)) ==> row == goal)
    {
      var i :| 0 <= i < |p.records| && p.records[i] == r;
      StepTowardsGoal(now.index, RowAt(start.index, r.canonicalURL), r, fates[i]);
    }
  }

  lemma BookmarksKeepGoing(start: World, now: World, p: Plan, w: Weather)
    requires DistinctBookmarks(p.bookmarks) && OnTheWay(start, now, p)
    ensures var after := After(now, p, w, Apply);
            && (forall u :: (forall b :: b in p.bookmarks ==> b.url != u) ==>
                  TitleAt(after.saved, u) == TitleAt(start.saved, u))
            && (forall b :: b in p.bookmarks ==>
                  var title := TitleAt(after.saved, b.url);
                  var goal := SavedGoal(TitleAt(start.saved, b.url), b);
                  && (title == TitleAt(now.saved, b.url) || title == goal)
                  && (Lucky(w.bookmark(b.url)) ==> title == goal))
  {
    hide Goal, ErasedRow, RowAt;
    var fates := BookmarkFates(p.bookmarks, w);
    BookmarkPassAt(now.saved, p.bookmarks, fates, Apply);
    forall b | b in p.bookmarks
      ensures var title := TitleAt(After(now, p, w, Apply).saved, b.url);
              var goal := SavedGoal(TitleAt(start.saved, b.url), b);
              && (title == TitleAt(now.saved, b.url) || title == goal)
              && (Lucky(w.bookmark(b.url)) ==> title == goal)
    {
      var i :| 0 <= i < |p.bookmarks| && p.bookmarks[i] == b;
      assert TitleAt(BookmarkStep(now.saved, b, fates[i], Apply).0, b.url) ==
             if fates[i].lookupError.None? && b.url !in now.saved && (fates[i].writeError.None? || fates[i].landed)
             then Some(b.title) else TitleAt(now.saved, b.url);
    }
  }

  lemma RunGoesOn(start: World, now: World, p: Plan, w: Weather)
    requires DistinctURLs(p.records) && DistinctBookmarks(p.bookmarks) && OnTheWay(start, now, p)
    ensures OnTheWay(start, After(now, p, w, Apply), p)
    ensures FairWeather(w) ==> Arrived(start, After(now, p, w, Apply), p)
  {
    hide After, Goal, ErasedRow, RowAt, TitleAt, SavedGoal, Lucky, DistinctURLs, DistinctBookmarks;
    RecordsKeepGoing(start, now, p, w);
    BookmarksKeepGoing(start, now, p, w);
  }

  /** Destinations after a sequence of applied runs of the same legacy data. */
  function AfterAll(d: World, p: Plan, ws: seq<Weather>): World {
    if ws == [] then d else After(AfterAll(d, p, ws[..|ws| - 1]), p, ws[|ws| - 1], Apply)
  }

  lemma {:induction false} RunsGoOn(d: World, p: Plan, ws: seq<Weather>)
    requires DistinctURLs(p.records) && DistinctBookmarks(p.bookmarks)
    ensures OnTheWay(d, AfterAll(d, p, ws), p)
  {
    hide Goal;
    if ws != [] {
      RunsGoOn(d, p, ws[..|ws| - 1]);
      RunGoesOn(d, AfterAll(d, p, ws[..|ws| - 1]), p, ws[|ws| - 1]);
    }
  }

  lemma ArrivalIsUnique(start: World, a: World, b: World, p: Plan)
    requires Arrived(start, a, p) && Arrived(start, b, p)
    ensures SameButStamps(a, b)
  {
    hide Goal, ErasedRow, RowAt, SavedGoal;
    forall u ensures ErasedRow(RowAt(a.index, u)) == ErasedRow(RowAt(b.index, u)) {
      if r :| r in p.records && r.canonicalURL == u {
        assert ErasedRow(RowAt(a.index, r.canonicalURL)) == Goal(RowAt(start.index, r.canonicalURL), r);
      }
    }
    forall u ensures TitleAt(a.saved, u) == TitleAt(b.saved, u) {
      if b' :| b' in p.bookmarks && b'.url == u {
        assert TitleAt(a.saved, b'.url) == SavedGoal(TitleAt(start.saved, b'.url), b');
      }
    }
    TitlesDecide(a.saved, b.saved);
  }

  lemma TitlesDecide(a: Bookmarks, b: Bookmarks)
    requires forall u :: TitleAt(a, u) == TitleAt(b, u)
    ensures a == b
  {
    forall u ensures u in a <==> u in b { assert TitleAt(a, u) == TitleAt(b, u); }
    forall u | u in a ensures a[u] == b[u] { assert TitleAt(a, u) == TitleAt(b, u); }
  }

  /** From any destinations, any sequence of applied runs whose lookups and writes fail at will,
      followed by one run without failures, ends where a single run without failures ends. */
  lemma RunsConverge(p: Plan, d: World, ws: seq<Weather>, last: Weather, only: Weather)
    requires NoURLTwice(p) && FairWeather(last) && FairWeather(only)
    ensures SameButStamps(After(AfterAll(d, p, ws), p, last, Apply), After(d, p, only, Apply))
  {
    hide After, FairWeather, Arrived, OnTheWay, DistinctURLs, DistinctBookmarks;
    RunsGoOn(d, p, ws);
    RunGoesOn(d, AfterAll(d, p, ws), p, last);
    RunsGoOn(d, p, []);
    RunGoesOn(d, d, p, only);
    ArrivalIsUnique(d, After(AfterAll(d, p, ws), p, last, Apply), After(d, p, only, Apply), p);
  }

  // ----- A rerun is quiet -----

  predicate NothingStored(r: IndexImport, fortune: Fortune<ImportResult>) {
    fortune.Settled? ==> forall c :: c in RecordClasses(r) ==> !Stored(c, fortune.result)
  }

  /** On a row that holds its goal, a record can no longer store anything. */
  lemma NothingLeft(index: Index, found: Option<IndexRow>, r: IndexImport, f: Fate)
    requires ErasedRow(RowAt(index, r.canonicalURL)) == Goal(found, r)
    ensures NothingStored(r, RecordStep(index, r, f, Apply).1)
    ensures ErasedRow(RowAt(RecordStep(index, r, f, Apply).0, r.canonicalURL)) == Goal(found, r)
  {
    hide Acceptable, RecordClasses;
    RecordClassesListed(r);
    if Acceptable(r) { UpsertOnGoal(found, RowAt(index, r.canonicalURL), r, f.now); }
  }

  lemma {:induction false} QuietRecords(n: Counts, c: DataClass, items: seq<IndexImport>,
                                        fortunes: seq<Fortune<ImportResult>>)
    requires |items| == |fortunes|
    requires forall i :: 0 <= i < |items| ==> NothingStored(items[i], fortunes[i])
    ensures CountRecords(n, c, items, fortunes).destination == n.destination
  {
    if items != [] {
      hide RecordClasses;
      var last := |items| - 1;
      QuietRecords(n, c, items[..last], fortunes[..last]);
    }
  }

  lemma {:induction false} QuietBookmarks(n: Counts, fortunes: seq<Fortune<bool>>)
    requires forall i :: 0 <= i < |fortunes| ==> fortunes[i] != Settled(true)
    ensures CountBookmarks(n, fortunes).destination == n.destination
  {
    if fortunes != [] { QuietBookmarks(n, fortunes[..|fortunes| - 1]); }
  }

  /** Once a run has met no failure, another one, in any weather, changes nothing but stamps and
      stores nothing of any class. */
  lemma RerunIsQuiet(p: Plan, d: World, sources: nat, first: Weather, second: Weather, report: Report)
    requires NoURLTwice(p) && Unstarted(p.counts) && FairWeather(first)
    requires ReportsRun(report, After(d, p, first, Apply), p, sources, second, Apply)
    ensures SameButStamps(After(After(d, p, first, Apply), p, second, Apply), After(d, p, first, Apply))
    ensures forall c :: c in CLASSES ==> report.counts[c].destination == 0
  {
    hide After, FairWeather, Arrived, OnTheWay, DistinctURLs, DistinctBookmarks;
    var once := After(d, p, first, Apply);
    RunsGoOn(d, p, []);
    RunGoesOn(d, d, p, first);
    StaysArrived(d, once, p, second);
    ArrivalIsUnique(d, After(once, p, second, Apply), once, p);
    QuietReport(d, once, p, sources, second, report);
  }

  lemma StaysArrived(start: World, now: World, p: Plan, w: Weather)
    requires DistinctURLs(p.records) && DistinctBookmarks(p.bookmarks) && Arrived(start, now, p)
    ensures Arrived(start, After(now, p, w, Apply), p)
  {
    hide After, Goal, ErasedRow, RowAt, TitleAt, SavedGoal, Lucky, DistinctURLs, DistinctBookmarks;
    RunGoesOn(start, now, p, w);
    RecordsKeepGoing(start, now, p, w);
    BookmarksKeepGoing(start, now, p, w);
  }

  lemma QuietReport(start: World, now: World, p: Plan, sources: nat, w: Weather, report: Report)
    requires NoURLTwice(p) && Unstarted(p.counts) && Arrived(start, now, p)
    requires ReportsRun(report, now, p, sources, w, Apply)
    ensures forall c :: c in CLASSES ==> report.counts[c].destination == 0
  {
    hide RecordStep, Goal, ErasedRow, NothingStored, OnTheWay, BookmarkStep, CountRecords, CountBookmarks;
    var b, r := Bookmarking(now, p, w, Apply).1, Indexing(now, p, w, Apply).1;
    QuietFortunes(start, now, p, w);
    forall c | c in CLASSES ensures report.counts[c].destination == 0 {
      if c in MIGRATED && c != SavedURLs { QuietRecords(p.counts[c], c, p.records, r); }
      if c == SavedURLs { QuietBookmarks(p.counts[c], b); }
    }
  }

  lemma PlanStoresNothing(isWeb: URLTest, rows: seq<LegacyArticle>, c: DataClass)
    ensures CountsOf(isWeb, rows, c).destination == 0
  {
  }

  lemma QuietFortunes(start: World, now: World, p: Plan, w: Weather)
    requires DistinctURLs(p.records) && DistinctBookmarks(p.bookmarks) && Arrived(start, now, p)
    ensures forall i :: 0 <= i < |p.bookmarks| ==> Bookmarking(now, p, w, Apply).1[i] != Settled(true)
    ensures forall i :: 0 <= i < |p.records| ==> NothingStored(p.records[i], Indexing(now, p, w, Apply).1[i])
  {
    hide RecordStep, Goal, ErasedRow, NothingStored, OnTheWay, RecordPass, BookmarkPass, DistinctURLs,
      DistinctBookmarks;
    var bs, rs := BookmarkFates(p.bookmarks, w), RecordFates(p.records, w);
    forall i | 0 <= i < |p.bookmarks| ensures Bookmarking(now, p, w, Apply).1[i] != Settled(true) {
      BookmarkPassItem(now.saved, p.bookmarks, bs, Apply, i);
      assert p.bookmarks[i] in p.bookmarks;
      assert TitleAt(now.saved, p.bookmarks[i].url).Some?;
    }
    forall i | 0 <= i < |p.records| ensures NothingStored(p.records[i], Indexing(now, p, w, Apply).1[i]) {
      RecordPassItem(now.index, p.records, rs, Apply, i);
      assert p.records[i] in p.records;
      NothingLeft(now.index, RowAt(start.index, p.records[i].canonicalURL), p.records[i], rs[i]);
    }
  }
}
