# Agregado in Dafny

A model of the parts of Agregado that hold state or arithmetic, with proofs of what they promise.
`dafny verify dfyconfig.toml` checks everything.

| file | models |
|---|---|
| `OwnershipPlan.dfy`, `OwnershipRun.dfy` | the ownership migration: classifying legacy rows into per-URL records and Bookmarks, and carrying the plan to Karakeep and the Article Index under per-item failure |
| `OwnershipMeaning.dfy`, `OwnershipOutcome.dfy` | what a plan says of the legacy rows, and what a migration leaves behind, in terms of the rows and fields themselves |
| `DigestSelection.dfy`, `DigestWindow.dfy` | the Digest artifact: the penalised greedy selection, and one artifact per date drawn from a window that starts where the previous Digest ended |
| `SingleFlight.dfy` | the single-flight compute of the homepage digest |
| `PromptCache.dfy` | the stale-while-revalidate cache of Langfuse prompts |
| `ScoreQueue.dfy` | the bounded score queue and its shutdown |
| `PromptTemplate.dfy` | the prompt template compiler and the evaluation harness's mirror of its acceptance rule |
| `Enrichment.dfy`, `Summary.dfy`, `SummaryMeaning.dfy` | enriching an Article once per URL, and the stored Summary with its two readers |
| `Profile.dfy`, `StrayReturns.dfy`, `ModelProfile.dfy`, `StoredReturn.dfy`, `Preferences.dfy` | the preference profile: normalizing and validating it, the texts it cannot normalize at once, what the model sees of it, a text that is stored and then rejected, its version log, and the evidence it is rewritten from |
| `Sorting.dfy`, `Text.dfy`, `Counting.dfy`, `Outcomes.dfy` | stable sorting, the string operations used, sizes of sets, and how store calls end |

How the source's forms are kept. Objects that update fields are classes whose methods are proved
against functions of the old state; loops are loops with invariants. The concurrent parts
(`SingleFlight`, `PromptCache`, `ScoreQueue`, `Enrichment`) and the protocols over time
(`DigestWindow`, `Preferences`) also have a machine: states, events and a step relation built from
the same functions the methods are proved against. A run is a sequence of states and events of any
length; the theorems hold for every state of every run. A mutex's critical section, and each SQL
statement or transaction, is one step; anything between two of them can be interleaved with steps
of other callers. `ScoreQueue` models its read-write lock itself, step by step.

What comes from outside is a parameter: time is an integer, and URL validity, JSON, `strings.ToLower`,
the cleaning and splitting of content, model answers and store failures are given to the members
that use them. Where a law of such a parameter is relied on it is stated (`Summary.Lawful`: decoding
undoes encoding, only an object decodes to claims, words hold no white space). Strings are sequences
of Unicode scalar values; byte lengths are counted in UTF-8 where the source counts bytes.

## Properties that hold only under a condition

For each the condition is proved to be exact, or the failing input is exhibited.

- Conservation of Scores in a migration fails when a URL's first non-zero score is negative and a
  later one is positive: the later row counts as transformed but no record carries it
  (`OwnershipRun.RunConserves`, `OwnershipRun.MaskedScore`). With no negative score
  nothing is lost (`OwnershipRun.NonNegativeScoresConserve`).
- A dry run predicts an apply exactly when no write that the apply attempts fails
  (`OwnershipRun.DryRunPredictsApply`). A record the schema's checks refuse is such a write.
- Score order among the picks of a Digest holds for seven picks and not for eight
  (`DigestSelection.FirstSevenByScore`, `DigestSelection.EighthPickIsOutscored`).
- Windows tile when dates are asked for in order; a Digest made later for an earlier date overlaps a
  stored one exactly when some later date has overtaken it within the lookback
  (`DigestWindow.OutOfOrderOverlaps`).
- The harness accepts what Compile accepts exactly when every variable it finds is also spelled with
  Go's white space; a vertical tab tells them apart (`PromptTemplate.HarnessMirrorsCompile`,
  `PromptTemplate.ForeignSpace`). Its comment cites Go's expression as the one it
  mirrors.
- What the selection call sees starts with the partial marker exactly when the content was partial,
  but for a fetched Article that falls back to the lead extract under a title that starts with the
  marker or makes the extract decode as a Summary whose kind does (`Summary.FlattenKeepsMarker`,
  exact for all titles; `Summary.JsonTitleMisleads` builds such a title).
- A lead extract offers the sentences of its first words exactly when its title reads as a title: not
  blank, on one line, not starting with a brace, and not making the extract decode as other claims
  (`Summary.ReadsBack`, exact for all titles, the empty text included). Plain titles are safe (`Summary.PlainTitleIsSafe`); "{fmt} 11 released" shows
  nothing, and neither does the marker (`Summary.FmtReleaseShowsNothing`,
  `Summary.BracedTitleShowsNothing`, `Summary.MarkerTitleDropsText`).
- Normalizing a profile is idempotent on a text exactly when it holds no stray carriage return: one
  before blanks and a line end, with ink before and after, that is not half of that line end
  (`StrayReturns.NormalizeTwice`, `Profile.StrayCr`). Texts from Docs hold none
  (`StrayReturns.DocsDoNotStray`).
- Validate returns a stored version as it is exactly when it holds no CR LF
  (`Preferences.EveryVersionIsSound`); it may even reject it (`Preferences.StoredVersionIsRejected`).
- What the model sees of an accepted profile is again an acceptable profile exactly when it does not
  end in a bullet with no text, which happens when placeholders stood after one that holds only
  characters such as a no-break space (`ModelProfile.StrippedIsAccepted`, `ModelProfile.SampleIsLost`).

## Model

| member | source | states |
|---|---|---|
| `OwnershipPlan.Merge` | internal/ownership/plan.go:296-329 | folding one more row into a record keeps the record's meaning over the whole group: first non-empty scalars, distinct tags, earliest read, current vote |
| `OwnershipPlan.MergeTags` | internal/ownership/plan.go:311-317 | the tags after a row are the old ones followed by the row's new ones in row order, each once |
| `OwnershipPlan.FoldRow` | internal/ownership/plan.go:218-275 | after one more row in (CreatedAt, ID) order the tallies, the records, the Bookmarks and the classes seen per URL are those of all rows so far |
| `OwnershipPlan.Classify` | internal/ownership/plan.go:198-290 | the plan is the declarative one: one record per URL that any row brings an Index class to, one Bookmark per saved URL, both in URL order, and counts that say for each class how many rows carried it, had no web URL, or repeated a URL |
| `OwnershipPlan.RecordIsUnique` | internal/ownership/plan.go:296-342 | the rows of a URL decide its record completely |
| `OwnershipPlan.PlanIsUnique` | internal/ownership/plan.go:198-290 | the rows decide the plan completely, so the order in which maps are walked cannot show |
| `OwnershipPlan.ClassifyIgnoresOrder` | internal/ownership/plan.go:198-205 | for rows with distinct IDs any permutation of them gives the same plan |
| `OwnershipPlan.SavesDoNotInterfere` | internal/ownership/plan.go:168-178 | changing IsSaved and SavedAt of any rows changes no record and no count but the one of saved URLs |
| `OwnershipMeaning.RecordsHoldTheirRows` | internal/ownership/plan.go:126-143 | a row's ID is in the record of a URL exactly when the row has Article Index data and moves there: to its trimmed canonical URL if that is a web URL, else to its external one if that is, else nowhere |
| `OwnershipMeaning.BookmarksHoldTheirRows` | internal/ownership/plan.go:126-143 | and in the Bookmark of a URL exactly when the row is saved and moves there |
| `OwnershipMeaning.OldestDecides` | internal/ownership/plan.go:203-210 | title, author, summary, Score and publication date of a record are those of the oldest row of its URL that has one |
| `OwnershipMeaning.AllRowsDecide` | internal/ownership/plan.go:311-342 | its tags are those of all its rows, its Open the earliest, its vote one of theirs that none is newer than |
| `OwnershipMeaning.OldestNamesBookmark` | internal/ownership/plan.go:242-250 | a Bookmark has the title of its oldest row |
| `Text.StrLessMeans` | internal/ownership/plan.go:205-210 | strings are compared at the first character in which they differ, or where the first of them ends |
| `OwnershipMeaning.CountsAreOfRows` | internal/ownership/plan.go:148-190 | the source count of a class is the number of rows that bring it, the skipped count that of those with no web URL; Article bodies are counted and all skipped |
| `OwnershipMeaning.TransformedIsCarried` | internal/ownership/plan.go:212-275 | the transformed count of a class is the number of Bookmarks or records that carry it, for Scores exactly when none is masked, and what was brought was skipped, a duplicate or transformed |
| `OwnershipRun.IndexTable.Import` | internal/storage/ownership_repo.go:115-175 | an existing row keeps its title, summary, tags, Score, dates, and its Open and vote if it has them, and only has the gaps of the last two filled; a new row holds the record; no other row changes; what the schema refuses changes nothing, and a failing write may have landed |
| `OwnershipRun.Runner.SaveBookmarks` | internal/ownership/run.go:133-158 | after all Bookmarks the destination, the count and the failures are those of the items taken one at a time, each with its own fate |
| `OwnershipRun.Runner.ImportRecords` | internal/ownership/run.go:161-192 | the same for records, every class of a record counted by what became of it |
| `OwnershipRun.Runner.Run` | internal/ownership/run.go:110-130 | a run makes the plan of its rows, leaves the destinations as carrying it out does and reports exactly that |
| `OwnershipRun.PlanIsReady` | internal/ownership/plan.go:259-287 | no URL is twice in a plan, and nothing is counted as stored before it is carried out |
| `OwnershipRun.RunConserves` | internal/ownership/run.go:133-192 | under any failures every migrated class has Source = Skipped + Duplicate + Destination + Failed, Scores exactly when none is masked; the excluded classes have Source = Skipped |
| `OwnershipRun.NonNegativeScoresConserve` | internal/ownership/plan.go:148-166 | with no negative score no score is masked |
| `OwnershipRun.MaskedScore` | internal/ownership/plan.go:296-310 | a URL with scores -1 and then 3 has a masked score |
| `OwnershipRun.DryRunPredictsApply` | internal/ownership/run.go:133-192 | from the same state and lookups a dry run and an apply give every item the same outcome exactly when no attempted write fails |
| `OwnershipRun.ReportsAgree` | internal/ownership/run.go:133-192 | and then their reports have equal counts and failures |
| `OwnershipRun.DryRunWritesNothing` | internal/ownership/run.go:14-21 | a dry run leaves both destinations as they were |
| `OwnershipRun.RunsConverge` | internal/ownership/run.go:52-75 | any sequence of applies whose lookups and writes fail at will, then one without failures, ends where a single one without failures ends, but for timestamps the import stamps |
| `OwnershipRun.RerunIsQuiet` | internal/storage/ownership_repo.go:115-175 | after a run without failures another one, failing or not, changes nothing but stamps and reports nothing stored in any class |
| `OwnershipOutcome.SameButStampsMeans` | internal/storage/ownership_repo.go:115-175 | which in the last two rows means: the same saved URLs, the same rows with the same Enrichment, Opens and votes, and votes dated alike where the date is a legacy one |
| `OwnershipOutcome.NothingIsOverwritten` | internal/storage/ownership_repo.go:100-106 | after any sequence of applies, failing at will, every row that was there keeps its Enrichment, and its Open and vote if it had them, every other row is the record of its URL, saved URLs keep their titles and the others are Bookmarks of the plan |
| `OwnershipOutcome.CleanRunDelivers` | internal/ownership/run.go:107-130 | after a run without failures every URL of the plan is saved and every record the schema takes has a row, with its Open and vote unless the row had its own |
| `OwnershipOutcome.StoredIsGained` | internal/ownership/run.go:52-75 | an import fails exactly when a call does or the schema refuses the record, and otherwise counts a class as stored exactly when the row has gained it |
| `OwnershipOutcome.ReportIsTrue` | internal/ownership/run.go:161-192 | for each class an applied report counts as stored the records whose row gained it, and as failed the ones that failed |
| `OwnershipOutcome.BookmarkReportIsTrue` | internal/ownership/run.go:133-159 | and for saved URLs the Bookmarks created, and the ones that failed |
| `OwnershipOutcome.FailuresListed` | internal/ownership/run.go:77-84 | the failures of a report are those of its items, each with its URL, its reason and the classes it strands |
| `DigestSelection.ValueIs` | internal/digestartifact/service.go:289-296 | an Article is worth 100 times its Score, less 10 for each earlier pick of its source, less 5 for each time an earlier pick has one of its topics |
| `DigestSelection.PickBest` | internal/digestartifact/service.go:289-300 | the pick is the first of the remaining Articles of greatest value, the value being Score*100 less 10 for each earlier pick of the source and 5 for each of a topic |
| `DigestSelection.Diverse` | internal/digestartifact/service.go:281-306 | the output is a greedy run: every pick the best of what its predecessors left, until the limit or the end |
| `DigestSelection.GreedyIsUnique` | internal/digestartifact/service.go:281-306 | there is one greedy run of a list |
| `DigestSelection.GreedySelects` | internal/digestartifact/service.go:281-306 | a greedy run selects without repetition, as many as fit |
| `DigestSelection.PickMaximises` | internal/digestartifact/service.go:287-300 | every pick is worth at least as much as anything not yet picked |
| `DigestSelection.PickOutscores` | internal/digestartifact/service.go:287-300 | with at most t topics an Article, no unpicked one outscores pick k while the largest penalty of k earlier picks stays under 100 |
| `DigestSelection.FirstSevenByScore` | internal/digestartifact/service.go:287-300 | with at most one topic, the first seven picks are in non-increasing Score order and nothing unpicked outscores any of them |
| `DigestSelection.EighthPickIsOutscored` | internal/digestartifact/service.go:287-300 | seven is the most: eight Articles of one source and topic and an outsider scored one less break the order at the eighth pick |
| `DigestSelection.TiesGoByScore` | internal/digestartifact/service.go:259-300 | from a list in Score order, of Articles worth the same the higher Score is picked first |
| `DigestSelection.PreparedPicks` | internal/digestartifact/service.go:249-277 | of the unique Articles that pass the floor and are not yet picked, a pick is worth the most, and of those worth the same it has the highest Score |
| `DigestSelection.UniqueKeepsFirsts` | internal/digestartifact/service.go:250-258 | deduplicating keeps exactly the first Article of every non-empty URL |
| `DigestSelection.UniqueAndDiverse` | internal/digestartifact/service.go:249-277 | the candidates are greedy picks of the passing side, then exploration picks of the other when fewer than three passed, with the totals of both |
| `DigestSelection.CandidateLaw` | internal/digestartifact/service.go:249-277 | with p = min(passed, max): p passing picks, then min(total - passed, 3 - p) exploration picks when p < 3 and none otherwise; Exploration set exactly below the floor; URLs distinct and non-empty |
| `DigestSelection.ChooseItems` | internal/digestartifact/service.go:196-206 | the items are the candidates the answer names |
| `DigestSelection.ChosenLaw` | internal/digestartifact/service.go:196-206 | for any answer they are a subsequence of the candidates, exactly those named, in candidate order |
| `DigestWindow.Configure` | internal/digestartifact/service.go:110-128 | the floor is the given one, or three when that is not positive; the size is the given one, or ten when that is not between one and ten |
| `DigestWindow.Store.Since` | internal/storage/digest_artifact_repo.go:21-34 | the window starts at the latest end among the Digests of earlier dates, or 72 hours back if that is later |
| `DigestWindow.Store.Candidates` | internal/storage/digest_artifact_repo.go:21-48 | the pool is the Articles enriched in the half-open window, each once, best score first and of equal scores the newest first |
| `DigestWindow.Store.Save` | internal/storage/digest_artifact_repo.go:68-81 | an artifact is inserted only when its date has none, and the stored one is returned |
| `DigestWindow.Service.ForDate` | internal/digestartifact/service.go:132-223 | a stored Digest is served unchanged; otherwise one is computed from the window, and persisted exactly when the model answered and an item was chosen |
| `DigestWindow.ResultAnswers` | internal/digestartifact/service.go:132-223 | for a date not stored a Digest is created exactly when the model answered and named a candidate, holding the candidates it named; it fails exactly when there were candidates and no answer; only a created Digest is stored, and no other date is touched |
| `DigestWindow.WindowsTile` | internal/digestartifact/service.go:165-223 | over any run with dates and clock in order every window starts at or after every earlier end, and consecutive ones abut exactly when at most 72 hours separate the one's end from the other's computation |
| `DigestWindow.NoArticleTwice` | internal/storage/article_index_repo.go:53-63 | no Article is in the pools, nor among the items, of two Digests of a run |
| `DigestWindow.NoArticleSkipped` | internal/storage/digest_artifact_repo.go:21-48 | an Article enriched within abutting windows is in the pool of exactly one |
| `DigestWindow.RunSkipsNothing` | internal/digestartifact/service.go:165-223 | so between the Digests of an unbroken stretch of a run, with empty ones unpersisted in between, every Article reaches exactly one pool |
| `DigestWindow.OutOfOrderOverlaps` | internal/storage/digest_artifact_repo.go:21-34 | over any stored Digests the window of a date not yet stored overlaps a stored window exactly when a later date ended within the last 72 hours and after every earlier date |
| `SingleFlight.Scheduler.Enter` | internal/digest/scheduler.go:113-128 | under the lock a call is served the copy of its date, or joins the compute in flight, or starts one |
| `SingleFlight.Scheduler.Publish` | internal/digest/scheduler.go:132-138 | a compute that succeeded replaces the copy and its date, one that failed leaves them, and either ends the flight |
| `SingleFlight.AtMostOneCompute` | internal/digest/scheduler.go:113-142 | in any interleaving at most one call computes, and its channel is the one in flight |
| `SingleFlight.InFlightIsComputing` | internal/digest/scheduler.go:27-34 | and whatever is in flight is being computed by some call |
| `SingleFlight.EachChannelClosesOnce` | internal/digest/scheduler.go:126-140 | no channel is closed twice, and the call that made one has closed it when it returns |
| `SingleFlight.EveryWaiterWakes` | internal/digest/scheduler.go:120-125 | what a waiter waits on is closed or belongs to a call that has yet to close it |
| `SingleFlight.NeverStuck` | internal/digest/scheduler.go:113-142 | while a call has not returned some call can take a step |
| `SingleFlight.OneComputePerCall` | internal/digest/scheduler.go:113-142 | a call starts at most one compute, however often it looks again |
| `SingleFlight.EveryRunEnds` | internal/digest/scheduler.go:113-142 | with n calls, background ones included, at most n computes are started, no call waits more often than computes are started, and a run is over within n(2n + 5) events |
| `SingleFlight.AnswersAreOfTheDay` | internal/digest/scheduler.go:113-142 | a digest returned to a call was computed by a call for the same date |
| `SingleFlight.NoComputeWasted` | internal/digest/scheduler.go:107-112 | among calls for one date every compute after the first is paid for by a failed one or a Refresh |
| `SingleFlight.ColdLookupComputes` | internal/digest/scheduler.go:72-93 | a TodayOrTrigger returns the copy of its date if there was one when it looked; if a compute was in flight it returns nothing and makes no call; otherwise it makes a background call before it returns nothing |
| `SingleFlight.BackgroundIsOfTheDay` | internal/digest/scheduler.go:72-93 | that call is its only one, for its date, and starts where Today does |
| `SingleFlight.OwnAnswer` | internal/digest/scheduler.go:126-141 | a call that made a channel returns what its own compute came to |
| `SingleFlight.NothingMeansFailed` | internal/digest/scheduler.go:113-142 | Today, Refresh and a background call return nothing only when their own compute failed |
| `SingleFlight.RefreshIsFresh` | internal/digest/scheduler.go:95-106 | what Refresh returns was published, for its date, after it dropped the copy |
| `PromptCache.Prompts.Template` | internal/langfuse/prompts.go:89-103 | the cached copy is served as it is, and a fetch is started when the last one completed a TTL ago or never and none is out |
| `PromptCache.Prompts.Warm` | internal/langfuse/prompts.go:107-118 | for each name in turn a fetch is started when there is no copy and none is out |
| `PromptCache.Prompts.Store` | internal/langfuse/prompts.go:149-161 | a completed fetch stamps the entry, and replaces the copy only if it succeeded |
| `PromptCache.OneFetchPerName` | internal/langfuse/prompts.go:132-161 | in any interleaving a name is marked refreshing exactly while one fetch of it is out, never two, and a fetch that stores finds its entry |
| `PromptCache.ServesLastGood` | internal/langfuse/prompts.go:89-103 | what is served is the last fetch that succeeded, an error only when none has |
| `PromptCache.NeverReverts` | internal/langfuse/prompts.go:147-161 | a name once served is always served |
| `PromptCache.StartsAfterTTL` | internal/langfuse/prompts.go:34-41 | a fetch Template starts begins a TTL or more after any fetch of the name completed, failed ones included |
| `PromptCache.StaleIsRefreshed` | internal/langfuse/prompts.go:89-99 | after Template a fetch of the name is out unless the last one completed less than a TTL ago |
| `PromptCache.WarmWarms` | internal/langfuse/prompts.go:105-118 | after Warm every name given is served or being fetched |
| `PromptCache.FewFetches` | internal/langfuse/prompts.go:34-41 | a span of time holds at most floor(span / TTL) + 1 fetches started by Template |
| `ScoreQueue.Scores.Emit` | internal/langfuse/scores.go:85-101 | an Emit nobody disturbs takes the machine's steps to its end; the score is accepted exactly when the sink is open and the buffer has room, and then queued last |
| `ScoreQueue.Scores.Run` | internal/langfuse/scores.go:124-135 | on a closed queue the loop ends where the machine's worker does when it takes every step it can |
| `ScoreQueue.Scores.Shutdown` | internal/langfuse/scores.go:103-122 | the queue is closed under the lock; nil once the worker is gone, with what was queued posted unless an earlier Shutdown gave up; otherwise the worker is told to drop what is left, and nothing is posted |
| `ScoreQueue.WorkerDrains` | internal/langfuse/scores.go:124-135 | those steps post everything queued, in order, or nothing of it when Shutdown has given up, and leave the worker gone |
| `ScoreQueue.NoSendOnClosed` | internal/langfuse/scores.go:85-113 | in any interleaving nothing is sent on the closed queue, it is closed once, and it never holds more than its capacity |
| `ScoreQueue.FirstInFirstOut` | internal/langfuse/scores.go:124-135 | the accepted scores are those done with, the one in hand and those queued, in order, and the posted ones are a first part of them |
| `ScoreQueue.YesIsAccepted` | internal/langfuse/scores.go:85-101 | an Emit returns nil exactly when its score was accepted, and it was accepted once |
| `ScoreQueue.CleanShutdown` | internal/langfuse/scores.go:103-122 | a Shutdown that returns nil, when none gave up, has seen every accepted score posted once, in order |
| `ScoreQueue.AcceptedIsFinal` | internal/langfuse/scores.go:105-113 | once the queue is closed nothing more is ever accepted |
| `ScoreQueue.PastMeansClosed` | internal/langfuse/scores.go:105-115 | a Shutdown past its critical section has the queue closed |
| `ScoreQueue.RefusedMeans` | internal/langfuse/scores.go:91-100 | an Emit is refused only when the sink is closed or the buffer full |
| `ScoreQueue.GivingUpStopsPosting` | internal/langfuse/scores.go:115-131 | once a Shutdown has given up nothing more is posted than what the worker was posting then |
| `ScoreQueue.WorkerFinishes` | internal/langfuse/scores.go:124-135 | from then on the worker can always move until it is gone, and is within 3 * capacity + 5 steps of its own |
| `PromptTemplate.ClassesAre` | evals/agregado_evals/contract.py:15-17 | the characters of the two white spaces, of names and of digits, one by one |
| `PromptTemplate.SpelledIsMatched` | internal/ai/template.go:81 | the expression matches a text in one way at most, the one the scanner finds |
| `PromptTemplate.MatchIsSpelled` | internal/ai/template.go:81 | and what the scanner finds is a match of the expression |
| `PromptTemplate.ScanIsLeftmost` | internal/ai/template.go:91-101 | the scan cuts a template into literals and leftmost, non-overlapping variables and loses nothing |
| `PromptTemplate.LeftmostIsScan` | internal/ai/template.go:91-101 | and there is no other such cut |
| `PromptTemplate.CompileMessage` | internal/ai/template.go:91-101 | a message is its own literals with each variable replaced once by its value; the used and the undefined names are collected in order |
| `PromptTemplate.RenderedMeans` | internal/ai/template.go:91-101 | a variable at the start of a message gives its value, which is not looked at again, or stays and is listed as undefined; any other character gives itself; then the rest |
| `PromptTemplate.Compile` | internal/ai/template.go:83-116 | a prompt compiles exactly when the names in both messages are the names given, whatever the values; otherwise the error lists the undefined names in order of use and the unused ones sorted |
| `PromptTemplate.CompleteTemplate` | internal/ai/template.go:136-160 | the managed prompt is used when it compiles, else the in-code default; a managed prompt never makes the call fail |
| `PromptTemplate.CheckPrompt` | evals/agregado_evals/contract.py:24-44 | the harness accepts exactly a system and a user message that use the given variables, and otherwise names those that differ |
| `PromptTemplate.GoScanIsRelit` | internal/ai/template.go:79-81 | on any text Go finds what Python finds, except the variables spelled with white space only Python knows |
| `PromptTemplate.HarnessMirrorsCompile` | evals/agregado_evals/contract.py:15-44 | the two accept the same variables for a prompt exactly when each variable Python finds is also spelled with Go's white space |
| `PromptTemplate.SameOnPlainText` | evals/agregado_evals/contract.py:15-44 | on prompts whose white space is Go's they read the same variables in the same places, and accept alike |
| `PromptTemplate.ForeignSpace` | evals/agregado_evals/contract.py:17 | a variable spelled with any such character is accepted by the harness and plain text to Compile |
| `Summary.NonEmpty` | internal/articleindex/summary.go:58-66 | the first values that are not blank, trimmed, up to the limit |
| `Summary.NormalizeSummary` | internal/articleindex/summary.go:34-56 | an answer is re-encoded with the claims, entities and kind it is worth, or refused |
| `Summary.StructureIsUsable` | internal/articleindex/summary.go:34-56 | what is stored as structured has one to three claims and at most six entities, none blank, all trimmed, and a known kind |
| `SummaryMeaning.AnswerIsBraced` | internal/articleindex/summary.go:34-42 | an answer is read from its first brace to its last |
| `SummaryMeaning.UnbracedIsNoAnswer` | internal/articleindex/summary.go:35-38 | and not at all when it lacks either |
| `SummaryMeaning.UsableExactly` | internal/articleindex/summary.go:34-66 | it is usable exactly when that decodes and has a claim that is not blank; then the first three claims and six entities that are not blank are kept, trimmed and in order, with the kind if it is a known one |
| `SummaryMeaning.LeadIsFirstWords` | internal/articleindex/summary.go:68-82 | the text of a lead extract is the first 150 words of the content with single blanks between |
| `Summary.Summarize` | internal/articleindex/service.go:251-271 | every answer, failed ones included, yields a Summary: the structured one if usable, else the lead extract, marked when the content was partial |
| `Summary.FlattenKeepsMarker` | internal/ai/cloudflare.go:408-431 | for every answer, content and title, what the selection call sees starts with the marker exactly when the content was partial, except for a fetched lead extract whose title looks partial |
| `Summary.JsonTitleMisleads` | internal/ai/cloudflare.go:412-431 | a title that is the JSON of a Summary whose kind is the marker makes a fetched Article without words show as partial |
| `SummaryMeaning.FlattenShowsAll` | internal/ai/cloudflare.go:408-431 | what the selection call sees of a structured Summary starts with its kind, after the marker when the content was partial, and shows every claim and entity |
| `Summary.Sentences` | internal/digestartifact/claims.go:55-70 | a text is cut after terminal punctuation before a blank, a newline or the end, there and nowhere else |
| `Summary.SplitConcats` | internal/digestartifact/claims.go:55-70 | the sentences put together are the text |
| `Summary.SplitIsUnique` | internal/digestartifact/claims.go:55-70 | there is one such cut |
| `SummaryMeaning.SplitMeans` | internal/digestartifact/claims.go:55-70 | the sentences of a text are the pieces it is made of, none empty, with a full stop, exclamation or question mark and then a blank or newline between any two of them and nowhere inside one |
| `Summary.Claims` | internal/digestartifact/claims.go:18-43 | the first two candidates, trimmed, that are neither blank nor about truncation |
| `SummaryMeaning.ShownAreFirst` | internal/digestartifact/claims.go:34-42 | they stand in the candidates in that order, and no fit candidate before the last of them is passed over |
| `SummaryMeaning.FitMeans` | internal/digestartifact/claims.go:45-53 | a candidate is fit when it is not blank and neither "truncated" nor "stub" stands in it, whatever the case |
| `Summary.ReadsBack` | internal/digestartifact/claims.go:18-43 | the candidates of a stored structured Summary are its own claims; of a lead extract they are the sentences of the first 150 words exactly when its title reads as a title |
| `Summary.PlainTitleIsSafe` | internal/digestartifact/claims.go:18-43 | a title on one line, not blank, with no brace in front and not starting with the marker reads back and does not look partial |
| `Summary.BracedTitleShowsNothing` | internal/digestartifact/claims.go:29-31 | under a title that starts with a brace and then neither white space nor a quote nothing is shown |
| `Summary.FmtReleaseShowsNothing` | internal/digestartifact/claims.go:29-31 | the title "{fmt} 11 released" is such a one |
| `Summary.MarkerTitleDropsText` | internal/digestartifact/claims.go:21-35 | a title that is the marker itself takes the text down with it |
| `Enrichment.IndexTable.Create` | internal/storage/article_index_repo.go:20-51 | the row of a new URL is inserted processing and claimed; an existing one is returned unchanged; an insert whose reply is lost leaves an unclaimed processing row |
| `Enrichment.Judge` | internal/articleindex/service.go:221-279 | an Article is enriched exactly when content, preferences, category and a score of one to five are all there |
| `Enrichment.ContentIsFirst` | internal/articleindex/service.go:185-219 | the content is the first of Bridge content, page and feed that is not blank, trimmed, and partial when it is the feed's; there is none exactly when all are blank |
| `Enrichment.EnrichedSays` | internal/articleindex/service.go:221-249 | an enriched Article has the category and Score of the answers and the Summary stored for its content |
| `Enrichment.ReasonIsOfTheLast` | internal/articleindex/service.go:221-279 | a rejected one is told the error of the call that rejected it |
| `Enrichment.Service.Enrich` | internal/articleindex/service.go:187-271 | page (only without Bridge content), preferences, Summary, category and Score are asked for in that order, up to the first answer that rejects the Article, which is then rejected, or to the end |
| `Enrichment.Service.Process` | internal/articleindex/service.go:142-171 | only the request that creates the row asks anything of the outside, and the table then holds what the answers amount to; an insert whose reply is lost leaves a blank row, and any other request leaves the table alone |
| `Enrichment.ProcessSettles` | internal/articleindex/service.go:142-171 | such a request leaves every other row as it was, and in its own what was decided, or nothing when the save is dropped |
| `Enrichment.ClaimedOnce` | internal/storage/article_index_repo.go:20-33 | in any interleaving a URL is claimed by one request |
| `Enrichment.AskedAtMostOnce` | internal/articleindex/service.go:142-171 | at most one fetch and three model calls are made for a URL over the whole run, and none for a URL that was there before |
| `Enrichment.RowIsJudged` | internal/articleindex/service.go:221-279 | a claimed row is blank or says what the answers its claimant heard amount to; complete, it has a Score of one to five, one tag and a Summary |
| `Enrichment.NothingIsSkipped` | internal/articleindex/service.go:221-249 | in any interleaving a request that saves a verdict has asked the whole script, or up to the first answer that rejects the Article, and one that asked anything has gone that far when it is done |
| `Enrichment.AnswersAreKept` | internal/articleindex/service.go:221-249 | what it goes by is what it was told when it asked |
| `Enrichment.InsertDecides` | internal/storage/article_index_repo.go:20-51 | a request that finds no row of its URL makes one with its metadata, unless its insert is dropped, and goes on to ask when it hears of it; any other asks nothing |
| `Enrichment.SaveSettles` | internal/storage/article_index_repo.go:53-68 | a save that lands leaves the row saying what was decided, stamped when it is complete |
| `Enrichment.RowIsFinal` | internal/storage/article_index_repo.go:53-68 | a row nobody is at work on, complete, failed, older or left processing, never changes again but for its first Open |
| `Enrichment.SettledIsFinal` | internal/storage/article_index_repo.go:53-68 | a row that is not processing is such a row |
| `Enrichment.RowsAppearBlank` | internal/storage/article_index_repo.go:20-33 | rows appear processing and claimed, and none disappears |
| `Enrichment.FirstOpenStays` | internal/storage/article_index_repo.go:70-88 | the time of the first Open never changes |
| `Enrichment.OpenIsKept` | internal/storage/article_index_repo.go:70-88 | after an Open the row has its first one |
| `Profile.Normalize` | internal/preferences/profile.go:28-37 | line endings made LF, blanks dropped from the end of every line, the text trimmed and its last line ended |
| `Profile.NormalizedIsClean` | internal/preferences/profile.go:28-37 | the result is trimmed, has no blank at the end of a line and ends its last one |
| `StrayReturns.NormalizedHasCrlf` | internal/preferences/profile.go:28-37 | the result holds a CR LF exactly when the text holds a stray carriage return |
| `StrayReturns.NormalizeTwice` | internal/preferences/profile.go:28-37 | normalizing twice is normalizing once exactly when the text holds no stray carriage return |
| `Profile.DocsAreFixed` | internal/preferences/profile.go:28-37 | that is so for every text in which each CR is followed by LF |
| `Profile.StrayCr` | internal/preferences/profile.go:31-37 | between any two words CR CR LF breaks it |
| `Profile.Validate` | internal/preferences/profile.go:39-83 | the line-by-line reading decides, with the first problem met as the error |
| `Profile.TitleMeans` | internal/preferences/profile.go:48-50 | the title is read in either case, and its last letter also as a long s |
| `Profile.BytesMean` | internal/preferences/profile.go:43-45 | the size of a text is that of its UTF-8 form |
| `Profile.ReadingMeans` | internal/preferences/profile.go:52-76 | the reading gets through exactly when every line fits where it stands: known headings, each once, bullets and blank lines in sections, free text before them, no other heading and no table |
| `Profile.StuckAtFirst` | internal/preferences/profile.go:52-76 | otherwise the problem is the first line that does not, by its number |
| `Profile.AcceptedMeans` | internal/preferences/profile.go:39-83 | a text is accepted exactly when it has at most 8192 bytes, starts with the title, every line fits and every section is there |
| `ModelProfile.ForModel` | internal/preferences/profile.go:85-96 | the text without its placeholder bullets, line by line |
| `ModelProfile.StrippedIsFixed` | internal/preferences/profile.go:85-96 | stripping any text twice is stripping it once |
| `ModelProfile.StrippedIsAccepted` | internal/preferences/profile.go:85-96 | what is left of an accepted profile is acceptable exactly when it does not end in a textless bullet |
| `ModelProfile.SampleIsLost` | internal/preferences/profile.go:85-96 | a profile that is accepted and whose remainder is not |
| `Preferences.BoundSignals` | internal/preferences/service.go:119-137 | the evidence kept is the strongest 300 in order of strength, of equally strong Signals the first in their order, and with what is dropped it makes up the evidence |
| `Preferences.BestIsUnique` | internal/preferences/service.go:121-137 | there is one such choice |
| `Preferences.BestIsStrongest` | internal/preferences/service.go:37-40 | nothing dropped is stronger than anything kept: while a vote is dropped only votes are kept, and of the Opens the newest |
| `Preferences.Store.Save` | internal/storage/preference_profile_repo.go:26-37 | a version is appended unless it equals the newest |
| `Preferences.Service.ReplaceProfile` | internal/preferences/service.go:71-78 | a text that validates is offered to the store, one that does not leaves the log alone |
| `Preferences.Service.RegenerateProfile` | internal/preferences/service.go:86-117 | without a profile, evidence, an answer or a valid rewrite the log stays as it was; otherwise the rewrite is offered to the store |
| `Preferences.EveryVersionIsSound` | internal/preferences/service.go:71-117 | over any run every stored version passes the checks made after normalizing, Validate returns it as it is exactly when it holds no CR LF, and no two in a row are equal |
| `Preferences.StoredVersionIsRejected` | internal/preferences/service.go:71-78 | a text that is accepted and stored, and whose stored form Validate rejects |
| `StoredReturn.StoredReturnIsRejected` | internal/preferences/profile.go:28-83 | that text normalizes to one with a bullet of a dash and one return, and again to one with a bare dash, which is no bullet |
| `Preferences.EveryVersionIsFixed` | internal/preferences/service.go:71-117 | with texts that hold no stray carriage return every stored version is a fixed point of Validate |
| `Preferences.VersionsStay` | internal/storage/preference_profile_repo.go:10-37 | the log is only ever appended to |
| `Preferences.OfferedIsNewest` | internal/preferences/service.go:71-117 | a valid text offered without a failure is the newest version, appended unless it was so already; a regeneration offers the rewrite when there is a profile, evidence and an answer |
| `Preferences.HandingBack` | internal/preferences/service.go:71-78 | handing the stored profile back adds nothing exactly when it holds no CR LF or is not accepted without it |

## Left out

- The ranker of the older digest (`internal/digest/ranker.go`): grouping and two comparators, easy members.
- Which report items are sampled, and how reports, Digests and prompts are rendered: presentation.
- HTML and Markdown cleaning, URL parsing, JSON, lower-casing: parameters of the members that use them.
- Selection answers before they are a list of IDs (`extractJSON`, `decodeSelection`) and `parseScore`: text munging around JSON.
- `DefaultTemplate` and the in-code texts: the default prompt is a parameter of `CompleteTemplate`.
- Spans, scores emitted by the Digest and Enrichment, logging, HTTP handlers, scheduling, mail.
- Records, Bookmarks and cache entries sit in maps as values that are replaced, where the source updates them through pointers: aliasing between entries is not modelled.
- Channels are numbers with a log of those closed; a receive is a step that needs its channel closed.
- Go's writer preference in the read-write lock: the model lets a reader in whenever no writer holds the lock, which only adds interleavings.
- The value a compute returns is arbitrary; that it reads the articles of the moment it runs is not modelled.
- Store errors inside `ForDate`, and two calls of it at once: the model runs them one at a time.
- ScoreQueue.Scores.Emit: no worker is waiting on the other side, so a queue without a buffer takes nothing; the machine has both outcomes.
- Invalid UTF-8, and lookups of a row deleted meanwhile.
- DigestWindow.NoArticleTwice: for Digests the run itself created; ones stored before the run may lack a window.
