# CodeLens, modelled and verified

CodeLens reviews pushes and pull requests with an LLM. Its Celery workers share rows in Postgres and a
Redis stream, reuse results through a content-hash cache, and publish each unit (a commit or pull-request
head) once to GitHub. This project models that system in Dafny and proves what it keeps.

`dafny verify dfyconfig.toml` checks everything. The modules follow the program:

| module | models |
|---|---|
| `Rows`, `Text`, `Sorting` | shared rows and values; Python's string and sorting operations |
| `CacheService` | the transactions of the cache, as methods on the rows and as functions the protocol uses |
| `Protocol` | the whole claim / follow / complete / fail / publish protocol as a state machine: one committed transaction is one step, `attach_review` is two under a share lock, every task may crash and be redelivered or end by an exception nobody catches, stale owners keep writing by id |
| `Structure`, `OneCall`, `FollowerCoherence`, `PublishOnce`, `NoLostPublication`, `NoReviewForgotten`, `LiveLeases`, `NeverPartial`, `Retries` | what every run of that machine keeps |
| `OwnerRun`, `WithoutTheLock`, `FailedAnnouncement` | runs that reach what it does not keep |
| `StreamLog`, `StreamClient`, `LiveStream`, `ClosingScreens` | the worker's log, the browser's fold, the run of worker, server, connection and browser together, and how the screen ends |
| `Diff`, `Windows`, `ChangedChunks` | the two diff scanners, the window algebra, changed lines to chunks |
| `ChromaStore`, `IndexTasks`, `IndexChunks` | the index as a map, full rebuild and incremental update, a whole file to chunks |
| `Findings`, `FindingPatterns`, `FindingPlaces`, `FindingForms` | the findings parser, the texts each of its patterns accepts, and the documents it reads back |
| `Report`, `Publisher`, `Prompt`, `CacheKeys` | placing findings, posting them, packing the prompt, encoding the key |

The transactions of the protocol are proved twice over: the methods of `CacheService.ReviewCache` change rows
in place and are equal to the `...Tx` functions, and the steps of `Protocol` use those functions.

## Where the code does less than it says

- **A unit can be lost.** The comment in `review_commit` (`app/tasks/review_tasks.py:288-289`) relies on redelivery
  to enqueue reviews inserted before a crash. If the redelivered task then gives up listing the files
  (`app/tasks/review_tasks.py:255-261`), nothing is enqueued: `NoLostPublication.AUnitCanBeLost` is such a run.
  An exception that no handler catches ends a task too, and its message is acknowledged (`app/celery_app.py:24-27`):
  `NoLostPublication.ASkippedUnitCanBeLost` is a run without crash or abandoned listing in which every file was
  skipped and creating the check run raises. `NoLostPublication.NextLosesNone` says that a step loses a waiting unit
  exactly when it drops the unit's last trigger in one of these two ways. Reviews that `review_commit` had not yet
  enqueued when an exception ended it stay PENDING, and their unit never becomes ready.
- **A finished result can become FAILED.** If announcing `done` raises after `complete` has committed, `fail` runs on the
  finished result (`app/review/pipeline.py:237-252`). `NeverPartial.WholeUnlessAnnouncingFails` shows this is the only way
  timely owners can spoil a result, `FailedAnnouncement.AFinishedResultCanFail` is such a run, and in
  `LiveStream.ACompleteScreenCanBeWrong` a browser then shows as complete what the database has failed.
- **Following depends on the share lock.** `WithoutTheLock.FollowersCanBeLeftBehind` reaches the violating state without it.
- **A file list can hide a file from the index.** If a commit lists a file at a path and then a rename away from that path,
  the update drops the file. `IndexTasks.UpdateIsRebuild` gives the exact condition, `IndexTasks.RenamedAndReplaced` an
  instance. Git reports such a list only when it breaks rewrites; the local source does not ask it to
  (`app/sources/local_git.py:68-73`), and whether GitHub's API ever answers with one is not known.
- **A rebuild can keep outdated chunks.** A failure to drop the old collection is suppressed (`app/rag/chroma_store.py:82-84`);
  `IndexTasks.IndexRepo` says exactly when the READY index is then right.
- **A retried publish can post a long review twice, and its fallback may drop comments.** A call that raises may have been
  carried out all the same: a lost connection or a 5xx answer to the review's POST is a retryable error
  (`app/github/client.py:103-111,148-149`), and `publish_unit` then tries all of `finish` again
  (`app/tasks/publish_tasks.py:145-158`). The retry recognises the review by its marker, which a body that was cut has lost
  (`Publisher.MarkerSurvives`, `Publisher.RetriedReportPostsOnce`, `Publisher.FallbackKeepsComments`);
  `Publisher.ALongReportIsPostedTwice` and `Publisher.ALongReportLosesItsComments` are a report of one long finding. A
  publish that succeeded or crashed is not repeated: its unit stays PUBLISHING or PUBLISHED.
- **A retried publish repeats annotations, or makes a second check run.** `Publisher.RetryRepeatsAnnotations` and
  `Publisher.RetryMakesASecondRun` say exactly when, wherever the earlier attempts raised. One annotation and a review whose
  POST fails are enough: `Publisher.OneAnnotationIsRepeated`.
- **A whole patch can be reported as cut.** The length shown is compared with the patch before redaction
  (`app/review/prompt.py:135`): `Prompt.CutPatchIsReported` has the condition, `Prompt.AWholePatchIsReportedCut` an input.

## Model

| member | source | states |
|---|---|---|
| `CacheService.ReviewCache.ClaimResult` | app/cache/service.py:46-100 | a claim owns the result if and only if there is no row, or it FAILED, or it is PENDING or STREAMING with an expired lease; the owner gets the next attempt (1 for a new row) on an empty PENDING row, anybody else the row as it is |
| `CacheService.ReviewCache.AttachReview` | app/cache/service.py:103-128 | in terms of the rows: the status a review takes from the result it attaches to, as owner or follower, and that nothing else changes |
| `CacheService.ReviewCache.MarkStreaming` | app/cache/service.py:131-138 | the result by id, whatever its attempt, and every attached review not skipped become STREAMING |
| `CacheService.ReviewCache.RefreshLease` | app/cache/service.py:141-145 | only `claimed_at` moves |
| `CacheService.ReviewCache.Complete` | app/cache/service.py:148-173 | the text is stored and every attached review not skipped completes |
| `CacheService.ReviewCache.Fail` | app/cache/service.py:176-196 | the result fails by id; attached reviews that were not terminal fail only if the failure is final |
| `CacheService.ReviewCache.SyncFollowers` | app/cache/service.py:199-205 | exactly the attached, not skipped reviews change status |
| `CacheService.ReviewCache.MarkReviewFailed` | app/review/pipeline.py:72-80 | a review that is not complete, skipped or failed already becomes FAILED, and nothing else changes |
| `CacheService.ReviewCache.Skip` | app/review/pipeline.py:62-69 | the review becomes SKIPPED, and nothing else changes |
| `Structure.ClaimIsDecidedByTheRow` | app/cache/service.py:46-100 | the same decision at the claim step of every run: what the row, its lease and its attempts say, and the row afterwards |
| `Structure.NextKeepsStructure` | app/review/pipeline.py:99-257 | every step keeps keys, attachments, attempts and claims consistent with each task's program counter |
| `Structure.RunIsStructured` | app/review/pipeline.py:99-257 | the same in every reachable state |
| `Structure.OwnerClaimsAreNumbered` | app/cache/service.py:46-100 | in every run the owner claims of a key carry attempts 1..n, each once and in order, n being the row's `attempts` |
| `Structure.OneOwnerClaimPerKey` | app/cache/service.py:46-100 | with no failure and no expired lease, any number of claims of a key yields exactly one owner, with attempt 1 |
| `OneCall.NextKeepsCalls` | app/review/pipeline.py:196-230 | every step keeps it known which attempts have started their token loop |
| `OneCall.OneCallPerAttempt` | app/review/pipeline.py:196-230 | in every run each attempt calls the model at most once |
| `OneCall.OnlyOwnersGenerate` | app/review/pipeline.py:146-171 | once attached every owner calls the model and nobody else does; a follower of a failed result raises a retryable error |
| `OneCall.OneCallPerKey` | app/cache/service.py:46-100 | with no failure and no expired lease the model is called at most once for a key, by its first attempt |
| `FollowerCoherence.NextKeepsCoherent` | app/cache/service.py:103-128 | every step, by stale owners too, keeps reviews attached to a complete result complete or skipped |
| `FollowerCoherence.RunIsCoherent` | app/cache/service.py:103-128 | the same in every run that holds the share lock |
| `WithoutTheLock.FollowersCanBeLeftBehind` | app/cache/service.py:106-116 | without the share lock a violating state is reachable |
| `PublishOnce.NextKeepsOnce` | app/tasks/publish_tasks.py:112-173 | every step keeps at most one flight per unit and at most one successful `finish` |
| `PublishOnce.RunPublishesOnce` | app/tasks/publish_tasks.py:112-173 | the same in every run, with crashes, retries and concurrent triggers |
| `PublishOnce.FlightStartsWithClaim` | app/tasks/publish_tasks.py:112-133 | a task comes to publish a unit only by the guarded claim, from a PENDING unit all of whose reviews are COMPLETE, FAILED or SKIPPED |
| `PublishOnce.ClaimTakesReadyUnits` | app/tasks/publish_tasks.py:115-133 | the converse: the guarded claim takes every such unit, or marks it SKIPPED when publishing is disabled |
| `PublishOnce.FlightBeganReady` | app/tasks/publish_tasks.py:112-173 | whoever is publishing claimed the unit when it was ready and has held the claim since |
| `NoLostPublication.NextLosesNone` | app/tasks/publish_tasks.py:69-88 | a step keeps a task bound to publish every waiting unit, even when another unit's owner completed its last review, if and only if it does not drop the last such task |
| `NoLostPublication.RunLosesNone` | app/tasks/publish_tasks.py:69-160 | no publication is lost in any run that never drops a last trigger, by giving a listing up or by an exception nobody catches |
| `NoLostPublication.AbandoningLosesTheLastTrigger` | app/tasks/review_tasks.py:255-305 | dropping a task, either way, loses nothing if and only if every waiting unit it would have published has another task bound to publish it |
| `NoLostPublication.AUnitCanBeLost` | app/tasks/review_tasks.py:255-305 | a run in which a unit ends waiting with no trigger: a crash, a redelivery, and a listing given up |
| `NoLostPublication.ASkippedUnitCanBeLost` | app/tasks/review_tasks.py:301-303 | another, with no crash and no listing given up: creating the check run raises |
| `NoReviewForgotten.NextForgetsNone` | app/tasks/review_tasks.py:288-305 | no step loses the task bound to start a PENDING review, unless a task is given up or ended by an exception nobody catches |
| `NoReviewForgotten.RunForgetsNone` | app/tasks/review_tasks.py:288-305 | in every run without such an end each PENDING review has a task that will start it, crashes and redeliveries included |
| `LiveLeases.LiveLeaseHolds` | app/cache/service.py:65-86 | a live owner's lease has not expired and its row cannot be taken over |
| `LiveLeases.NextKeepsInPlace` | app/review/pipeline.py:196-230 | every step of a timely run keeps the row in its live owner's hands |
| `LiveLeases.RunKeepsOwnersInPlace` | app/review/pipeline.py:196-230 | the same in every timely run |
| `LiveLeases.LiveOwnerIsNotDispossessed` | app/cache/service.py:65-86 | in a timely run a claim against a live owner's key only follows it |
| `NeverPartial.NextKeepsWhole` | app/cache/service.py:148-196 | a step of the current owner keeps complete results equal to their attempt's non-blank streamed text and all others empty |
| `NeverPartial.RunIsWhole` | app/cache/service.py:148-196 | the same in every disciplined run |
| `NeverPartial.CompleteIsAbsorbing` | app/cache/service.py:65-86 | a disciplined step leaves a complete result as it is |
| `NeverPartial.CompleteStays` | app/cache/service.py:65-86 | a complete result never changes again in a disciplined run |
| `NeverPartial.WholeUnlessAnnouncingFails` | app/review/pipeline.py:237-252 | with timely owners a step keeps results whole if and only if it is not a failure while announcing |
| `NeverPartial.TimelyRunIsWhole` | app/review/pipeline.py:213-252 | timeliness and announcements that succeed suffice for whole results in every run |
| `FailedAnnouncement.AFinishedResultCanFail` | app/review/pipeline.py:237-252 | a run with the lock and timely owners in which a finished result ends FAILED with its text under a complete review |
| `Retries.FailureMatchesRequeue` | app/review/pipeline.py:247-257 | `fail` is told the failure is final exactly when the task will not requeue, and until then makes no review terminal |
| `Retries.RequeuedWithinBudget` | app/review/pipeline.py:83-96 | a failed file is requeued if and only if its LLM or source error is retryable and fewer runs than the budget of its kind came before; otherwise its review ends COMPLETE, FAILED or SKIPPED |
| `Retries.FailedReviewsAreTriedAgain` | app/tasks/review_tasks.py:309-328 | no task goes on to publishing with a FAILED review, its own or one it follows, before the retries of its error are used up |
| `Retries.DeliveredReviewsAreWorked` | app/review/pipeline.py:108-112 | a delivered message is worked on if and only if its review is PENDING, STREAMING or FAILED |
| `Retries.PublishRequeuedWithinBudget` | app/tasks/publish_tasks.py:145-158 | a publish that fails goes back to PENDING and is requeued if and only if the error is retryable and fewer than five retries were made; otherwise the unit is FAILED |
| `Retries.ListingRequeuedWithinBudget` | app/tasks/review_tasks.py:255-261 | the same budget for listing the files |
| `Retries.FiveRetriesRunOut` | app/tasks/publish_tasks.py:145-158 | in every run no publish or listing message carries more than five retries |
| `Retries.RunsAreBounded` | app/review/pipeline.py:83-96 | one task runs at most 1 + the larger retry budget times, whatever the mix of errors |
| `Retries.RunsReachTheBound` | app/review/pipeline.py:83-96 | the bound is reached when the rate-limit budget is the larger |
| `Retries.RetriesRunOut` | app/tasks/review_tasks.py:309-328 | no message in any run carries more retries than the larger budget |
| `StreamLog.StreamPublisher.Start` | app/streaming/publisher.py:55-61 | an attempt restarts the log with a reset, so nothing of an earlier attempt is shown |
| `StreamLog.StreamPublisher.Write` | app/streaming/publisher.py:63-66 | the text written grows by exactly this delta, buffered or flushed by the clock |
| `StreamLog.StreamPublisher.Flush` | app/streaming/publisher.py:68-72 | one entry holds the whole buffer and the log then shows all that was written |
| `StreamLog.StreamPublisher.Finish` | app/streaming/publisher.py:74-76 | everything written is in the log before `done` |
| `StreamLog.StreamPublisher.Fail` | app/streaming/publisher.py:78-83 | everything written is in the log before `retrying` or `failed` |
| `StreamClient.ReviewStream.FlushPending` | frontend/src/useReviewStream.ts:52-63 | the frame callback commits all pending deltas, or only clears the frame; a following browser goes on following |
| `StreamClient.ReviewStream.Reset` | frontend/src/useReviewStream.ts:73-76 | a reset drops shown and pending text |
| `StreamClient.ReviewStream.Delta` | frontend/src/useReviewStream.ts:80-86 | shown plus pending text grows by exactly the delta, and a frame is requested |
| `StreamClient.ReviewStream.Snapshot` | frontend/src/useReviewStream.ts:87-90 | a snapshot replaces everything, pending included |
| `StreamClient.ReviewStream.Done` | frontend/src/useReviewStream.ts:97-105 | closing leaves nothing pending |
| `StreamClient.ReviewStream.Fail` | frontend/src/useReviewStream.ts:107-111 | a failure too leaves nothing pending |
| `LiveStream.ForwardEntries` | app/streaming/sse.py:161-169 | the server forwards the entries read, stopping after done or failed, and its cursor is the last one sent |
| `LiveStream.NextShows` | app/streaming/sse.py:117-169 | every step of worker, server, connection and browser, and every call of the publisher that raises with its entry delivered or not, keeps the screen a prefix of the log, what is in flight its continuation, and a done entry equal to the stored text, if and only if it is not a failed announcement of a text or a done already sent |
| `LiveStream.RunShows` | app/streaming/sse.py:117-169 | the same in every run without such a step, over retries, disconnections and resumptions |
| `LiveStream.CompleteScreenShowsStoredText` | frontend/src/useReviewStream.ts:52-111 | in such a run, after done(complete) the browser shows exactly the stored `review_text` |
| `LiveStream.ScreenShowsAPrefixOfTheLog` | frontend/src/useReviewStream.ts:52-111 | before that it shows what the log said up to the last event it saw, or, while attempts fail before their reset, up to an earlier one: no delta lost or applied twice |
| `LiveStream.ACompleteScreenCanBeWrong` | app/review/pipeline.py:237-252 | a run with a failed announcement in which the browser shows as complete a result the database has failed |
| `ClosingScreens.NextIsFounded` | app/streaming/sse.py:117-169 | every step keeps a ground for how the screen ends, in the rows read or the entries appended |
| `ClosingScreens.EndingsAreFounded` | frontend/src/useReviewStream.ts:73-111 | in every run a screen that shows SKIPPED was told so by a SKIPPED row, one that shows FAILED by a FAILED review and result or a failed entry, one that shows COMPLETE by a complete result or a done entry; once closed it shows one of the three |
| `ClosingScreens.FinalRowsAreShown` | app/streaming/sse.py:85-103 | a browser that connects to a skipped review, a complete result or a failed review of a failed result ends, in one run of receiving, showing exactly that |
| `ClosingScreens.OtherRowsAreTailed` | app/streaming/sse.py:117-169 | any other row leaves it on the log, from the last event it saw |
| `ClosingScreens.SilenceIsRechecked` | app/streaming/sse.py:117-169 | a row that became final while the log was silent is told in the same way |
| `ClosingScreens.EndingEntriesClose` | frontend/src/useReviewStream.ts:97-111 | a done or failed entry, and no other, closes the browser, with everything pending on screen |
| `ClosingScreens.OnlyFinalFailuresEnd` | app/streaming/publisher.py:78-83 | a failure ends the stream if and only if it is not to be retried |
| `ClosingScreens.ForwardingEndsThere` | app/streaming/sse.py:161-169 | the server sends every entry up to the first done or failed one, and none after it |
| `Diff.ParsePatch` | app/parsing/diff.py:24-51 | the loop computes the added lines and deletion anchors of the line-by-line scan |
| `Diff.CommentableLines` | app/parsing/diff.py:54-73 | the loop computes the commentable lines of the scan |
| `Diff.EveryAddedLineIsCommentable` | app/parsing/diff.py:24-73 | for every line sequence the added lines are commentable |
| `Diff.PrintedPatchReadsBack` | app/parsing/diff.py:24-73 | for every edit script printed as unified-diff hunks (IEEE Std 1003.1, `diff`, section "Diff -u or -U Output Format"), below any lines that are no hunk header, the scanners recover exactly the inserted lines, one anchor per maximal run of deletions, and the inserted and context lines |
| `Diff.PrefaceIsSkipped` | app/parsing/diff.py:24-73 | lines before the first hunk header change nothing |
| `Windows.MergeWindows` | app/parsing/treesitter.py:135-144 | strictly separated ascending windows that cover exactly the clipped neighbourhoods |
| `Windows.UncoveredSegments` | app/parsing/treesitter.py:146-155 | strictly separated ascending segments that cover exactly the lines outside `covered` |
| `Windows.SeparatedIsUnique` | app/parsing/treesitter.py:135-155 | the lines covered determine a separated list, so both results are the only ones possible |
| `Windows.FileWindows` | app/parsing/treesitter.py:229-242 | the loop ends and returns the tiling of the range without its blank windows |
| `Windows.TilesOfTile` | app/parsing/treesitter.py:232-241 | the tiling has windows of at most 60 lines that overlap by exactly 10, from the first line to the last |
| `Windows.TilesCover` | app/parsing/treesitter.py:232-241 | such a tiling covers every line from start to end |
| `Windows.VisibleAre` | app/parsing/treesitter.py:237-239 | exactly the windows with text are kept |
| `Windows.SliceIsItsLines` | app/parsing/treesitter.py:131-132 | the text of a window is its lines joined, as they split back, cut to the chunk limit |
| `ChangedChunks.SelectUnits` | app/parsing/treesitter.py:173-197 | the loop keeps the units found and the lines that need a window |
| `ChangedChunks.UnitsAreSelected` | app/parsing/treesitter.py:184-195 | one chunk for each selected span, made from the first target that selected it |
| `ChangedChunks.OutermostUnit` | app/parsing/treesitter.py:199-204 | above every selected unit an outermost selected one remains after nested units are dropped |
| `ChangedChunks.ClipWindows` | app/parsing/treesitter.py:208-224 | the windows are the shown segments of the lines near a loose line and outside selected units |
| `ChangedChunks.NoneMeet` | app/parsing/treesitter.py:199-224 | units and windows share no line |
| `ChangedChunks.ExtractChangedChunks` | app/parsing/treesitter.py:158-226 | the result is the outermost selected units and the shown segments, in file order and pairwise disjoint |
| `ChangedChunks.InOrderIsUnique` | app/parsing/treesitter.py:226 | that description determines the result |
| `ChangedChunks.TargetsAreCoveredOnce` | app/parsing/treesitter.py:158-226 | every target lies in exactly one chunk, unless the text of its segment is blank, and then in none |
| `ChangedChunks.EditsAreTargets` | app/parsing/treesitter.py:161-169 | from the edit script: a line is a target if and only if it is an inserted line of the new file with text, or the line, moved into the file, where a maximal run of removed lines stood |
| `ChangedChunks.EditsAreCoveredOnce` | app/parsing/treesitter.py:158-226 | every line the edit touched lies in exactly one chunk, unless the text of its segment is blank |
| `ChangedChunks.ChunksAreUnitsOrWindows` | app/parsing/treesitter.py:173-224 | every chunk is a whole short unit around a target, with its kind, name and text, or a window around a target that no short unit holds |
| `ChangedChunks.ScopeNamesAre` | app/parsing/treesitter.py:126-128 | the scope lists the kind and name of every unit around, from the outermost in |
| `ChangedChunks.UnitScopeLeavesItselfOut` | app/parsing/treesitter.py:187-197 | a unit's chunk has the kind and name of the innermost unit and the scope of the units around it |
| `ChangedChunks.WindowScopeIsTheFirst` | app/parsing/treesitter.py:208-221 | a window's scope is that of its first loose line with one |
| `ChangedChunks.WindowsReachSixLines` | app/parsing/treesitter.py:208-224 | a loose target is shown with six lines on either side, up to where a unit is sent |
| `ChangedChunks.NoWindowReachesFurther` | app/parsing/treesitter.py:208-224 | no window line is further than that from a loose target, or in a unit sent |
| `IndexChunks.ExtractIndexChunks` | app/parsing/treesitter.py:245-285 | the recursive walk over the tree, or windows over the whole file when it finds no unit |
| `IndexChunks.UnitsAreIndexed` | app/parsing/treesitter.py:258-282 | every unit that can be a chunk is one, or lies within the lines of a unit all of whose pieces are, at any depth and below large containers |
| `IndexChunks.UnitLinesAreIndexed` | app/parsing/treesitter.py:258-282 | every line of such a unit lies in a chunk, or in a blank window of a split unit around it |
| `IndexChunks.ChunksAreFromUnits` | app/parsing/treesitter.py:258-282 | the walk indexes nothing else |
| `IndexChunks.ChunksAreShort` | app/parsing/treesitter.py:245-285 | no chunk is longer than the unit limit or a window |
| `IndexChunks.ChunkerIsValid` | app/parsing/treesitter.py:245-285 | the extraction meets what the index tasks ask of their chunker |
| `IndexChunks.UnitIsIndexed` | app/parsing/treesitter.py:258-282 | a unit below none that becomes chunks itself is indexed by its own pieces, whose scope names every large container on the way down to it |
| `IndexChunks.PiecesAre` | app/parsing/treesitter.py:258-282 | its pieces are itself, with kind, name, lines and scope, when it is small, and else exactly the windows with text of its tiling |
| `IndexChunks.FilesWithoutUnits` | app/parsing/treesitter.py:245-285 | without a grammar, or with no unit that becomes chunks, the chunks are exactly the windows with text of the whole file |
| `IndexChunks.FileLinesAreIndexed` | app/parsing/treesitter.py:229-254 | every line of such a file is in a chunk, but for windows without text |
| `ChromaStore.CodeIndex.Add` | app/rag/chroma_store.py:95-116 | adding in batches stores the last chunk of each id and returns how many ids there are; when it raises, some of the chunks are stored |
| `ChromaStore.CodeIndex.ReplaceFile` | app/rag/chroma_store.py:86-90 | the file's entries become exactly the new chunks; other files keep theirs even when deleting or storing raises |
| `ChromaStore.CodeIndex.DeletePaths` | app/rag/chroma_store.py:118-120 | those paths hold nothing afterwards, or some of what they held when the request raises, and every other path holds what it held |
| `ChromaStore.CodeIndex.Reset` | app/rag/chroma_store.py:82-84 | the old chunks go, or all stay when dropping the collection fails |
| `ChromaStore.Unique` | app/rag/chroma_store.py:96-97 | the deduplicated list has distinct ids and the same last values |
| `ChromaStore.LastIsStored` | app/rag/chroma_store.py:95-116 | an id holds the last chunk that has it |
| `IndexTasks.ChangedAndRemovedAreDisjoint` | app/tasks/index_tasks.py:83-94 | for every input no path is both changed and removed |
| `IndexTasks.FoldFollowsTrees` | app/tasks/index_tasks.py:83-94 | along a linear history the fold's verdict on a path agrees with the trees, overlooked paths apart |
| `IndexTasks.UpdateIsRebuild` | app/tasks/index_tasks.py:72-119 | the updated index is the rebuild at the last commit if and only if no path renamed away after being listed in its last commit has anything to index there |
| `IndexTasks.RenamedAndReplaced` | app/tasks/index_tasks.py:87-94 | a commit listing a new file and then a rename away from its path leaves the index wrong |
| `IndexTasks.UpdateIndex` | app/tasks/index_tasks.py:72-119 | what each path holds afterwards; an update that breaks off while removing paths, fetching a file, deleting its entries or storing them leaves an index that running it again repairs |
| `IndexTasks.UpdatePath` | app/tasks/index_tasks.py:97-108 | one path ends with the entries of its content at the final commit, or with none, and no other path changes, broken off or not |
| `IndexTasks.IndexRepo` | app/tasks/index_tasks.py:19-69 | a finished rebuild is READY, and it mirrors the tree with the exact chunk count if and only if the reset worked or nothing it left is outdated; a broken one is FAILED |
| `IndexTasks.RebuildOver` | app/tasks/index_tasks.py:32-42 | added to leftover chunks, a rebuild mirrors its tree if and only if it stores each of them again |
| `IndexTasks.AllChunksMirror` | app/tasks/index_tasks.py:34-42 | the chunks of all files, deduplicated together, store for each path what that path alone would |
| `IndexTasks.MirrorsIsUnique` | app/tasks/index_tasks.py:19-42 | one index mirrors a tree |
| `Findings.FindingsSection` | app/review/findings.py:34-45 | the loop returns the lines below the first findings heading up to the next heading |
| `Findings.Bullets` | app/review/findings.py:48-56 | the loop builds the items, wrapped lines joined to the last one |
| `Findings.Locate` | app/review/findings.py:59-65 | the loop finds the first backtick span holding a location, or else the first location in the text |
| `Findings.ParseFindings` | app/review/findings.py:74-90 | the loop yields the finding of every item that is not "no issues" |
| `FindingPatterns.FindingsHeadingForm` | app/review/findings.py:34-38 | a line is a findings heading if and only if it is up to three blanks, one to six hashes, blanks, "findings" in any letter case, and anything |
| `FindingPatterns.HeadingForm` | app/review/findings.py:14 | a line is a heading if and only if a hash follows up to three blanks |
| `FindingPatterns.BulletForm` | app/review/findings.py:15 | a line is a bullet if and only if it is blanks, a dash, star, plus or a number with a dot or parenthesis, a blank, and anything |
| `FindingPatterns.SeverityForm` | app/review/findings.py:16-19 | an item has a severity if and only if it starts with the word in any letter case, behind optional bold marks, bracket and blanks |
| `FindingPatterns.NoIssuesForm` | app/review/findings.py:22 | an item says there is nothing if and only if it starts with "no issues" or "no findings" in any letter case, bold or not |
| `FindingPlaces.PathForm` | app/review/findings.py:21 | a path is any file characters, a name character, a dot and a plain extension |
| `FindingPlaces.LocationForm` | app/review/findings.py:59-65 | an item has a place if and only if somewhere in it a path, a colon, perhaps an L, and a digit follow each other |
| `FindingPlaces.SpannedPlaceIsFound` | app/review/findings.py:59-65 | the place is the one in the first backtick span that names any, wherever else one is named |
| `FindingForms.ItemIsRead` | app/review/findings.py:74-90 | any item in the forms the patterns accept gives back its severity, its lines in either order as a range, and its message, or is dropped when it says there is nothing |
| `FindingForms.SectionIsCut` | app/review/findings.py:34-45 | the section is what stands between the first findings heading and the next heading, in any markdown |
| `FindingForms.PrintedFindingsReadBack` | app/review/findings.py:34-90 | a document with prose, a findings heading and printed entries, wrapped or not, is read back to exactly the findings the entries mean |
| `FindingForms.NoIssuesNoFindings` | app/review/findings.py:74-78 | a section all of whose bullets say there is nothing has no findings, whatever the markdown before and after |
| `FindingForms.NoIssuesFound` | app/review/prompt.py:33 | in particular the one bullet the prompt asks for |
| `FindingForms.AskedIsRead` | app/review/prompt.py:32-33 | a finding in the form the prompt asks for gives back its severity, place and message |
| `FindingForms.NoHeadingNoSection` | app/review/findings.py:34-45 | without a findings heading there are no findings |
| `Report.FilesAreOrdered` | app/review/report.py:134 | the files are taken in path order, each once |
| `Report.CommentOf` | app/review/report.py:169-179 | an inline comment stands on a commentable line of its own file's patch that the finding names, the last one if it can, and shows severity and message |
| `Report.AnnotationOf` | app/review/report.py:158-168 | an annotation has the finding's file and lines, the level of its severity, and title and message within their limits |
| `Report.BuildReport` | app/review/report.py:124-184 | the loops build the annotations, inline comments and body lines of all findings of the completed files |
| `Report.EveryFindingIsFound` | app/review/report.py:134-146 | the findings of each file in turn are among the unit's findings, after those of the files before it |
| `Report.FileAddsItsFindings` | app/review/report.py:134-153 | a file adds its review's findings in order if it was completed, and nothing otherwise |
| `Report.SamePathIsATail` | app/review/report.py:96-100 | a finding is about the file if and only if its path is the file's, or ends it behind a slash |
| `Report.EligibleIsOnTheDiff` | app/review/report.py:169-175 | a located finding can be a comment if and only if its first or last line is on the diff; the last is preferred |
| `Report.BodyLineNames` | app/review/report.py:154-183 | the line in the body names the file, and the first line of a located finding, and ends with the message |
| `Report.TruncateFits` | app/review/report.py:79-83 | a text too long is cut so that it and the notice fill the limit exactly |
| `Report.InlineAndUnplacedAddUp` | app/review/report.py:169-184 | every finding is inline or unplaced, and at most 30 are inline |
| `Report.EveryFindingHasItsPlace` | app/review/report.py:153-184 | each finding has its own place in one of the two lists, in order |
| `Report.CommentsOfFindings` | app/review/report.py:169-179 | the comments are exactly those of findings on a commentable line |
| `Report.AnnotationsOfFindings` | app/review/report.py:158-168 | every located finding has its annotation, in order |
| `Report.AnnotationsAreTheLocated` | app/review/report.py:158-168 | the annotations are, one by one, those of the located findings, and nothing else |
| `Report.LocatedAreCounted` | app/review/report.py:155-157 | a finding is among the located ones as often as among all, if it is located at all |
| `Publisher.Batches` | app/github/publisher.py:94-97 | batches hold 1 to 50 annotations, all but the last exactly 50 |
| `Publisher.BatchesFlatten` | app/github/publisher.py:94-97 | the batches concatenate back to the annotations |
| `Publisher.GitHub.CompleteCheckRun` | app/github/publisher.py:93-131 | the check runs afterwards, known or new, and the exception, for every way its requests end, each that raises having been carried out or not |
| `Publisher.AllSent` | app/github/publisher.py:94-131 | when all requests go through, the run is completed with all annotations appended |
| `Publisher.RequestsStopAtTheFirst` | app/github/publisher.py:93-131 | the requests go on to the first that is refused, which counts if it was carried out, and raise its exception |
| `Publisher.KnownRunCollects` | app/github/publisher.py:88-131 | after any attempts a recorded run holds what it held and then what each attempt sent, and no other run changes |
| `Publisher.RetryRepeatsAnnotations` | app/github/publisher.py:88-131 | once the check run's requests go through, a recorded run has every annotation once if and only if no attempt before sent any, wherever those raised, at the review's requests too |
| `Publisher.UnknownRunsAreMade` | app/github/publisher.py:110-117 | with no recorded run id, each attempt that gets a request through makes a run of what it sent, and no other run changes |
| `Publisher.RetryMakesASecondRun` | app/github/publisher.py:110-117 | the last of those runs has all annotations, and it is the only one if and only if no request of an earlier attempt was carried out |
| `Publisher.OneAnnotationIsRepeated` | app/github/publisher.py:88-91 | one annotation sent, the review's POST answered by a server error, and the retry leaves the annotation twice |
| `Publisher.FiftyAnnotationsAreRepeated` | app/github/publisher.py:93-131 | fifty-one annotations whose second request fails: the retry sends the first fifty again |
| `Publisher.GitHub.PostPullRequestReview` | app/github/publisher.py:133-173 | what is posted, and the exception, for every state of the pull request and every way its four requests end |
| `Publisher.GitHub.Finish` | app/github/publisher.py:88-91 | the check run is completed, and only then the review of a pull request posted; the exception is that of the part that raised |
| `Publisher.ReviewComesAfterTheChecks` | app/github/publisher.py:88-91 | a review goes up if and only if every request of the check run went through before and the pull request takes it |
| `Publisher.PostingPosts` | app/github/publisher.py:133-173 | a review goes up if and only if it is submitted and GitHub carries the deciding request out, whether that raises or not; fallback or not, it carries the marker if and only if the report's body does |
| `Publisher.PostedIsTheReport` | app/github/publisher.py:158-173 | what goes up is the report itself, or after a 422 on its comments a review without comments whose body keeps them all; a rejected review without comments is not tried again |
| `Publisher.PostingRaises` | app/github/publisher.py:133-173 | exactly when posting raises, and when the exception is worth a retry |
| `Publisher.MarkerSurvives` | app/review/report.py:196-206 | the body carries its marker if and only if it was not cut or an earlier copy survived the cut |
| `Publisher.BodyIsInOrder` | app/review/report.py:196-199 | the whole body: the summary, every unplaced finding on a line of its own in order, and the marker at the very end |
| `Publisher.MarkersDiffer` | app/github/publisher.py:141 | one unit's marker occurs in another's if and only if they are the same unit |
| `Publisher.FallbackKeepsComments` | app/github/publisher.py:160-171 | the fallback keeps every comment and the marker if the body carries the marker, and changes nothing if not |
| `Publisher.RetriesPostOnce` | app/github/publisher.py:141-146 | once a review went up and the answer was lost, any number of retries post nothing more, whatever the replies, if and only if the report's body carries the marker and fewer than 100 reviews came before |
| `Publisher.RetriedReportPostsOnce` | app/github/publisher.py:141-146 | the same condition on the report's length and earlier copies of the marker |
| `Publisher.ALongReportIsPostedTwice` | app/github/publisher.py:141-173 | one finding of 60,000 characters outside the changed lines, the review's answer lost: the retry posts it again |
| `Publisher.ALongReportLosesItsComments` | app/github/publisher.py:160-171 | the same report, its inline comments rejected: the fallback posts the body without them |
| `Prompt.Cut` | app/review/prompt.py:57-60 | a cut text is a prefix with the notice, within the limit or the notice's length |
| `Prompt.FitIsLongestPrefix` | app/review/prompt.py:97-104 | the loop takes the longest prefix of blocks that fits |
| `Prompt.Pack` | app/review/prompt.py:97-127 | each packing loop takes exactly the blocks that fit, in order |
| `Prompt.BuildPrompt` | app/review/prompt.py:63-138 | the prompt joins the head, the changed units that fit their share and the similar code that fits what is left |
| `Prompt.PromptFitsBudget` | app/review/prompt.py:82-129 | for every budget the prompt is at most the budget plus path, language, a constant and one separator a block |
| `Prompt.SectionsStayInTheirShares` | app/review/prompt.py:82-127 | changed units stay in their share and similar code in what the other sections leave |
| `Prompt.AssembledAreLongest` | app/review/prompt.py:95-125 | both lists of blocks are the longest prefixes with room in their share and in what is left |
| `Prompt.PatchIsShown` | app/review/prompt.py:85-93 | the prompt holds the path, the language, the commit message, and the redacted patch, cut to its share, between the boundary lines |
| `Prompt.UnitsAreShown` | app/review/prompt.py:95-106 | the redacted code of every packed unit is in the prompt, between the boundary lines |
| `Prompt.SimilarCodeIsShown` | app/review/prompt.py:108-125 | so is that of every packed snippet |
| `Prompt.SharesAreFloors` | app/review/prompt.py:82-83 | 35 and 40 hundredths of the budget, rounded down |
| `Prompt.CutPatchIsReported` | app/review/prompt.py:57-60 | the report of a cut patch is right if and only if, for a cut patch, the text shown is shorter than the original, and for a whole one, redaction did not shorten it |
| `Prompt.AWholePatchIsReportedCut` | app/review/prompt.py:129-138 | a patch of one line that is a GitHub token fits whole after redaction and is reported cut |
| `CacheKeys.Utf8IsInjective` | app/cache/keys.py:29-35 | different strings are encoded differently |
| `CacheKeys.HashFields` | app/cache/keys.py:29-35 | the digest is fed the length-prefixed fields in order |
| `CacheKeys.BigEndianSpells` | app/cache/keys.py:29-35 | the length prefix spells the length, most significant byte first |
| `CacheKeys.FieldsAreRead` | app/cache/keys.py:29-35 | equal bytes come from equal field lists |
| `CacheKeys.SameKeySameInput` | app/cache/keys.py:38-59 | two key inputs share their bytes if and only if they agree on every field, language None and "" being the same |
| `CacheKeys.ContentHashIsNoKey` | app/cache/keys.py:62-64 | the audit hash is never taken over the bytes of a cache key |

## Left out

- Postgres, SQLAlchemy, Celery and Redis themselves: a committed transaction is one step, and inside `review_file` it succeeds: attaching, refreshing, completing and failing a result have no failing step; the queue is a set of messages delivered at least once, stream entry ids are positions in the log, and the stream's MAXLEN trimming and expiry do not happen while it is read.
- A chunk's language and retrieval score, which the proofs do not use.
- Row ids: a result is named by its cache key, a review by its unit and file, and each review's key is fixed through a run.
- `start_check_run` and the recorded check-run id are not part of the protocol; the text of errors, token counts and latencies are dropped from the rows.
- Between two attempts of a publish only the attempts change the pull request and the check runs.
- Webhook handling and `process_push` are one step that creates a unit and its task.
- The first phase of `review_events`, waiting for a result to be attached, is left out; it only repeats a status and polls.
- The language model is a stream of deltas or an error; SHA-256 is uninterpreted, and a chunk id is the four values that are hashed.
- tree-sitter is a function from a line to the units around it. It is assumed that a unit found at a line spans that line and that any two units are nested or share no line. For indexing, the tree is given, each node with its lines.
- Lines are given already split; the corner cases of `str.splitlines`, and letters, digits and cases outside ASCII in the patterns, are not modelled. Spaces are Python's.
- Redaction and sanitizing are parameters, and so are hashes used as boundary tokens.
- Prompt.PromptFitsBudget: `int(total * share)` is computed over real numbers; a floating-point product may round to a neighbouring integer.
- The wording of titles, summary tables and per-file sections in the report is left out; the summary is a parameter of the review body, and `check_conclusion` always returns neutral.
- IndexTasks.UpdateIndex: the order in which the changed paths are taken is left open; the result does not depend on it. Failures while listing commits, before the index is touched, are left out.
- Searching the index, embeddings, authentication, REST routes, settings and the React pages around the hook.
- Retries.RunsAreBounded: counts the runs that end in an error; a crash redelivers the message with the same retry count.
- LiveStream.CompleteScreenShowsStoredText: one owner at a time writes the log, as timely leases guarantee; in runs with a failed announcement of something already sent it is false.
- NoLostPublication.RunLosesNone: says nothing of units whose reviews never all become terminal.
- FindingForms.PrintedFindingsReadBack: of documents put together from the accepted texts, a place outside of backtick spans stands behind text without a colon, in an item without backticks, and what follows a severity does not begin with one more separator, bracket or emphasis character; `FindingPlaces.LocationForm` and `FindingPatterns.SeverityForm` have no such limits.
