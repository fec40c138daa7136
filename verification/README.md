# Verified model of the karaoke player's stateful logic

The project models the parts of the application in which requests overtake each other or several counters
and caches must agree, and proves what they promise. Each asynchronous part is a step system: a state, the
calls that are out, and an environment that may settle any of them next, with success or with an error. A
class beside it has the methods of the original: each takes the state where the step does, keeps the invariant
that every run keeps, and says what its call means for the caller. The lemmas are about the steps and hold for
every run. The buffer and list algorithms are methods with loops, proved against specification functions.

| files | what they model |
|---|---|
| `catalog_browse.dfy` | the streaming catalog as a step system: lists and cursors, searches, sign-in loops, resets |
| `catalog_browse_proofs.dfy`, `_runs`, `_server`, `_queries`, `_sections`, `_sessions` | its invariant and what keeps it, the server's pages, the queries, the sections of the global search and the sessions their pages are of |
| `catalog_browse_theorems.dfy`, `catalog_browse_examples.dfy` | what holds over every run, and the runs in which something expected fails |
| `catalog_store.dfy`, `catalog_store_facts.dfy`, `catalog_store_answers.dfy` | the catalog as an object, what its methods rest on, and what each shows, field by field |
| `catalog_import*.dfy` | the import job fed by replies, track events and completion reports |
| `match_pool.dfy`, `match_confirm.dfy`, `match_jobs.dfy`, `match_examples.dfy` | the three-worker match search, the confirmed matches, the jobs that import them, and the rows that are lost |
| `cdg_coordinator.dfy` | the single-flight, latest-wins requests for CD+G frames |
| `ordering.dfy`, `song_sort.dfy`, `alphabet_index.dfy` | library order, its decorated form, and the alphabet rail |
| `companion_romanization.dfy` | splitting paired romanization lines from lyrics |
| `release_evidence.dfy`, `release_evidence_answers.dfy` | aggregating and validating release evidence, and the updater manifest |
| `airplay_tap.dfy` | the audio ring buffer and the epoch filter |
| `rate_limiter.dfy`, `cover_art.dfy`, `waveform_cache.dfy`, `event_runtime.dfy` | the small stateful protocols |
| `position_clock.dfy`, `playback_session.dfy` | the playback clock and every site that publishes it |

`dafny verify dfyconfig.toml` checks everything.

## What the code does not promise

Some properties one would expect fail for particular inputs. The code is modelled as it is, and each time
the exact condition is proved.

- A search for more under another query joins two queries' pages (`SearchMoreMixesQueries`, run `QueriesMixed`).
- A cancellation rejected after its job ended, or an old status reply after dismissal, brings a finished job
  back (`RevivedExactlyWhen`, runs `LateRejectionRevives` and `LateStatusRevives`).
- A late event takes a terminal track of the running job back (`TrackTakenBackExactlyWhen`, run
  `ImportedTrackTakenBack`).
- A matched original that is itself an earlier link's candidate can leave a link with a terminal candidate
  (`LinksSettleExactlyWhen`, run `BackLinkRun`).
- A section of the global search can be left loading for ever: by a reset of its source, or by the part of an
  older search that starts after it (`SectionIsOwedExactlyWhen`, `OwedExactlyWhen`, runs `SignOutStrandsSection`
  and `OlderPartStrandsSection`).
- A reset leaves the sections of the global search alone, so a section that goes on after one holds pages of two
  sessions (`SectionIsOfThisSessionExactlyWhen`, run `SessionsMixed`).
- Confirmed rows are lost when a choice names no option or a job leaves tracks unaccounted for
  (`ConfirmConserves`, `NoRowIsLostExactlyWhen`), and a job whose start is rejected does: its open tracks are
  counted as skipped and listed nowhere (`RejectionLosesOpenTracks`, inputs `RejectedStartLosesRow` and
  `UnlistedChoiceLosesRow`).
- Invalidating the cover art of a song also reaches songs whose hash begins with that song's hash and a colon
  (`InvalidatesExactly`).
- The reply to a volume change is published without a new anchor, so it can move a clock that stops back and
  leave the anchor wrong (`StopMovesBackExactlyWhen`, `RunAnchoredExactlyWhen`, run `VolumeReplyMovesBack`).
- Releasing cover art without naming the URL can take another holder's count (`NamelessReleaseExactlyWhen`, run
  `NamelessReleaseRevokesHeld`).

## Model

| member | source | states |
|---|---|---|
| `CatalogBrowseTheorems.ListsAreServerPages` | src/stores/catalog-store.ts:323-380 | Over every interleaving of actions, replies and failures, a source's liked list and each cached playlist are the server's pages from the null cursor, none skipped or doubled and none past the server's last page, the stored cursor being where they stop; the open playlist is the cached one; the streaming view shows the active source's record |
| `CatalogBrowseTheorems.SearchesAreServerPages` | src/stores/catalog-store.ts:1057-1096 | Over every interleaving in which searches for more keep to the query shown, the search results are the server's pages for that query, none skipped or doubled |
| `CatalogBrowseTheorems.SearchesAreLinked` | src/stores/catalog-store.ts:1057-1096 | Over every interleaving, whatever is searched for, the results are pages that follow one another by their cursors, and the stored cursor is where they stop |
| `CatalogBrowseTheorems.ListsAreOfThisSession` | src/stores/catalog-store.ts:329-335 | No list of a source's record (liked, playlists, search results) holds a page that was asked for before the source was last reset; the sections of the global search may, see SectionIsOfThisSessionExactlyWhen |
| `CatalogBrowseTheorems.SectionIsOfThisSessionExactlyWhen` | src/stores/catalog-store.ts:620-678 | Over every run, the pages of a section of the global search are all of the present session if and only if no reset of the source came after the section's oldest page was asked for |
| `CatalogBrowseTheorems.SectionsAreInOrder` | src/stores/catalog-store.ts:620-678 | Over every run the pages of a section come in the order of the sessions they were asked for in, the last no later than the present one |
| `CatalogBrowseExamples.SessionsMixed` | src/stores/catalog-store.ts:620-678 | A run from the empty store in which a sign-out falls between two pages of a section, whose list then holds a page of each session |
| `CatalogBrowseTheorems.SectionsAreServerPages` | src/stores/catalog-store.ts:620-678 | Over every interleaving, a section's list is the server's pages for the query shown, from the null cursor or, when a failed section is asked again, from an empty one, none skipped or doubled |
| `CatalogBrowseTheorems.SectionsAreChains` | src/stores/catalog-store.ts:620-678 | Each section of the global search holds linked pages of the query shown |
| `CatalogBrowseTheorems.SpinnersAreAnswered` | src/stores/catalog-store.ts:961-985 | Whatever a record shows as loading has a live request out, so no record spins for ever |
| `CatalogBrowseTheorems.LiveReplyAdvances` | src/stores/catalog-store.ts:1011-1055 | The reply to a live request adds its page to the list as it stands, or replaces it when it is a first page, and its cursor was the list's own |
| `CatalogBrowseTheorems.SearchMoreMixesQueries` | src/stores/catalog-store.ts:1057-1096 | Asked for more under another query the store joins two queries' pages: from results of one query, the list left behind belongs to the query shown if and only if the query was the one shown before |
| `CatalogBrowseTheorems.SupersededNeverWrites` | src/stores/catalog-store.ts:323-335 | A request, poll, opening or cancellation that lost its token never regains it in any continuation, and its settling changes no list, session, challenge or error |
| `CatalogBrowseTheorems.ResetSupersedesAll` | src/stores/catalog-store.ts:329-335 | Over every run, an event begins a new epoch of a source if and only if it takes the source away, accepts a sign-in, completes a sign-out, or is a heeded failure that finds the session expired; and then no call the source has out is live any more |
| `CatalogBrowseTheorems.OneLoopPerSource` | src/stores/catalog-store.ts:562-601 | At most one sign-in loop per source is alive, and while it polls, it polls the stored challenge |
| `CatalogBrowseTheorems.LateChallengeIsCancelled` | src/stores/catalog-store.ts:868-897 | A challenge that arrives after being superseded is sent back to be cancelled and stored nowhere |
| `CatalogBrowseTheorems.SectionIsOwedExactlyWhen` | src/stores/catalog-store.ts:620-678 | Over every run a loading section of the global search has its own live request or its own part still to start, if and only if no event of the run since the last search everywhere stranded it |
| `CatalogBrowseSections.OwedExactlyWhen` | src/stores/catalog-store.ts:620-678 | A step leaves an owed section without an answer if and only if no part of its search is still to start and a reset of the source or an older search's part takes its token; one left so is owed again only by a new search everywhere |
| `CatalogBrowseSections.ResetExactlyWhen` | src/stores/catalog-store.ts:329-380 | From any state the invariant allows, exactly the resetting events begin an epoch and silence the source |
| `CatalogBrowseTheorems.StrandedIsStuck` | src/stores/catalog-store.ts:1126-1136 | A stranded section shows loading with no live request for it, and asking for more in it changes nothing |
| `CatalogBrowseExamples.OlderPartStrandsSection` | src/stores/catalog-store.ts:1097-1125 | A run without any reset in which the part of an older search starts last and strands the section of the search shown |
| `CatalogBrowseExamples.SignOutStrandsSection` | src/stores/catalog-store.ts:944-960 | A run in which a sign-out strands a section |
| `CatalogBrowseExamples.QueriesMixed` | src/stores/catalog-store.ts:1057-1096 | A run that ends with one list of two queries' pages |
| `CatalogBrowseQueries.QueriesKept` | src/stores/catalog-store.ts:1057-1096 | A step that does not ask for more under another query keeps every result list of one query, the one shown |
| `CatalogBrowseRuns.StepKeeps` | src/stores/catalog-store.ts:315-380 | Every step, whatever it is, keeps the invariant: tokens, lists of linked pages, those of a source's record all of this session, answered spinners, one sign-in loop for each source, and the mirrored view |
| `CatalogBrowseServer.ChainIsWalk` | src/stores/catalog-store.ts:961-1096 | A list whose replies link up is the server's pages read from the null cursor (a section's perhaps from an empty one), each page but the last having named the next |
| `CatalogBrowseServer.WalkEnds` | src/stores/catalog-store.ts:961-1096 | A walk that reaches the server's last page is never longer than that |
| `CatalogBrowseServer.HonestStep` | src/stores/catalog-store.ts:961-1096 | With a server that answers the request it was sent, every step keeps all stored replies the server's |
| `CatalogStoreObject.CatalogStore.constructor` | src/stores/catalog-store.ts:315-322 | A new store is in good order: lists of linked pages, answered spinners, one sign-in loop at most for each source, a view that mirrors the active record. The store stays in good order |
| `CatalogStoreObject.CatalogStore.ApplySource` | src/stores/catalog-store.ts:696-719 | The source is found as given; one that goes away starts over with nothing it had out listened to, otherwise only the list of sources changes. The store stays in good order |
| `CatalogStoreObject.CatalogStore.LoadLiked` | src/stores/catalog-store.ts:961-985 | Unless the list is loading or has no more, one new request is out, live, for the first page or from the cursor where the list stops, and the record is shown loading; nothing else of what is shown changes. The store stays in good order |
| `CatalogStoreObject.CatalogStore.OpenPlaylist` | src/stores/catalog-store.ts:1011-1055 | The playlist is selected and shown as cached, loading unless it is cached and no more of it is wanted; its request is out and live, unless it is cached, no more is wanted and its last request did not fail; no list changes. The store stays in good order |
| `CatalogStoreObject.CatalogStore.ClosePlaylist` | src/stores/catalog-store.ts:788-795 | Nothing is open; no list and no call changes. The store stays in good order |
| `CatalogStoreObject.CatalogStore.ClearSearch` | src/stores/catalog-store.ts:797-808 | The results are gone, no search of the source is live, and no other list changes. The store stays in good order |
| `CatalogStoreObject.CatalogStore.RunSearch` | src/stores/catalog-store.ts:1057-1096 | An empty query clears; any other is asked for by a live request, from the results' own cursor for more, and the results stay until its reply or are emptied for a new search. The store stays in good order |
| `CatalogStoreObject.CatalogStore.SearchEverywhere` | src/stores/catalog-store.ts:1097-1125 | There is an empty, loading section for exactly the sources that are installed, switched on, loaded, able to search and in a usable state, each owed its answer; a blank query does nothing. The store stays in good order |
| `CatalogStoreObject.CatalogStore.SearchMoreIn` | src/stores/catalog-store.ts:1126-1136 | A section that is not loading and has more, or failed, keeps its list and asks from its own cursor, or is shown signed out if its source may not be asked; any other is left alone, and so is every record. The store stays in good order |
| `CatalogStoreObject.CatalogStore.SettlePageCall` | src/stores/catalog-store.ts:961-1096 | A superseded reply changes nothing but the calls out; a live page is put behind the list as it stands, or replaces it when it is a first page, its cursor is stored and the feed is shown ready; a live failure that finds the session expired leaves an empty record, signed out and expired, and silences the source; any other keeps every list, shows the feed failed and its message under the feed's slot; no other record changes. The store stays in good order |
| `CatalogStoreObject.CatalogStore.SettleSectionStart` | src/stores/catalog-store.ts:1119-1124 | A part that starts asks for the session if nobody has, and otherwise for the first page, or shows its section signed out; the section is owed its answer, if the search shown is still its own. The store stays in good order |
| `CatalogStoreObject.CatalogStore.LoadSession` | src/stores/catalog-store.ts:851-867 | A live session request is out, the record is shown waiting for it, and nothing else is shown differently. The store stays in good order |
| `CatalogStoreObject.CatalogStore.SettleSessionCall` | src/stores/catalog-store.ts:851-867 | A live reply stores the session as ready, and a live failure is shown under its slot or, if the session has expired, leaves the record empty, signed out and expired; a superseded one shows nothing; a search that waited for it starts next either way. The store stays in good order |
| `CatalogStoreObject.CatalogStore.CancelSignIn` | src/stores/catalog-store.ts:898-921 | No part of a sign-in loop is left at the source, and the stored challenge's cancellation is out and live. The store stays in good order |
| `CatalogStoreObject.CatalogStore.SettleCancelCall` | src/stores/catalog-store.ts:898-921 | A live cancellation of the stored challenge removes it when it succeeds and shows its error when it fails; of another challenge, or superseded, it shows nothing; an opening that waits comes next. The store stays in good order |
| `CatalogStoreObject.CatalogStore.SettleOpenAfterCancel` | src/stores/catalog-store.ts:868-874 | With a challenge still stored nothing is shown; without one the opening is the source's loop. The store stays in good order |
| `CatalogStoreObject.CatalogStore.SettleOpenCall` | src/stores/catalog-store.ts:868-897 | A challenge in time is stored and its timer is the loop, and an error in time is shown; a late challenge is stored nowhere and sent back to be cancelled. The store stays in good order |
| `CatalogStoreObject.CatalogStore.FirePollTimer` | src/stores/catalog-store.ts:562-601 | A timer that fires always polls the stored challenge: the test of its token and challenge cannot fail. The store stays in good order |
| `CatalogStoreObject.CatalogStore.SettlePollCall` | src/stores/catalog-store.ts:562-601 | A superseded poll changes nothing but the calls out; a pending one waits again for the same challenge; any other leaves no loop and the record that its result calls for, state by state, and an accepted session starts the source over. The store stays in good order |
| `CatalogStoreObject.CatalogStore.AcceptSignIn` | src/stores/catalog-store.ts:922-943 | While a sign-in is under way at a source that is installed and switched on, the source starts over with the session, nothing it had out is live and no other record changes; otherwise nothing changes. The store stays in good order |
| `CatalogStoreObject.CatalogStore.SetSignInError` | src/stores/catalog-store.ts:813-825 | For the stored challenge of a usable source the error is shown and no loop is left; otherwise nothing changes. The store stays in good order |
| `CatalogStoreObject.CatalogStore.SettleSignOutCall` | src/stores/catalog-store.ts:944-960 | A successful sign-out starts the source over, empty but for the session, with nothing it had out live; a failure is shown under its slot or, if it finds the session expired, leaves the record empty, signed out and expired. The store stays in good order |
| `CatalogStoreAnswers.EmptyRecord` | src/stores/catalog-store.ts:211-238 | The record a source starts over with: no list, no cursor, no message, nothing loading and nobody signed in |
| `CatalogStoreAnswers.PageAnswers` | src/stores/catalog-store.ts:961-1055 | What a live page call shows, by outcome and feed: every field of the source's record and of its section, all other records and the view as they were |
| `CatalogStoreAnswers.ListFails` | src/stores/catalog-store.ts:356-380 | A failed list request that does not end the session keeps every list, shows the feed failed and stores the message under the feed's slot; one that ends it leaves an empty record, signed out and expired, in a new epoch |
| `CatalogStoreAnswers.PollShows` | src/stores/catalog-store.ts:562-601 | The record after a live poll, for each state that the backend can report |
| `CatalogStoreAnswers.CandidatesAre` | src/stores/catalog-store.ts:1097-1106 | The sources a search everywhere asks are exactly those installed, switched on, loaded, able to search, and being installed, usual or waiting |
| `CatalogStoreAnswers.AskedExactlyWhen` | src/stores/catalog-store.ts:248-300 | A section's source may be asked if and only if it can be searched and, where it needs a session, has one that is signed in and not expired |
| `CatalogStoreAnswers.PartStarts` | src/stores/catalog-store.ts:1119-1124 | A part of a search everywhere asks for the session exactly if its status is idle, and then searches when it comes |
| `CatalogStoreAnswers.FirstIsFound` | src/stores/catalog-store.ts:814-816 | A source is found by its id as the first of the list |
| `CatalogStoreAnswers.UsableExactlyWhen` | src/stores/catalog-store.ts:813-818 | An error is taken for a source that is known, switched on and installed |
| `CatalogStoreAnswers.GoneExactlyWhen` | src/stores/catalog-store.ts:696-712 | A known source goes away exactly when it is no longer installed, is switched off, or is unavailable or must be updated |
| `CatalogStoreAnswers.AcceptsExactlyWhen` | src/stores/catalog-store.ts:922-936 | A sign-in is accepted exactly while one is under way at a source that is installed and switched on |
| `Basics.TrimIsTheMiddle` | src/stores/catalog-store.ts:1060-1064 | Trimming takes off white space only, at both ends, and all of it |
| `Basics.WhiteSpaceIs` | src/stores/catalog-store.ts:1060-1064 | What is trimmed off are the white space and line ends of ECMAScript, character by character |
| `CatalogImportProofs.ForeignChangesNothing` | src/stores/catalog-store.ts:406-481 | An event, reply or failure of another job or source changes nothing |
| `CatalogImportProofs.RevivedExactlyWhen` | src/stores/catalog-store.ts:1518-1568 | A finished job runs again after a step if and only if its cancellation is rejected after it ended, or an old status reply calls it unfinished after it was dismissed |
| `CatalogImportProofs.FinishedStaysFinished` | src/stores/catalog-store.ts:406-481 | Without such a step a job goes from running to finished once and never back |
| `CatalogImportProofs.JobsFinishOnce` | src/stores/catalog-store.ts:406-481 | From the empty store, in every run without such a step, a job that has finished stays finished and is not under way again |
| `CatalogImportProofs.LateRejectionRevives` | src/stores/catalog-store.ts:1518-1529 | A run in which a rejected cancellation does bring a finished job back, with no track left to end it |
| `CatalogImportProofs.LateStatusRevives` | src/stores/catalog-store.ts:1530-1565 | A run in which a status asked for before the job brings it back after it was done and dismissed |
| `CatalogImportProofs.TrackTakenBackExactlyWhen` | src/stores/catalog-store.ts:1459-1517 | While a job runs, a terminal track stops being terminal at a step if and only if the step is an event of the job that gives that track a state under way |
| `CatalogImportProofs.ImportedTrackTakenBack` | src/stores/catalog-store.ts:1459-1517 | A run in which a late event takes an imported track back and the counter with it |
| `CatalogImportProofs.EndingSettlesAll` | src/stores/catalog-store.ts:406-481 | At the step that ends a job every active track is terminal, and imported and skipped together are completed |
| `CatalogImportProofs.MarkExact` | src/stores/catalog-store.ts:426-438 | A completion makes each active, not yet terminal track skipped with its refusal, failed with its reason, or imported, as the first entry for it in the report says or as there is none; every other entry stays as it was |
| `CatalogImportProofs.ReportedIsSaid` | src/stores/catalog-store.ts:426-438 | What becomes of an open track, told from the report alone: the first entry with its id decides, a refusal over a reason, and without an entry it is imported |
| `CatalogImportAnswers.CountsAre` | src/stores/catalog-store.ts:392-405 | The two counters are how many of the ids are imported, and how many skipped or failed |
| `CatalogImportAnswers.FollowExact` | src/stores/catalog-store.ts:439-443 | If no link points back, a track takes the state of the last link's candidate that is imported and whose original it is, and stays as it was without one |
| `CatalogImportAnswers.FailureAnswers` | src/stores/catalog-store.ts:459-481 | A failed import fails exactly the open tracks, counts all of them and changes nothing else |
| `CatalogImportAnswers.NotedAre` | src/stores/catalog-store.ts:1459-1490 | A skipped or failed track is listed once among the failures, last, with its refusal or reason; other states list nothing |
| `CatalogImportAnswers.RecoveryAnswers` | src/stores/catalog-store.ts:1530-1565 | The recovered run is the snapshot's, its tracks in the state last listed for them, and a decision that is awaited is cancelled at once |
| `CatalogImportAnswers.ReplyAnswers` | src/stores/catalog-store.ts:1391-1565 | What each reply shows, by call and outcome |
| `CatalogImportProofs.MarkTerminal` | src/stores/catalog-store.ts:426-438 | After a completion every active track is terminal and no terminal track has changed |
| `CatalogImportProofs.CountsAddUp` | src/stores/catalog-store.ts:392-405 | When all tracks of a job are terminal the two counts add up to their number |
| `CatalogImportProofs.FailAllExact` | src/stores/catalog-store.ts:459-481 | A failed import fails each active track that is not yet terminal, and leaves every other entry as it was |
| `CatalogImportProofs.LinksSettleExactlyWhen` | src/stores/catalog-store.ts:439-443 | Whatever the track states, no link is left with a terminal candidate and every original whose candidate was imported is imported, if and only if no link's original is the candidate of a link made before it |
| `CatalogImportProofs.BackLinkFails` | src/stores/catalog-store.ts:439-443 | For any link list with a back link, track states that leave a terminal candidate linked |
| `CatalogImportProofs.BackLinkRun` | src/stores/catalog-store.ts:439-443 | Such a run from the empty store: a link stays behind with its candidate imported and its original not |
| `CatalogImportProofs.CompletionSettlesLinks` | src/stores/catalog-store.ts:406-458 | With no back link a completion leaves no link with a terminal candidate, keeps exactly the others, and every original whose candidate was imported is imported |
| `CatalogImportProofs.LinksStayUnique` | src/stores/catalog-store.ts:482-495 | A candidate is never linked twice, whatever happens |
| `CatalogImportProofs.RejectedStartListsNoFailure` | src/stores/catalog-store.ts:1391-1434 | A start that is rejected fails all its tracks but lists none of them as a failure |
| `CatalogImportObject.ImportStore.StartJob` | src/stores/catalog-store.ts:1391-1434 | Refused while a job runs; otherwise the job runs with all its tracks queued and its command out, and no other track, link or conflict changes. The records of jobs and links stay in order |
| `CatalogImportObject.ImportStore.ImportOneMatch` | src/stores/catalog-store.ts:482-495 | Refused while a job runs; otherwise the candidate is linked, in the place of its earlier link if it has one, a job for it alone has begun, and no other track changes. The records of jobs and links stay in order |
| `CatalogImportObject.ImportStore.TakeTrackEvent` | src/stores/catalog-store.ts:1459-1517 | An event of the running job sets its track to whatever it says, adding an unknown track to the job, replaces what was listed of it among the failures by its refusal or reason, and counts the tracks imported and skipped; it takes a terminal track back exactly when its state is one under way; other events change nothing. The records of jobs and links stay in order |
| `CatalogImportObject.ImportStore.TakeCompletion` | src/stores/catalog-store.ts:1447-1458 | A completed report of the running job makes each open track that no link leads to skipped, failed or imported as its first entry in the report says, shows its failures and counts, and with no link that points back gives each original the state of the last link that leads to it; any other report changes nothing. The records of jobs and links stay in order |
| `CatalogImportObject.ImportStore.ResolveConflict` | src/stores/catalog-store.ts:1435-1446 | The decision goes out with the job it is meant for, and the conflict is gone. The records of jobs and links stay in order |
| `CatalogImportObject.ImportStore.CancelImport` | src/stores/catalog-store.ts:1518-1529 | A running job runs on, shown as cancelling and otherwise as it was, and is asked to stop once, with the run as it was remembered; nothing else changes. The records of jobs and links stay in order |
| `CatalogImportObject.ImportStore.Dismiss` | src/stores/catalog-store.ts:809-812 | A running job stays; a finished one goes with its failures. The records of jobs and links stay in order |
| `CatalogImportObject.ImportStore.Recover` | src/stores/catalog-store.ts:1530-1533 | The backend is asked for a job exactly when there is none to show. The records of jobs and links stay in order |
| `CatalogImportObject.ImportStore.SettleCall` | src/stores/catalog-store.ts:1391-1565 | A reply for another job changes nothing; a progress reply shows what it reports, track by track, and a rejection fails each open track; a status reply brings the run it describes; one that ends the job leaves its tracks terminal and its counters agreeing; a job that had not finished before runs again after it exactly for the two late replies. The records of jobs and links stay in order |
| `MatchPool.EveryTrackClaimedOnce` | src/stores/catalog-store.ts:1259-1271 | Over every interleaving each pool has at most three searches out and claims every one of its tracks exactly once; a superseded pool may still have searches out beside the new pool's |
| `MatchPool.ConcludedPoolIsComplete` | src/stores/catalog-store.ts:1192-1271 | When a current run ends, it is under review with every track searched and row i about track i |
| `MatchPool.SupersededPoolIsSilent` | src/stores/catalog-store.ts:1192-1258 | A closed or superseded run never writes to the dialog again |
| `MatchPool.ReviewShowsWhatWasFound` | src/stores/catalog-store.ts:1219-1271 | Over every run, a row that is under review when its pool ends is what the worker's search found when it was settled, whatever happened in between |
| `MatchPool.StepKeeps` | src/stores/catalog-store.ts:1192-1271 | Every step keeps the pool's invariant |
| `MatchPool.MatchDialog.FindMatches` | src/stores/catalog-store.ts:1192-1218 | A new pool takes the dialog over with nothing searched, and every older pool has lost it. Every pool's claims stay in order |
| `MatchPool.MatchDialog.SettleSearch` | src/stores/catalog-store.ts:1219-1258 | In a pool that owns the dialog the row of the track searched is what the reply found: the options of a search, the first chosen; the one track that a remembered match names, remembered and chosen; and no option for a rejection or when nothing was found; every other row stays, the counter is the number of rows that are in, and the worker takes the next unclaimed track; a pool that does not own it shows nothing and claims nothing. Every pool's claims stay in order |
| `MatchPool.MatchDialog.ConcludePool` | src/stores/catalog-store.ts:1266-1271 | The pool that owns the dialog hands over its rows, one for every track in order, each choice among its options; any other shows nothing. Every pool's claims stay in order |
| `MatchPool.MatchDialog.CloseDialog` | src/stores/catalog-store.ts:1380-1384 | No pool owns the dialog any more, unless an import is under way. Every pool's claims stay in order |
| `MatchPool.MatchDialog.SetChoice` | src/stores/catalog-store.ts:1272-1278 | One row's choice changes; its options, every other row and the counter stay. Every pool's claims stay in order |
| `MatchConfirm.ConfirmMatches` | src/stores/catalog-store.ts:1281-1374 | The outcome is the imported count and the failures that the functions of the rows give, at any abort point |
| `MatchConfirm.ConfirmConserves` | src/stores/catalog-store.ts:1281-1374 | Imported and failures together are the rows, less the choices that name no option and what the jobs did not report |
| `MatchConfirm.NoRowIsLost` | src/stores/catalog-store.ts:1281-1374 | If every choice is one of its row's options and every job reports each track it was sent, imported and failures together are exactly the rows |
| `MatchJobs.NoRowIsLostExactlyWhen` | src/stores/catalog-store.ts:1281-1374 | When each group is imported by a job that a run of the import machine starts with the group's source and ids and brings to its end, and no job accounts for more tracks than it was sent, every row with a listed choice is counted as imported or as a failure if and only if the end of each job accounts for all of its group |
| `MatchJobs.JobKeepsItsIds` | src/stores/catalog-store.ts:1391-1434 | A job started for a source and ids still is of that source, with all those ids active, just before it ends, whatever happens in between |
| `MatchJobs.RejectionLosesOpenTracks` | src/stores/catalog-store.ts:1425-1433 | A job with distinct ids whose command is rejected leaves out of its counts exactly the tracks still open at that point, in runs in which no event names a track that is unknown or done and no status reply asks for decisions |
| `MatchExamples.RejectedStartLosesRow` | src/stores/catalog-store.ts:1281-1374 | One row with one option, chosen, whose job the backend refuses: imported and failures together are 0 |
| `MatchExamples.UnlistedChoiceLosesRow` | src/stores/catalog-store.ts:1281-1374 | Of two rows one is imported by a job that reports it and the other's choice names none of its options: imported and failures together are 1 |
| `MatchJobs.ReportCounts` | src/stores/catalog-store.ts:406-481 | What the store shows at the end of a job that was started for these ids counts what the final report lists, or, when the job's command was rejected, the tracks known as imported and the failures noted before |
| `MatchConfirm.RowBrings` | src/stores/catalog-store.ts:1281-1300 | A row brings the first of its options that has the chosen key; one without a choice is a failure, skipped or without a candidate; one whose choice names no option is neither |
| `MatchConfirm.RowsBring` | src/stores/catalog-store.ts:1281-1327 | What the rows bring together is what each brings, in their order |
| `MatchConfirm.LossesAre` | src/stores/catalog-store.ts:1281-1374 | The failures are exactly those that a group's import reported, and each item of a group not begun any more, as cancelled |
| `MatchConfirm.GroupingKeepsItems` | src/stores/catalog-store.ts:1322-1327 | Grouping by source loses and doubles no item |
| `MatchConfirm.GroupsAreBySource` | src/stores/catalog-store.ts:1322-1327 | There is one group for each source, and it holds all the source's items in the order they were chosen |
| `CdgCoordinator.SingleFlightLatestWins` | src/hooks/use-cdg-sync.ts:95-208 | At most one chain is out, a waiting request has one ahead of it and is the newest since the last invalidation; if none waits the newest was the last one sent |
| `CdgCoordinator.DiscardNeverFires` | src/hooks/use-cdg-sync.ts:106-112 | The discard of an outdated waiting request never happens |
| `CdgCoordinator.CallbacksAreCurrent` | src/hooks/use-cdg-sync.ts:113-190 | A step's callbacks are for the settled request, which must be current, and say what the reply was: a frame is shown with its generation and version and then reported, its absence reported, a failed call made an error, and each status outcome reported with its availability or none; a chain that goes on calls nothing back |
| `CdgCoordinator.NoCallbackAfterInvalidation` | src/hooks/use-cdg-sync.ts:199-207 | From any state in which a request is outdated, no run adds a callback for it, even one like those it had before |
| `CdgCoordinator.NewestIsIssued` | src/hooks/use-cdg-sync.ts:95-194 | From any reachable state, once two calls have settled, or none is out, with nothing asked for in between, the newest request is the last one sent and nothing waits |
| `CdgCoordinator.WaitingRequestGoesOut` | src/hooks/use-cdg-sync.ts:95-120 | A settlement moves the chain to its one further stage or sends the waiting request |
| `CdgCoordinator.Coordinator.AskFor` | src/hooks/use-cdg-sync.ts:197-200 | One chain is out afterwards; the request is it, and sent, if nothing was in flight, else it waits in place of any other and nothing is sent; no callback is made. At most one chain is out and what waits has one ahead of it |
| `CdgCoordinator.Coordinator.InvalidateAll` | src/hooks/use-cdg-sync.ts:201-207 | Nothing waits, every request ever sent is outdated, and what is out stays out. At most one chain is out and what waits has one ahead of it |
| `CdgCoordinator.Coordinator.SettleChain` | src/hooks/use-cdg-sync.ts:113-194 | A current chain makes exactly the callbacks its outcome calls for, each said by itself: a frame with its generation and version and then that there is one, that there is none, an error, or an availability or none; any other chain makes none; what goes out next is the newest request and the only chain; with nothing in flight the newest request was the last one sent. At most one chain is out and what waits has one ahead of it |
| `SongSort.SongsAreOrdered` | src/lib/song-sort.ts:53-83 | In every mode the comparison is a total preorder whose ties have equal hashes |
| `SongSort.DecoratedAgrees` | src/lib/song-sort.ts:95-195 | The decorated comparison of two decorated songs is the comparison of the songs |
| `SongSort.SortIsPlainSort` | src/lib/song-sort.ts:196-203 | Sorting decorated songs gives what sorting the songs would give |
| `SongSort.SortedSongs` | src/lib/song-sort.ts:196-203 | The result is a permutation of the songs, and any song may stand before a later one: the more recent import first, or the text that sorts first with blanks last and buckets before the collator, then the next key for what ties, and the smaller hash at the end |
| `SongSort.OrderExactlyWhen` | src/lib/song-sort.ts:53-83 | One song compares at most equal to another if and only if it may stand before it: key by key, said of the import times, the normalised texts, their buckets and the hashes themselves |
| `SongSort.BucketExactlyWhen` | src/lib/alphabet-index.ts:44-77 | The bucket of a text is a letter if and only if it is the pinyin initial of its Han character, or its first character without marks in capitals, and a letter from A to Z; otherwise it is # |
| `Ordering.StringsAre` | src-tauri/src/release_evidence.rs:162-166 | A string sorts before another if it is a prefix of it or smaller at the first character in which they differ |
| `SongSort.SortIsCanonical` | src/lib/song-sort.ts:196-203 | Songs with distinct hashes come out alike whatever order they came in |
| `AlphabetIndex.BuildAlphabetIndex` | src/lib/alphabet-index.ts:79-93 | The index maps exactly the buckets present to their first position |
| `AlphabetIndex.IndexIsUnique` | src/lib/alphabet-index.ts:79-93 | That description has one solution |
| `AlphabetIndex.ResolveBucket` | src/lib/alphabet-index.ts:95-124 | The landing is the nearest bucket present, the following one on ties, and there is one unless the index is empty |
| `AlphabetIndex.OrderRespectsBuckets` | src/lib/song-sort.ts:23-38 | A song that sorts before another is in no later bucket |
| `AlphabetIndex.BucketsAreBlocks` | src/lib/alphabet-index.ts:79-93 | In the sorted list each bucket is one block, the index points at its start, and everything before is in smaller buckets |
| `AlphabetIndex.JumpTo` | src/lib/alphabet-index.ts:79-124 | Sorting, indexing and resolving together land at the start of the nearest bucket's block |
| `CompanionRomanization.CountTimestampPairs` | src/lib/lyrics-companion-romanization.ts:34-48 | The first pass counts the pairs |
| `CompanionRomanization.TakeOut` | src/lib/lyrics-companion-romanization.ts:68-90 | The second pass keeps and absorbs what the recursive description says |
| `CompanionRomanization.SplitCompanionRomanization` | src/lib/lyrics-companion-romanization.ts:50-98 | The split is taken if and only if at least three lines, and at least half of those not in Latin script, have a Latin, untimed line at most 50 ms apart behind them; it keeps, in order, the lines that are not such a line, each with the trimmed text of the one behind it, and is complete exactly if every line that is not Latin has one; otherwise the lines are unchanged |
| `CompanionRomanization.PartsAre` | src/lib/lyrics-companion-romanization.ts:68-90 | What stays, at which positions and with which transcription, for all lists of lines |
| `CompanionRomanization.PassesAgree` | src/lib/lyrics-companion-romanization.ts:34-98 | The lines absorbed are the right-hand members of the pairs counted: lines kept and pairs together are the lines |
| `CompanionRomanization.NoPrimaryIsLost` | src/lib/lyrics-companion-romanization.ts:68-90 | Every line that needs romanization is kept, in order |
| `CompanionRomanization.TranscriptionsFit` | src/lib/lyrics-companion-romanization.ts:68-90 | Each kept line has one transcription, and those taken are the absorbed lines |
| `CompanionRomanization.CompleteExactlyWhen` | src/lib/lyrics-companion-romanization.ts:92-97 | The split is complete if and only if there are as many pairs as lines that need one |
| `CompanionRomanization.InterleavingRestores` | src/lib/lyrics-companion-romanization.ts:50-98 | Putting the transcriptions back between the lines gives the input up to trimming |
| `ReleaseEvidence.ValidateArtifacts` | src-tauri/src/release_evidence.rs:408-447 | Accepts exactly well-formed artifacts with distinct keys |
| `ReleaseEvidence.ValidateFragment` | src-tauri/src/release_evidence.rs:93-154 | Accepts exactly well-formed fragments whose status is their assertions' |
| `ReleaseEvidence.CheckFragments` | src-tauri/src/release_evidence.rs:173-213 | Accepts exactly the lists whose fragments are all well formed, of the subject and for a required target, and of which no two repeat a fragment's or an artifact's key; accepted, the counts are each target's fragments and the artifacts are theirs in order (whether every target is there is for the counts to say) |
| `ReleaseEvidence.Aggregate` | src-tauri/src/release_evidence.rs:158-238 | The result is that of the specification, errors included |
| `ReleaseEvidence.ValidateEvidence` | src-tauri/src/release_evidence.rs:240-255 | Accepts exactly evidence that is its own fragments' aggregate |
| `ReleaseEvidenceAnswers.ArtifactsExactlyWhen` | src-tauri/src/release_evidence.rs:408-447 | Artifacts are accepted if and only if each has a name, target and file that are not blank, a digest of 64 hexadecimal digits and no empty signature, and no two have the same target and name |
| `ReleaseEvidenceAnswers.FragmentExactlyWhen` | src-tauri/src/release_evidence.rs:93-154 | A fragment is accepted if and only if it is of schema 1 with nothing blank, asserts something, uses known ids once each, is passed exactly when nothing failed and there is no error, and has well-formed artifacts for its own platform |
| `ReleaseEvidenceAnswers.AggregatesExactlyWhen` | src-tauri/src/release_evidence.rs:158-224 | Fragments aggregate if and only if they are four well-formed ones of this subject, one for each required target |
| `ReleaseEvidenceAnswers.AggregateAnswers` | src-tauri/src/release_evidence.rs:216-238 | The aggregate, field by field: its status, the fragments in order of their platforms, and exactly their artifacts, strictly in order of target and name |
| `ReleaseEvidenceAnswers.EvidenceExactlyWhen` | src-tauri/src/release_evidence.rs:240-255 | Evidence is valid if and only if its fragments are one for each target and the document is what they show, field by field; nothing of it is left open |
| `ReleaseEvidenceAnswers.ManifestAnswers` | src-tauri/src/release_evidence.rs:266-300 | Each signed file that is no signature file is offered under its target, with its signature, Windows under its second name too, and no other name is listed |
| `ReleaseEvidenceAnswers.OneEachExactlyWhen` | src-tauri/src/release_evidence.rs:266-305 | That no target has two signed files, and that there is one at all, said of the files themselves |
| `ReleaseEvidence.AggregationIsCanonical` | src-tauri/src/release_evidence.rs:158-238 | Two orders of the same fragments aggregate to the same result or both fail |
| `ReleaseEvidence.SuccessMeans` | src-tauri/src/release_evidence.rs:158-238 | Success is one fragment for each required target; the artifacts are the fragments' disjoint union strictly sorted by target and name; the status is passed if and only if no fragment holds a failure |
| `ReleaseEvidence.AggregationCanSucceed` | src-tauri/src/release_evidence.rs:158-238 | One passed, known assertion for each required target is evidence that aggregates, so what success means is not empty |
| `ReleaseEvidence.AggregateIsFixedPoint` | src-tauri/src/release_evidence.rs:240-255 | Aggregating an aggregate's fragments gives it again, so it passes its own validation |
| `ReleaseEvidence.LatestPlatforms` | src-tauri/src/release_evidence.rs:266-300 | There is a manifest if and only if some artifact is a payload and no target has two; it lists each payload under its target, Windows under its alias too, and nothing else |
| `ReleaseEvidence.LatestJson` | src-tauri/src/release_evidence.rs:266-314 | The same, for valid evidence and for no other |
| `AirPlayTap.AirPlayAudioBuffer.constructor` | src-tauri/src/airplay_stream.rs:81-87 | An empty ring of at least one slot |
| `AirPlayTap.AirPlayAudioBuffer.Push` | src-tauri/src/airplay_stream.rs:93-105 | The ring accepts the chunk, a full one losing its oldest |
| `AirPlayTap.AirPlayAudioBuffer.Drain` | src-tauri/src/airplay_stream.rs:107-118 | Returns the queue in order and leaves it empty |
| `AirPlayTap.AirPlayAudioTap.PushInterleaved` | src-tauri/src/airplay_stream.rs:54-69 | Nothing for empty samples or a busy buffer, else one chunk of the current epoch |
| `AirPlayTap.AirPlayAudioTap.ForwardOnce` | src-tauri/src/airplay_stream.rs:438-462 | One round of the forwarder sends what the epoch filter selects of what it drained |
| `AirPlayTap.DrainReturnsNewest` | src-tauri/src/airplay_stream.rs:93-118 | Whatever was accepted since the last drain, the next one returns the newest chunks in order, as many as fit |
| `AirPlayTap.DrainBringsNewest` | src-tauri/src/airplay_stream.rs:54-118 | The same over every run of pushes, epoch changes and drains |
| `AirPlayTap.AcceptedIsOffered` | src-tauri/src/airplay_stream.rs:54-79 | Over every run the tap accepts exactly the samples that are there when the buffer is free, in order, each chunk in the epoch begun last before it, and the epoch counts the changes |
| `AirPlayTap.ForwardedInOrder` | src-tauri/src/airplay_stream.rs:121-143 | What is forwarded is a subsequence of what was drained, and that of what was accepted; its epochs never go back |
| `AirPlayTap.NewestEpochIsForwarded` | src-tauri/src/airplay_stream.rs:121-143 | Every drain that brings anything forwards all its chunks of the newest epoch, each as often as it came, and no others |
| `RateLimiter.TrailingRateLimiter.Call` | src/lib/rate-limit.ts:45-57 | The offer is delivered exactly when an interval has passed, and then an interval after the last delivery; else it waits, the newest, with a timer due exactly an interval after the last delivery, unless one was set already. Every promise about the limiter's history is kept |
| `RateLimiter.TrailingRateLimiter.Fire` | src/lib/rate-limit.ts:35-42 | A timer that fires delivers the newest offer, an interval after the last delivery, and nothing waits. Every promise about the limiter's history is kept |
| `RateLimiter.TrailingRateLimiter.Flush` | src/lib/rate-limit.ts:59-66 | What waited is delivered; the newest offer has been delivered or was cancelled. Every promise about the limiter's history is kept |
| `RateLimiter.TrailingRateLimiter.Cancel` | src/lib/rate-limit.ts:68-72 | Nothing waits, nothing was delivered, and the offer that waited never is. Every promise about the limiter's history is kept |
| `RateLimiter.ArmedWhilePending` | src/lib/rate-limit.ts:30-43 | A timer is armed if and only if a value is pending, and is due an interval after the last delivery, so a timer that fires always delivers |
| `RateLimiter.SpacedBy` | src/lib/rate-limit.ts:24-57 | Deliveries with no flush among them are an interval apart each |
| `RateLimiter.DeliveredInOrder` | src/lib/rate-limit.ts:7-75 | Deliveries are offers in the order offered, each at most once, with the value offered, and never a cancelled one |
| `RateLimiter.NewestOfferIsKept` | src/lib/rate-limit.ts:45-72 | The newest offer is delivered, cancelled, or waiting with its timer set |
| `RateLimiter.FlushDeliversNewest` | src/lib/rate-limit.ts:59-66 | After a flush nothing waits and the newest offer, unless cancelled, has been delivered |
| `CoverArt.CoverArtUrlCache.RetainCoverArtUrl` | src/lib/cover-art.ts:86-137 | The URL returned is live and cached under the key, with the digest given, with one holder more for the same picture or with one holder for a new one, whose predecessor is dead; no other entry changes; none exactly without a picture. The live URLs stay the cached ones |
| `CoverArt.CoverArtUrlCache.ReleaseCoverArtUrl` | src/lib/cover-art.ts:139-163 | A dead URL is let go without effect; a live one of the key loses one holder, and dies with its entry when it had one left; no other entry changes. The live URLs stay the cached ones |
| `CoverArt.CoverArtUrlCache.InvalidateCoverArtUrl` | src/lib/cover-art.ts:165-178 | Of the entries cached before, those of the song are gone and their URLs dead, and every other is unchanged with its URL live. The live URLs stay the cached ones |
| `CoverArt.CountsAreHolders` | src/lib/cover-art.ts:86-178 | Each entry counts its outstanding holders, the live URLs are the cached ones, and none is revoked twice |
| `CoverArt.HeldAndLive` | src/lib/cover-art.ts:86-178 | A held URL is live if and only if its key still caches it |
| `CoverArt.StaleHolderChangesNothing` | src/lib/cover-art.ts:139-163 | Releasing changes nothing if and only if the URL is no longer live, so a stale holder never takes a count from a replacement |
| `CoverArt.NothingLeaks` | src/lib/cover-art.ts:86-178 | Once every holder has released, nothing is cached and every URL made was revoked exactly once |
| `CoverArt.InvalidatesExactly` | src/lib/cover-art.ts:165-178 | For all strings, invalidating a song reaches a key if and only if the key is of that song, or of one whose hash begins with the song's hash and a colon |
| `CoverArt.InvalidatesOnlyTheSong` | src/lib/cover-art.ts:165-178 | So it reaches a song's own sizes and no other song's, if the other's hash has no colon |
| `CoverArt.KeysAreUnique` | src/lib/cover-art.ts:82-84 | No two songs or sizes share a key |
| `CoverArt.NamelessReleaseExactlyWhen` | src/lib/cover-art.ts:149-151 | Releasing without the URL does what releasing with it does if and only if the holder is not stale or the key is gone |
| `CoverArt.NamelessReleaseRevokesHeld` | src/lib/cover-art.ts:149-151 | A run in which a stale holder's nameless release revokes the URL another holder has |
| `WaveformCache.Cache.GetWaveformCache` | src/lib/waveform-cache.ts:27-42 | A hit moves the key to the end and returns its entry, a miss changes nothing |
| `WaveformCache.Cache.SetWaveformCache` | src/lib/waveform-cache.ts:44-67 | Empty peaks are ignored; else the key is last, its entry stored, and what exceeds the capacity gone |
| `WaveformCache.Cache.Shrink` | src/lib/waveform-cache.ts:61-66 | The loop shifts out exactly the excess and deletes its entries |
| `WaveformCache.OrderMatchesMap` | src/lib/waveform-cache.ts:27-67 | The array has the map's keys, each once, and never more than 96 |
| `WaveformCache.RetainedExactlyWhen` | src/lib/waveform-cache.ts:27-67 | A key is retained if and only if it was set or hit and fewer than 96 other keys were since |
| `WaveformCache.HitReturnsLastSet` | src/lib/waveform-cache.ts:27-67 | A hit returns the value last set for the key |
| `WaveformCache.KeysAreUnique` | src/lib/waveform-cache.ts:11-13 | No two songs or bucket counts share a key |
| `EventRuntime.RuntimeEventRuntime.Start` | src/runtime/event-runtime.ts:17-20 | The runtime is active; a new run begins, holding nothing and waiting for its first subscription, unless there is one already. Each function stays held or called once |
| `EventRuntime.RuntimeEventRuntime.Obtain` | src/runtime/event-runtime.ts:23-28 | In the current run exactly the functions obtained so far are held; in any other the function is called at once and once. Each function stays held or called once |
| `EventRuntime.RuntimeEventRuntime.Stop` | src/runtime/event-runtime.ts:32-39 | Nothing is held, and every unlisten function ever obtained has been called exactly once. Each function stays held or called once |
| `EventRuntime.CalledOnceOrHeld` | src/runtime/event-runtime.ts:8-41 | Each unlisten function obtained is held or was called, never both and never twice |
| `EventRuntime.HoldsTheCurrentRun` | src/runtime/event-runtime.ts:17-30 | While active, what is held is exactly what the current run has obtained so far |
| `EventRuntime.AllSubscribed` | src/runtime/event-runtime.ts:17-30 | A current run that waits for nothing holds a listener for every subscription, unless one was refused |
| `EventRuntime.StopLeavesNothing` | src/runtime/event-runtime.ts:23-39 | After a stop every unlisten function obtained has been called, and one still to come is called as it arrives |
| `EventRuntime.OverForGood` | src/runtime/event-runtime.ts:20-30 | A run that was refused a subscription, or is no longer current when its reply comes, asks for nothing more, whatever happens next |
| `EventRuntime.StopsAreNotified` | src/runtime/event-runtime.ts:32-39 | Each stop is notified once, and the run number counts starts and stops |
| `PositionClock.ReduceAuthoritativeSnapshot` | src/playback/position-clock.ts:70-114 | Refused if and only if a newer transport is known; applied, the clock moves on from the snapshot's position if and only if it plays and is not buffering, and otherwise stands there, or where a running clock stood if that is further |
| `PositionClock.ReducePositionEvent` | src/playback/position-clock.ts:116-154 | Refused on mismatched generations; else it does to the clock what its snapshot would, and a snapshot that differs only in position and buffering keeps the position it had |
| `PlaybackSession.Session.TryApplyAuthoritative` | src/playback/session.ts:128-137 | Applied if and only if no newer transport is known; then the clock has the snapshot, is anchored right, and has not gone back in stopping. Nothing published goes back that did not before |
| `PlaybackSession.Session.ApplyPosition` | src/playback/session.ts:186-191 | What an event publishes is anchored right and has not gone back in stopping. Nothing published goes back that did not before |
| `PlaybackSession.Session.ReplaceClock` | src/playback/session.ts:178-180 | The one way to break the order of what was published: it stays if and only if the new clock is no older than any of it |
| `PlaybackSession.Session.ResumeReplied` | src/playback/session.ts:281-294 | Applied as playing, whatever it says: the clock runs on from the reply's position if and only if the transport is not buffering. Nothing published goes back that did not before |
| `PlaybackSession.Session.PauseReplied` | src/playback/session.ts:296-309 | Applied as not playing, whatever it says: the clock stands, no further back than it was. Nothing published goes back that did not before |
| `PlaybackSession.Session.VolumeReplied` | src/playback/session.ts:338-371 | The reply's snapshot is published; position and anchor stay, and a clock anchored right stays so if and only if the reply plays as its transport does. Nothing published goes back that did not before |
| `PlaybackSession.Session.StemsReplied` | src/playback/session.ts:168-172 | Stems for a song that is no longer current change nothing, others are applied. Nothing published goes back that did not before |
| `PlaybackSession.Session.StartReplied` | src/playback/session.ts:161-172 | The reply is published and stems are asked for next if and only if the song is local and separated and the transport has loaded it without them. Nothing published goes back that did not before |
| `PlaybackSession.Session.SeekReplied` | src/playback/session.ts:325-336 | A seek succeeds if and only if its reply is not stale, and then the clock is at the reply's song and generation. Nothing published goes back that did not before |
| `PlaybackSession.BeginsExactlyWhen` | src/playback/session.ts:146-384 | Which request each action makes first, and with which song |
| `PlaybackSession.BeginsNothingExactlyWhen` | src/playback/session.ts:193-384 | The actions that ask for nothing: each with its condition on the clock and the queue |
| `PlaybackSession.ContinuesExactlyWhen` | src/playback/session.ts:146-172 | A reply is followed by another request exactly for a song that had to be prepared, and for the stems of a separated song that has loaded without them and is no video |
| `PlaybackSession.GenerationNeverDecreases` | src/playback/session.ts:123-137 | Over every interleaving, clock replacement aside, each published transport generation is at least the ones before it |
| `PlaybackSession.AnchoredExactlyWhen` | src/playback/session.ts:338-371 | From a clock that is anchored right, what a step publishes is too, if and only if it is not a volume reply that plays where the clock's transport does not, or does not where it plays |
| `PlaybackSession.RunAnchoredExactlyWhen` | src/playback/session.ts:123-191 | Every clock of a run is anchored right if and only if each volume reply applied plays exactly when the transport of the clock it meets does |
| `PlaybackSession.StopMovesBackExactlyWhen` | src/playback/position-clock.ts:70-87 | A step that stops a running clock keeps the position shown from moving back, except exactly when it is a volume reply and time has passed since the anchor |
| `PlaybackSession.VolumeReplyMovesBack` | src/playback/session.ts:348-355 | A run in which a volume change answered by a paused transport takes the position from ten seconds back to zero |
| `PlaybackSession.LateRepliesChangeNothing` | src/playback/session.ts:168-172 | A reply of an older transport, and stems for a song no longer current, change nothing |

## Left out

- CatalogBrowseTheorems.SearchesAreServerPages: speaks of the runs in which a search for more goes on with the query shown; `SearchMoreMixesQueries` shows that condition to be needed, and `SearchesAreLinked` what holds without it.
- CatalogImportProofs.FinishedStaysFinished: speaks of the runs without the two steps that `RevivedExactlyWhen` names as the only ones that bring a finished job back.
- Catalog: playlists of a source, registries, the package market, tabs, drafts, selections and the video and preview lists, which have no rule of their own beyond those shown for the liked list.
- Catalog: single playable matches (`findPlayableMatch`, `confirmPlayableMatch`), apart from the import they start.
- Catalog: source ids are free of `:`, so a token's key is a pair of source and operation.
- Catalog: the sources' parts of a search everywhere start in steps of their own, at any later time; this allows every order the original has, and more.
- Catalog: error values are a kind and a message; notifications and thrown errors are not modelled.
- Import: job ids are fresh at every start, as random ids are taken to be.
- MatchConfirm.ConfirmMatches: each job's report and the moment of an abort are parameters, which `MatchJobs` ties to the import machine; a competing import that starts in between, and adding the songs to a playlist afterwards, are not modelled.
- CdgCoordinator: callbacks that call the coordinator back, and backends that throw before returning a promise, are not modelled; nor are callbacks that throw, where an `onProbeResolved` that throws in the status reply is called a second time by the catch around it (use-cdg-sync.ts:153-180).
- MatchJobs.RejectionLosesOpenTracks: speaks of runs in which no track event names a track that is unknown to the job or done already, and no status reply asks for decisions; with such events the active tracks are no longer the ids the job was started with, or a counted track is open again.
- SongSort: the collator is an abstract total preorder, normalisation an idempotent function, and grapheme segmentation, the Han test, pinyin initials, mark removal and capitals are functions given by the platform; hashes compare by code point, not UTF-16 unit; the built-in sort is the stable sort.
- CompanionRomanization: script detection is a parameter; timestamps are mathematical numbers.
- ReleaseEvidence: error messages are one error; files, digests, JSON, checksums, and the table of known assertion ids are data or parameters; the manifest's URLs, notes and date are left out.
- AirPlayTap: the 64-bit epoch does not wrap; the forwarder's calls into the player and its sleeps are left out; the lock is one step, or a push that finds it taken.
- RateLimiter: the clock never goes back and timers are never early; the callback returns normally. A callback that calls the limiter again is an event after the one that called it, since running it is the last thing each does.
- CoverArt: making the picture's bytes, type and digest; missing bytes and missing browser support are one case, the absent digest.
- WaveformCache: bucket counts are natural numbers; `bucketsForRailWidth` is left out.
- EventRuntime: unlisten functions return normally and do not call the runtime back, and each subscription gives a function of its own, distinct from every other.
- PlaybackSession: history and queue are what the caller gets from them; the session promises nothing of their contents.
- PlaybackSession.GenerationNeverDecreases: leaves `replaceClock` aside, which sets any clock.
- PositionClock: milliseconds are real numbers; `selectSyncDisplayPositionMs` is left out.
- User interface, inter-process calls, HTTP, sockets, credentials and the audio engine are not part of this model.
