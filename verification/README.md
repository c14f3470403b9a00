# HarnessHub: models and proofs of its stateful and list-processing code

HarnessHub runs agents behind one gateway. This project models, in Dafny, the parts of its console,
command line and conformance clients that hold real algorithms or protocols, and proves what they
keep over every input, every run or every interleaving. Code that updates fields, refs, buffers or
lists in place is a class or a loop here, proved against a specification function; the laws are
lemmas about those functions.

| file | what it models |
|---|---|
| `TaskView.dfy` | the console's task view: overlapping refreshes, selections and submissions that race to update one list of runs, kept consistent by two counters |
| `RunEvents.dfy` | the events held for a run: a cursor per run, a paging loop, a 40 ms batched event stream, aborts and reconnects over an append-only log |
| `RunCache.dfy` | run details loaded through a cache, many loads at once, and histories merged by id |
| `LogPoller.dfy` | the log view's cursor and token per source |
| `EditDistance.dfy` | "did you mean": the one-row dynamic program, and the names it suggests |
| `FirstRun.dfy`, `FirstRunLaws.dfy` | the first-run wizard against a daemon, and what every run of it keeps |
| `FirstRunContents.dfy`, `FirstRunProvider.dfy` | what a run wires, asks and reports, what it writes of the provider, and when it is done |
| `ChatStream.dfy`, `GeminiStream.dfy`, `ResponsesReplay.dfy` | answers assembled from deltas, read whole, and sent back |
| `CommandLine.dfy` | common options moved from before the command to after its arguments |
| `Budgets.dfy`, `Overrides.dfy`, `Decimal.dfy` | key quotas and model overrides printed and read back, with JavaScript's number format (section 6.1.6.1.20 of ECMA-262) |
| `RuleList.dfy` | a route group's rules edited by splices |
| `TerminalLoop.dfy` | the terminal program's listeners, key queue and single end |
| `AssetPath.dfy` | stored paths of moved runtime assets, with `..` stopping at the file system's root |
| `Seqs.dfy`, `Text.dfy`, `CodeUnits.dfy`, `Optional.dfy` | stable sorting, strings, UTF-16 code units and absent values, shared |

The concurrent parts are transition systems: each piece of code between two awaits is one step, and
responses, failures, aborts, timers and other clients are steps that may come in any order. The
daemon, the vendors and the person at the terminal are parameters or small contracts: in `FirstRun`,
`Apply` says what each accepted call changes (a provider is stored as it was sent; wiring stores the
model and any given tiers, makes the key active and removes drift; absent choices stay), a preview's
plan is unchanged exactly when wiring would alter nothing, and a wiring whose confirmed plan is no
longer the current one is refused. Besides, any set of calls may be refused, the connection may break at
any set of calls, each of which may have taken effect or not, and the reads may fail.

## Where the code and its own words differ

The models follow the code. Five results show where it does not keep what its comments, or a reader,
would have it keep, each with the exact condition under which it does:

- A run can be listed twice after a submission: when a refresh had already shown it
  (`TaskView.RunListedTwice`; `TaskView.RunsAreListedOnce`).
- A run can be put among another task's runs: when a task that it is not part of was opened while the
  submission was pending (`TaskView.RunStrays`; `TaskView.RunsAreOfTheOpenTask`).
- A key typed ahead of a call is handled after it when it still waits as the call starts, for instance
  when it came in the same chunk as the key that starts the call, though a comment at
  packages/cli/src/tui.ts:128-129 says that a `y` typed ahead never confirms
  (`TerminalLoop.TypedAheadIsHandled`; `TerminalLoop.TypedAheadExactly`).
- The comment at packages/cli/src/tui.ts:62-66 says that the terminal is always restored before the
  promise settles. It stays in raw mode when opening the screen throws between setting raw mode and
  setting the flag that `restore` looks at, and when `restore` throws before it leaves raw mode
  (`TerminalLoop.RawModeStaysAfterOpening`, `TerminalLoop.RawModeStaysAfterTheEnd`;
  `TerminalLoop.TerminalIsRestored`). When `restore` throws once the screen had opened, the promise
  never settles (`TerminalLoop.SettlesExactly`).
- Without a terminal, a wrong tier is found only after the provider was written, unlike every other
  mistake in the wizard's options, though a comment at packages/cli/src/init.ts:501 says that every
  answer is checked before anything is added (`FirstRunLaws.TierFoundTooLate`;
  `FirstRunLaws.TiersFailLate`, `FirstRunLaws.FailsBeforeWriting`).

## Model

| member | source | states |
|---|---|---|
| `TaskView.Page.constructor` | packages/console/components/console.tsx:189-191 | the page opens on a selection with no runs shown and both counters at zero |
| `TaskView.Page.Select` | packages/console/components/console.tsx:350-363 | opening a task shows no runs and makes every earlier refresh too old |
| `TaskView.Page.BeginRefresh` | packages/console/components/console.tsx:434-436 | a refresh takes the next number before it awaits anything |
| `TaskView.Page.Settle` | packages/console/components/console.tsx:437-464 | a response is shown, a session's in order of creation, unless another task is open or something newer was shown; otherwise nothing changes |
| `TaskView.Page.Accept` | packages/console/components/console.tsx:723-730 | an accepted submission opens its session if the form was elsewhere, outdates every refresh begun before it, and appends the run |
| `TaskView.ArrangedShows` | packages/console/components/console.tsx:441-456 | a response's runs are all shown, a session's by creation and stably, a workflow's as listed |
| `TaskView.RequestsStep` | packages/console/components/console.tsx:434-470 | a refresh is in flight under its number until it responds or is aborted, and its response is settled under that number |
| `TaskView.NextKeepsInv` | packages/console/components/console.tsx:350-363 | every step keeps the invariant: `viewApplied` is the number of the last step that wrote the runs, those numbers strictly increase, refreshes have distinct numbers, and any response that could still be shown has every submitted run |
| `TaskView.ReachableIsConsistent` | packages/console/components/console.tsx:434-470 | that invariant holds in every reachable state, over every interleaving of selections, refreshes, responses, aborts and submissions |
| `TaskView.StaleIsForever` | packages/console/components/console.tsx:437-458 | a refresh found too old stays so over any further steps, so the check halfway refuses nothing the last check would accept |
| `TaskView.OldResponsesAreNeverShown` | packages/console/components/console.tsx:457-459 | whatever a request in flight at a selection or submission answers, and however much later, it changes nothing shown |
| `TaskView.SubmittedRunStays` | packages/console/components/console.tsx:723-730 | with a server run list that only grows, a run submitted into the open task is shown until another task is opened, whatever responses arrive in whatever order |
| `TaskView.StepKeepsOfTask` | packages/console/components/console.tsx:723-728 | a step keeps every shown run one of the open task's if and only if it is not a submission, begun in its session, that lands while a task without its run is open |
| `TaskView.RunsAreOfTheOpenTask` | packages/console/components/console.tsx:350-363 | over every run from the page's opening, on any server: in every state the shown runs are the open task's if and only if no step is such a submission |
| `TaskView.StepKeepsNoRepeats` | packages/console/components/console.tsx:727-728 | a step keeps the shown runs without repeats if and only if it is neither a submission whose run a refresh already shows nor a shown response that lists a run twice; sorting brings in no repeat and hides none |
| `TaskView.RunsAreListedOnce` | packages/console/components/console.tsx:434-470 | over every run from the page's opening: in no state a run is shown twice if and only if no step is such a submission or such a response |
| `TaskView.RunListedTwice` | packages/console/components/console.tsx:728 | a reachable run of steps that lists one run twice |
| `TaskView.RunStrays` | packages/console/components/console.tsx:723-728 | a reachable step of that kind, which puts a run among another task's |
| `RunEvents.EventStore.MergeEvents` | packages/console/components/console.tsx:398-418 | a batch raises its run's cursor to its highest number, adds exactly the events not held, sorted, and leaves every other run alone |
| `RunEvents.MergedHas` | packages/console/components/console.tsx:407-417 | what is held after a merge is what was held and the batch's unknown numbers, strictly increasing |
| `RunEvents.HighestIsOneOfThem` | packages/console/components/console.tsx:400-406 | the new cursor is the greatest of the old one and the numbers of the batch, in whatever order it comes |
| `RunEvents.MergedOfAny` | packages/console/components/console.tsx:407-417 | in whatever order a batch comes, nothing held is lost, exactly the unknown numbers are added, and the result is sorted |
| `RunEvents.MergeExtends` | packages/console/components/console.tsx:398-418 | merging any segment of the log that starts at or below the cursor leaves exactly the log up to the higher of both ends: no gap, no repeat, however segments overlap |
| `RunEvents.EventStore.MergeSegment` | packages/console/components/console.tsx:398-418 | such a merge keeps the store's events equal to the committed ones up to its cursor |
| `RunEvents.Requests.Events` | packages/console/components/console.tsx:489 | each request is numbered and recorded with the cursor it asked for; exactly those of a given set fail or are aborted, and any other answers a page |
| `RunEvents.ReadPage` | packages/console/components/console.tsx:489-492 | one request, with others appending and merging while it is out: its page is held when it is back, and a page of events moves the cursor on |
| `RunEvents.CatchUp` | packages/console/components/console.tsx:485-495 | the paging loop ends, although others append and merge meanwhile. It fails if and only if a request it sent failed or was aborted; otherwise every event up to `lastSeq` is held. Each request asks for what follows the page before it, and none from `lastSeq` on; every page that was answered is held when it returns; what is held stays exactly the committed events up to the cursor, which never goes back |
| `RunEvents.NextKeepsInv` | packages/console/components/console.tsx:566-620 | each append, open, receive, flush and abort keeps the held events equal to the committed ones up to the cursor, and every reader's pending events equal to what comes next after where it started |
| `RunEvents.ReceiveStep` | packages/console/components/console.tsx:566-620 | a reader that receives up to an event holds every committed event after the ones it had, up to that one |
| `RunEvents.FlushShows` | packages/console/components/console.tsx:566-620 | a flush shows everything its reader held, moves the cursor to the reader's place unless it is further, and leaves the reader with nothing |
| `RunEvents.ReceivedIsShown` | packages/console/components/console.tsx:566-620 | an event that a reader received is held after its next flush |
| `RunEvents.HeldAreTheCommitted` | packages/console/components/console.tsx:566-620 | from an empty page over every interleaving of polls, stream batches, aborts and reconnects: the held events are exactly the committed ones up to the cursor, in order and once each, and the cursor never goes back |
| `RunCache.EndedRecordsAreOne` | packages/console/components/console.tsx:420-429 | if the server changes an ended run's record only by adding events or settling its cleanup, then records with the same last event and cleanup are the same |
| `RunCache.Cache.Store` | packages/console/components/console.tsx:430-432 | a fetched record replaces the one of its id, and no other |
| `RunCache.Cache.LoadRun` | packages/console/components/console.tsx:420-433 | with other loads storing older records and the server changing meanwhile, `loadRun` returns a record the run has had since it was summarized; from the cache, exactly when the run has ended and status, last event and cleanup are the same, the summarized record itself; otherwise what the server held when it answered, which is then cached |
| `RunCache.LoadsStep` | packages/console/components/console.tsx:420-433 | a look-up returns the cached record exactly under the condition above and asks the server otherwise; the answer is the record of that moment, and is cached as it arrives |
| `RunCache.NextKeepsInv` | packages/console/components/console.tsx:420-433 | each change, list, look-up, answer, arrival and abort keeps every cached record one its run has had, and every load's record one that is no older than its summary |
| `RunCache.LoadsReturnTheServersRecord` | packages/console/components/console.tsx:420-433 | over every order of those steps with many loads at once: what a load returned is a record its run has had since the summary, and the summarized one itself from the cache or when status, last event and cleanup are still the summary's |
| `RunCache.HitsAreAsFresh` | packages/console/components/console.tsx:420-429 | a cache hit is the record a fetch would answer now if and only if the run's status, last event and cleanup are still the summary's |
| `RunCache.MergeByIdIs` | packages/console/components/console.tsx:138-142 | a merge holds the incoming records and the current ones of other ids, loses no id, and keeps ids unique |
| `RunCache.MergeByIdOrder` | packages/console/components/console.tsx:139-142 | the incoming records come first, and then exactly the current ones of other ids, both in their order |
| `RunCache.MergeByIdIsIdempotent` | packages/console/components/console.tsx:139-142 | merging the same page again changes nothing, order included |
| `LogPoller.LogView.constructor` | packages/console/components/log-panel.tsx:97-114 | both sources start with no cursor, no token and no records |
| `LogPoller.LogView.Begin` | packages/console/components/log-panel.tsx:119-130 | a load starts only without a request out, with a new token and the current cursor |
| `LogPoller.LogView.Finish` | packages/console/components/log-panel.tsx:131-156 | a page moves the cursor and is appended, the newest `KEEP` kept, only when its request holds the token and was not aborted; only the holder gives the token back |
| `LogPoller.AnsweredIs` | packages/console/components/log-panel.tsx:131-156 | the effect of a response, for the holder of the token and for any other: cursor, newest 5000 records, the cut-short flag and the token |
| `LogPoller.LoadsStep` | packages/console/components/log-panel.tsx:118-174 | an idle view asks at its cursor, with the effect's signal on its interval and without one when refreshed by hand; a busy one does not ask |
| `LogPoller.LogView.CleanUp` | packages/console/components/log-panel.tsx:168-173 | leaving frees the token, and changes no records or cursor |
| `LogPoller.AfterKeepsInv` | packages/console/components/log-panel.tsx:118-174 | over every interleaving of writes, mounts, unmounts, polls, manual refreshes, responses and failures: tokens are distinct, the holder was sent at the current cursor, records are distinct places of the log in order, and gaps are announced |
| `LogPoller.AppliedPagesStartAtTheCursor` | packages/console/components/log-panel.tsx:131-133 | a request that holds the token was issued at the current cursor and is not aborted |
| `LogPoller.ShownOnceWithoutGaps` | packages/console/components/log-panel.tsx:133-143 | the shown records are the newest `KEEP` of everything from the first page to the cursor, each once and without a gap, unless a later page was cut short, which the view then announces |
| `EditDistance.Distance` | packages/cli/src/init.ts:147-164 | the row overwritten in place ends with the least length of any insert, delete and substitute script from one string to the other |
| `EditDistance.CostIsLeast` | packages/cli/src/init.ts:147-164 | some script has the recurrence's length, and no script is shorter |
| `EditDistance.RewritesThen` | packages/cli/src/init.ts:147-164 | scripts compose |
| `EditDistance.CostIsZeroExactlyForEqual` | packages/cli/src/init.ts:147-164 | the distance is zero exactly for equal strings |
| `EditDistance.CostIsSymmetric` | packages/cli/src/init.ts:147-164 | the distance is the same both ways |
| `EditDistance.CostTriangle` | packages/cli/src/init.ts:147-164 | the triangle inequality |
| `EditDistance.CostBounds` | packages/cli/src/init.ts:147-164 | the distance lies between the difference of the lengths and the longer length |
| `EditDistance.Candidates` | packages/cli/src/init.ts:146-168 | the first five names, in order, that the given text is a prefix of or within two edits of |
| `EditDistance.CloseIs` | packages/cli/src/init.ts:166-168 | a name is close if and only if it continues the given text or some script of at most two edits leads to it |
| `FirstRun.RebasedEnds` | packages/cli/src/admin.ts:550-557 | no rebased endpoint ends with a slash |
| `FirstRun.MovedStays` | packages/cli/src/init.ts:434-441 | a provider whose endpoints were created or updated to the rebased ones does not differ from `--base` any more |
| `FirstRun.Session.Call` | packages/cli/src/init.ts:537-603 | the daemon's contract: an accepted call changes what `Apply` says, a refused one nothing, a lost one the one or the other, and each is recorded in order |
| `FirstRun.Provide` | packages/cli/src/init.ts:537-577 | the provider is created, or moved and given its missing key, stopping at the first call that fails |
| `FirstRun.PlanEach` | packages/cli/src/init.ts:745-771 | every chosen agent is planned in order, with one preview call for each not wired this way already, stopping at the first that fails |
| `FirstRun.WireEach` | packages/cli/src/init.ts:793-822 | the agents with a changed plan are wired in order with that plan as `expect`; one the daemon refuses is reported and the loop goes on, and any other error ends it |
| `FirstRun.WireChosen` | packages/cli/src/init.ts:606-823 | selection, model, tiers, preview, confirmation and wiring end as the specification of a run says |
| `FirstRun.RunInit` | packages/cli/src/init.ts:368-823 | the wizard's outcome, its effects in order and the daemon's state are those of the function `Run` |
| `FirstRunLaws.WiredOnlyAsShown` | packages/cli/src/init.ts:771-807 | over every run: a wiring sends the changed plan of a preview shown before it, and only with `--yes` or after a yes given after that preview |
| `FirstRunLaws.EveryRunEnds` | packages/cli/src/init.ts:606-823 | over every run: one that is done reports each chosen agent once, in order; one that is not leaves every agent's wiring as it was, unless the connection broke at a wiring call |
| `FirstRunLaws.NoCallIsMadeTwice` | packages/cli/src/init.ts:368-823 | over every run, also with an agent given twice: no two calls are the same, each telling its agent's place, so that any of them may fail on its own |
| `FirstRunLaws.EntriesFollow` | packages/cli/src/init.ts:793-822 | one entry for each planned agent, in order, up to a lost call; `unchanged` exactly without a changed plan; providers stay |
| `FirstRunLaws.WiredEachOnItsOwn` | packages/cli/src/init.ts:793-822 | distinct agents are wired independently, when no call is lost: each accepted one to its plan, each refused one as before, all others untouched |
| `FirstRunLaws.GivenTwice` | packages/cli/src/init.ts:753-821 | an agent given twice is wired once and then reported failed |
| `FirstRunLaws.ByIdsIs` | packages/cli/src/init.ts:328-349 | `chosenAgents` accepts a list exactly when each id names an installed agent, and returns those agents in the order given |
| `FirstRunLaws.DecidesExactly` | packages/cli/src/init.ts:376-535 | without a terminal, the wizard goes on to write exactly when its reads answer, the provider's options are complete and agree with the one that is here, and (when agents can be listed) the agents' are |
| `FirstRunLaws.FailsBeforeWriting` | packages/cli/src/init.ts:376-535 | without a terminal, when the reads answer: a bad preset, region, plan, base, key or agent, or a missing model, fails with nothing written, and nothing else does |
| `FirstRunLaws.TiersFailLate` | packages/cli/src/init.ts:711-718 | with all that in order, a usage error comes exactly from a tier no chosen agent has, and by then the provider is there |
| `FirstRunLaws.TierFoundTooLate` | packages/cli/src/init.ts:711-718 | answers with everything in order but a tier: the run fails with the provider, which was not there, added |
| `FirstRunLaws.WritesSettle` | packages/cli/src/init.ts:537-577 | after its writes the provider agrees with the answers, so that the same answers would write nothing more of it |
| `FirstRunLaws.PlannedAgain` | packages/cli/src/init.ts:745-838 | planned again after the wiring, an agent changes exactly when its wiring failed |
| `FirstRunLaws.RunningAgain` | packages/cli/src/init.ts:368-823 | after a run with `--yes` over distinct agents, the same answers create, move and add nothing and wire only agents that failed, whatever the daemon then refuses, loses or fails to answer; if none failed, the daemon's state differs at most in the provider's models; a second run that is done reports every agent that had not failed unchanged, and it is done when the daemon answers |
| `FirstRunContents.AnswersReachTheAgents` | packages/cli/src/init.ts:618-821 | over every run: every preview, what is shown, every wiring and every entry is for the chosen agent at its place, with the answered model, or else the person's pick among the provider's models, and exactly the given tiers that this agent has |
| `FirstRunContents.AgentsAreChosen` | packages/cli/src/init.ts:618-654 | the chosen agents: all installed ones in the daemon's order, the named ones in the order given, or the typed ones, each once, in the order first typed |
| `FirstRunContents.EntriesAreSo` | packages/cli/src/init.ts:745-821 | over every run that is done: `unchanged` exactly for an agent that was wired this way already; one that is `wired` now has that model, a working key, no drift and the given tiers or those it had; every other agent is wired as before; and each entry is for a plan that was previewed and shown, sent if it changes something, and wired unless it was refused or the agent had just been wired |
| `FirstRunContents.UnchangedExactly` | packages/cli/src/init.ts:766-838 | nothing is to be written for an agent if and only if its wiring has this model, these tiers, a working key and no drift |
| `FirstRunContents.AskedExactly` | packages/cli/src/init.ts:780-792 | over every run: the question is put exactly when what was shown changes something, `--yes` was not given and there is a person; the run is declined, with nothing wired, exactly when it is not agreed to, or where a person stops at a provider that differs |
| `FirstRunContents.YesIs` | packages/cli/src/init.ts:787-788 | a yes is `y` or `yes`, trimmed, in whichever case |
| `FirstRunContents.SelectsExactly` | packages/cli/src/init.ts:618-743 | the selection is made exactly when every named agent is an installed one, the model is given or one of the provider's, and each tier is some chosen agent's |
| `FirstRunContents.DoneExactly` | packages/cli/src/init.ts:368-823 | over every run: it is done exactly when it went on to write, no error of a call ended it, the agents could be listed or the daemon has none, the selection was made, and what was asked was answered with a yes |
| `FirstRunProvider.ChosenIs` | packages/core/src/provider-presets.ts:409-446 | endpoints come from the plan, or else the region, or else the preset; without a choice, the first option's |
| `FirstRunProvider.RebasedAre` | packages/cli/src/admin.ts:550-557 | a rebased endpoint is the base's origin and path followed by the endpoint's path, neither with a slash at its end |
| `FirstRunProvider.MovedDiffers` | packages/cli/src/init.ts:434-441 | exactly the endpoints that differ, but for slashes at the end of what is here, are moved |
| `FirstRunProvider.ProviderAsAnswered` | packages/cli/src/init.ts:376-577 | over every run: each create, move, key and refresh is as it was answered or picked; a run that comes to the models has made each such call there was to make |
| `FirstRunProvider.ProviderAfterwards` | packages/cli/src/init.ts:537-604 | over every run that is done: the provider is as it was sent, or as it was but for its move and its key, with the models that were listed unless the refresh was refused; no other provider changed; and the result says so |
| `FirstRunProvider.GoesOnPastADifference` | packages/cli/src/init.ts:443-498 | a run goes on past a provider that is here only if it is as asked, or a person keeps it, or moves its endpoints with nothing else different |
| `FirstRunProvider.GoesOnExactly` | packages/cli/src/init.ts:376-535 | with a person, the wizard goes on to write exactly when the reads answer and the answers, given or picked, add a provider or can use the one that is here |
| `ChatStream.AddDeltas` | conformance/protocols/clients.ts:158-167 | the innermost loop extends the calls in place, delta by delta |
| `ChatStream.ChatConversation.SendStreamed` | conformance/protocols/clients.ts:145-204 | the nested loops compute the streamed answer, and one assistant message that tells it joins the transcript: its calls in order with names, arguments and ids (empty where none was read), its text unless empty, and its reasoning when there are calls |
| `ChatStream.ChatConversation.SendWhole` | conformance/protocols/clients.ts:172-204 | the whole answer is read, non-function calls dropped, and one message that tells it joins the transcript; without a choice nothing does |
| `ChatStream.ChatConversation.Ask` | conformance/protocols/clients.ts:225-240 | the user's turn, if there is one, is pushed, and then the message that tells the answer to the transcript so far |
| `ChatStream.ChatConversation.AnswerCalls` | conformance/protocols/clients.ts:241-249 | every result is pushed in order with its call's id, and then the message that tells the answer to the transcript so far |
| `ChatStream.ChatConversation.Converse` | conformance/protocols/clients.ts:224-251 | a conversation of such turns, each streamed or not and each chosen from the answers so far, builds the transcript and the answers of the function `Talked`; the assistant messages tell the answers, one each and in order; and when results are sent only for calls of the answer before, each has the id of a call in the assistant message before it |
| `ChatStream.RecordedTells` | conformance/protocols/clients.ts:190-204 | the message pushed for an answer: as many calls, in order, with names, arguments and ids; `null` exactly for empty text; the reasoning exactly when both it and the calls are there |
| `ChatStream.AnswersAreTold` | conformance/protocols/clients.ts:190-251 | over every conversation: the assistant messages tell the answers, one each and in order |
| `ChatStream.ToolsAnswerCalls` | conformance/protocols/clients.ts:190-247 | over every conversation that answers calls of the answer before: each tool message has the id of a call in the assistant message before it |
| `ChatStream.DeltasAssemble` | conformance/protocols/clients.ts:158-167 | the assembled calls are, for each index up to the highest named, that index's pieces joined with its last non-empty id, however the indices are interleaved |
| `ChatStream.CallAtReads` | conformance/protocols/clients.ts:158-167 | an assembled call is its last non-empty id, and the pieces of its name and of its arguments joined in order |
| `ChatStream.StreamedReads` | conformance/protocols/clients.ts:150-170 | text, reasoning, calls, finish and usage depend only on each field's own pieces, not on the chunks they came in |
| `ChatStream.StreamedAgreesWithWhole` | conformance/protocols/clients.ts:144-189 | for an answer of function calls, the streaming branch gives the same answer as the whole-response branch if and only if the deltas join, field by field and index by index, to what the answer says |
| `ChatStream.AnswersCanBeStreamed` | conformance/protocols/clients.ts:144-189 | every answer has a stream that says the same, if and only if no call of it has an empty id |
| `ChatStream.FunctionCallsJoin` | conformance/protocols/clients.ts:180-186 | the calls of a whole answer are read one after the other |
| `ChatStream.ConversationsAgree` | conformance/protocols/clients.ts:190-251 | with a model whose streams say what its whole answers say for every transcript, the transcript and the answers of a conversation do not depend on which turns are streamed |
| `GeminiStream.GeminiConversation.SendStreamed` | conformance/protocols/clients.ts:655-673 | taking the chunks one by one gives the Turn of all of them, and their parts are kept |
| `GeminiStream.GeminiConversation.SendWhole` | conformance/protocols/clients.ts:660-673 | a whole response gives the Turn of its one chunk |
| `GeminiStream.GeminiConversation.Keep` | conformance/protocols/clients.ts:661-695 | the fold over the parts reads text, reasoning and calls in order; the finish reason is the native one translated, `tool_calls` for a stop with calls; the usage adds thoughts to the output |
| `GeminiStream.FoldedReadsAtoms` | conformance/protocols/clients.ts:665-673 | what is read depends only on the code units and whole calls, in order |
| `GeminiStream.CutsDoNotMatter` | conformance/protocols/clients.ts:647-695 | two streams of the same units give the same text, reasoning and calls, and with the same last finish and counts the same Turn |
| `GeminiStream.TakeAllJoins` | conformance/protocols/clients.ts:647-654 | a stream in two pieces: the parts join, the later finish and counts win |
| `GeminiStream.TakeOne` | conformance/protocols/clients.ts:647-654 | one chunk gives its parts, its finish unless empty, and its counts |
| `GeminiStream.FoldedJoins` | conformance/protocols/clients.ts:665-673 | parts are read one after the other |
| `GeminiStream.FoldedOne` | conformance/protocols/clients.ts:665-673 | a part is a call, with its defaults, or else thought or said |
| `GeminiStream.SplittingAChunk` | conformance/protocols/clients.ts:655-660 | splitting one chunk anywhere in a stream, inside a text included, gives the same Turn |
| `ResponsesReplay.ResponsesTurn` | conformance/protocols/clients.ts:308-360 | the loop reads text, reasoning and calls in order, the finish reason from status and details, and the usage |
| `ResponsesReplay.ReplayItems` | conformance/protocols/clients.ts:263-306 | the loop makes the input items, item by item |
| `ResponsesReplay.ReplayKeepsWhatWasRead` | conformance/protocols/clients.ts:263-332 | for every output list, the replayed items read as the output did: text, reasoning and calls with id, name, arguments and kind |
| `ResponsesReplay.ReplayIsIdempotent` | conformance/protocols/clients.ts:263-306 | replaying replayed items changes nothing |
| `ResponsesReplay.ItemsJoin` | conformance/protocols/clients.ts:263-332 | items are read, and sent back, one after the other |
| `ResponsesReplay.OneItemReads` | conformance/protocols/clients.ts:312-331 | what is read of each kind of item |
| `ResponsesReplay.OneItemReplays` | conformance/protocols/clients.ts:263-306 | what is sent back of each kind of item: calls and reasoning whole, but for empty encrypted content, the texts of a message, and nothing else |
| `CommandLine.MoveCommandFirst` | apps/hh/src/main.ts:209-238 | the loop ends and gives the rewriting, or the word that is refused |
| `CommandLine.ScanStopsAfterTheBlock` | apps/hh/src/main.ts:212-231 | a block of common options before a command is taken whole, and nothing after it |
| `CommandLine.ScanFindsABlock` | apps/hh/src/main.ts:212-231 | what is taken before the command is such a block |
| `CommandLine.RewrittenExactly` | apps/hh/src/main.ts:209-238 | a line is rewritten, and to which words, if and only if it splits into common options and a rest that starts with a command |
| `CommandLine.RefusedExactly` | apps/hh/src/main.ts:209-231 | a line is refused for a reason if and only if, behind a block of common options, comes an option that is not one, or `--url` or `--data-dir` without its value, or nothing |
| `CommandLine.OptionsThatTakeTheNextWord` | apps/hh/src/main.ts:192-199 | exactly `--url` and `--data-dir` take the next word |
| `CommandLine.OptionNameIs` | apps/hh/src/main.ts:209-231 | an option word has a name if and only if it is the name, or the name followed by `=` |
| `CommandLine.PlacedKeepsTheWords` | apps/hh/src/main.ts:232-237 | the same words, the options together and in order, the rest in order, split before its first `--` |
| `CommandLine.RewrittenLinesRunAtOnce` | apps/hh/src/main.ts:171-178 | a rewritten line starts with its command, so `main` calls itself at most once |
| `CommandLine.OptionsMayComeFirst` | apps/hh/src/main.ts:163-190 | `main` does the same with options before the command as with them moved behind its arguments |
| `CommandLine.AnsweredExactly` | apps/hh/src/main.ts:163-190 | every outcome of `main`, exactly: usage, version, a refusal with its reason, no or an unknown command, or a command with its words, by the block of options that the line starts with and the word behind it |
| `CommandLine.CommandsGetEveryWord` | apps/hh/src/main.ts:179-190 | a command runs with all the words of the line, its name first; as they were given when it was first there |
| `CommandLine.MovedOptionsAreReadLast` | apps/hh/src/main.ts:201-207 | a command that knows the common options reads the same positionals and the moved options last if and only if no option before the first `--` is left waiting for its value |
| `Decimal.ReadPrint` | packages/cli/src/admin.ts:1022-1025 | what a number prints as, exponent forms included, is accepted and read as that number |
| `Decimal.ReadIsCanonical` | packages/cli/src/admin.ts:1022-1025 | every literal the pattern accepts reads as a number with one printed form |
| `Decimal.ReadIsWorth` | packages/cli/src/admin.ts:1022-1025 | exactly the decimal literals are read, each as the number it stands for: its digits times ten to its exponent less the places of its fraction |
| `Decimal.SafeIs` | packages/cli/src/admin.ts:1027 | a whole number is safe if and only if it is at most 2^53 - 1 |
| `Decimal.ExponentForms` | packages/cli/src/admin.ts:1074-1075 | the printed forms with an exponent, at both ends of the plain range |
| `Decimal.PrintCharacters` | packages/cli/src/admin.ts:1074-1075 | a printed number has no separator of the options, and an exponent exactly outside the plain range |
| `Budgets.ReadBudget` | packages/cli/src/admin.ts:1012-1041 | the loop fills the budget item by item, and refuses at the first bad one |
| `Budgets.PeriodsAre` | packages/cli/src/admin.ts:1013-1018 | the period is `day`, `week` or `month` before the first colon, and anything else is refused |
| `Budgets.ValuedItem` | packages/cli/src/admin.ts:1020-1036 | an item with a value sets the tokens or the cost when that is a safe integer or finite, with what follows a second `=` dropped, and is refused otherwise |
| `Budgets.BareItem` | packages/cli/src/admin.ts:1031-1036 | an item without a value is `cache-reads` or refused |
| `Budgets.ItemsOneByOne` | packages/cli/src/admin.ts:1019-1036 | items are taken one after the other, trimmed, empty ones passed over, up to the first bad one |
| `Budgets.BudgetIs` | packages/cli/src/admin.ts:1012-1041 | what is accepted are the items behind the period, with a cap among them |
| `Budgets.BudgetReads` | packages/cli/src/admin.ts:1069-1079 | a valid budget's printed form reads back as it, a false `cacheReads` as none |
| `Budgets.AcceptedIsValid` | packages/cli/src/admin.ts:1012-1041 | every accepted text gives a budget with a cap, safe tokens and a finite cost |
| `Budgets.PrintingAndReadingAgain` | packages/cli/src/admin.ts:1012-1081 | for every accepted text, printing its budget and reading that gives the same budget |
| `Budgets.QuotaReads` | packages/cli/src/admin.ts:1063-1100 | parsing the options that a valid quota prints gives that quota back |
| `Budgets.QuotaIs` | packages/cli/src/admin.ts:1084-1100 | a quota is refused exactly for a bad budget or a number that is not a positive safe integer; there is none exactly without either option; otherwise it holds them in order |
| `Overrides.SetThenGet` | packages/cli/src/admin.ts:1481-1542 | a set field reads as set, every other field as before, and no empty price object is left by a price edit |
| `Overrides.GetThenSet` | packages/cli/src/admin.ts:1481-1542 | setting a field to what it holds is the identity if and only if there is no empty price object to drop |
| `Overrides.SetThenSet` | packages/cli/src/admin.ts:1527-1542 | the last setting of a field wins |
| `Overrides.DistinctFieldsCommute` | packages/cli/src/admin.ts:1527-1542 | edits of different fields commute, the nested price included |
| `Overrides.FieldsDecide` | packages/cli/src/admin.ts:1481-1487 | normalized values with the same nine fields are the same |
| `Overrides.ValueReads` | packages/cli/src/admin.ts:1490-1524 | a valid value's display reads back as it, is refused (a price with an exponent), or removes the field (an empty list) |
| `Overrides.CountIs` | packages/cli/src/admin.ts:1497-1501 | a count is accepted if and only if it is digits that start with none of them zero, up to 2^53 - 1 |
| `Overrides.NamesAre` | packages/cli/src/admin.ts:1508-1515 | modalities are accepted, trimmed, if and only if each is a known one and none comes twice |
| `Overrides.PairRefused` | packages/cli/src/admin.ts:1624-1634 | a pair is refused without `=`, without a key, and with a key that no field has |
| `Overrides.PairIs` | packages/cli/src/admin.ts:1635-1639 | otherwise its value is set, an empty one removes the field, and one the field does not take is refused |
| `Overrides.DescribedJoins` | packages/cli/src/admin.ts:1555-1561 | the words of an override are those of its fields, one after the other |
| `Overrides.WordsOfPrices` | packages/cli/src/admin.ts:1545-1561 | how prices are printed, each under its own key |
| `Overrides.SetPairs` | packages/cli/src/admin.ts:1624-1640 | the `set` loop folds its pairs from the left and refuses at the first bad one |
| `Overrides.DescribedReads` | packages/cli/src/admin.ts:1555-1561 | what setting a described override's words on an empty one gives, field by field, or that it is refused |
| `Overrides.DescribedRebuilds` | packages/cli/src/admin.ts:1555-1640 | setting the described words on an empty override rebuilds it if and only if it has no empty price object, its prices print without an exponent and a list of modalities is not empty |
| `RuleList.Group.Add` | packages/cli/src/admin.ts:1398-1423 | a rule goes in at the typed place, or at the end, or nothing changes |
| `RuleList.Group.Remove` | packages/cli/src/admin.ts:1424-1433 | the rule at the typed place goes, or nothing changes |
| `RuleList.Group.Move` | packages/cli/src/admin.ts:1434-1442 | two splices move a rule, or nothing changes when a place is refused |
| `RuleList.EveryPlaceCanBeTyped` | packages/cli/src/admin.ts:1375-1382 | the decimal form of a number is accepted exactly when it is a place, and read as it |
| `RuleList.PlacesAreDigits` | packages/cli/src/admin.ts:1375-1382 | zeros before a place do not matter; anything but digits is refused |
| `RuleList.MovedIs` | packages/cli/src/admin.ts:1434-1442 | a moved rule is exactly at its new place, the others keep their order, and none is lost |
| `RuleList.AddThenRemove` | packages/cli/src/admin.ts:1398-1433 | adding at a place and removing that place is the identity |
| `RuleList.MoveBack` | packages/cli/src/admin.ts:1434-1442 | moving back undoes a move |
| `TerminalLoop.Loop.constructor` | packages/cli/src/tui.ts:98-152 | listening, unfinished, and the terminal untouched |
| `TerminalLoop.Loop.Finish` | packages/cli/src/tui.ts:102-118 | the first call removes the listeners and restores the screen, and sets the outcome unless restoring throws; later ones do nothing |
| `TerminalLoop.Loop.Restore` | packages/cli/src/tui/terminal.ts:330-336 | without the flag nothing happens; with it, raw mode ends unless the write or the mode change throws, and what throws comes out |
| `TerminalLoop.Loop.Open` | packages/cli/src/tui.ts:153-159 | opening sets raw mode, then the flag, and may throw before, between and after; a failure ends the loop and rejects the promise, with what restoring throws if it does |
| `TerminalLoop.Loop.OnData` | packages/cli/src/tui.ts:124-135 | a chunk's keys join the queue in order until an interrupt ends the loop with 130; none does during a call |
| `TerminalLoop.Loop.Handle` | packages/cli/src/tui.ts:119-120 | the next key's handler starts unless the loop is finished |
| `TerminalLoop.Loop.OnSettled` | packages/cli/src/tui.ts:121-133 | a quit ends the loop with 0, an error with that error, and anything else only settles the handler; after the end nothing changes but that |
| `TerminalLoop.Loop.OnResize` | packages/cli/src/tui.ts:136-143 | a resize whose drawing throws ends the loop with what it threw; any other changes nothing |
| `TerminalLoop.Loop.OnSignal` | packages/cli/src/tui.ts:144-147 | SIGINT ends the loop with 130, SIGTERM with 143 and the host's exit with 1 |
| `TerminalLoop.DataIs` | packages/cli/src/tui.ts:124-135 | over every chunk: the keys before the first interrupt join the queue unless a call runs, and that interrupt ends the loop |
| `TerminalLoop.ListenersStep` | packages/cli/src/tui.ts:98-152 | in every order of events, each does to the loop what its listener or handler does |
| `TerminalLoop.NextKeepsInv` | packages/cli/src/tui.ts:98-160 | every listener and handler step keeps the invariant of the next rows |
| `TerminalLoop.EveryOrderOfEvents` | packages/cli/src/tui.ts:98-160 | however opening went, over every order of chunks, resizes, signals, exit and handler completions: one end, for the first event that finishes the loop, and keys handled one at a time in the order typed, none that arrived during a call |
| `TerminalLoop.SettlesExactly` | packages/cli/src/tui.ts:102-118 | after the end the promise is unsettled if and only if the screen had opened and restoring it throws; otherwise it has settled with the first outcome, or with what opening or the restoring after it threw |
| `TerminalLoop.NothingStartsAfterTheEnd` | packages/cli/src/tui.ts:102-120 | after the end the outcome stands, no handler starts, nothing listens and the terminal stays as it is |
| `TerminalLoop.TerminalIsRestored` | packages/cli/src/tui.ts:102-118 | at the end the terminal is out of raw mode if and only if opening did not throw between raw mode and the flag, and restoring did not throw before it left raw mode |
| `TerminalLoop.RawModeStaysAfterOpening` | packages/cli/src/tui/terminal.ts:296-303 | an opening that throws after setting raw mode leaves it on and rejects; one that throws at setting it does not |
| `TerminalLoop.RawModeStaysAfterTheEnd` | packages/cli/src/tui/terminal.ts:330-336 | Ctrl+C with a restoring write that throws: whatever comes after, raw mode stays on and the promise never settles |
| `TerminalLoop.QueuedExactly` | packages/cli/src/tui.ts:124-135 | a key is queued if and only if no call is running when its chunk arrives and no interrupt comes before it in the chunk |
| `TerminalLoop.WaitingKeysComeNext` | packages/cli/src/tui.ts:119-135 | a key that waits when a call starts is handled after it, unless the loop ends first or it still waits |
| `TerminalLoop.TypedAheadExactly` | packages/cli/src/tui.ts:128-133 | no key typed before a call starts can be handled after that if and only if none waits then |
| `TerminalLoop.TypedAheadIsHandled` | packages/cli/src/tui.ts:128-133 | an order of events in which a `y` typed with the key that starts a call is handled after it |
| `AssetPath.NamesExactlyTheCheckoutFile` | packages/agents/src/assets.ts:76-85 | for every argument: it names a checkout's file if and only if it is absolute and resolves to the root of this package's checkout followed by the parts, also where `..` stops at the root |
| `AssetPath.AtMostOneMatches` | packages/agents/src/assets.ts:94-99 | an argument names at most one asset |
| `AssetPath.CurrentAssetPathIs` | packages/agents/src/assets.ts:94-99 | an argument that names an asset becomes its current path, any other stays |
| `AssetPath.CurrentPathIs` | packages/agents/src/assets.ts:92-97 | the path it becomes is absolute, resolved, and the asset's below the package's `assets` |
| `AssetPath.CurrentIsCurrent` | packages/agents/src/assets.ts:94-99 | a current path is current: reading it again changes nothing |
| `AssetPath.CommandIsIdempotent` | packages/agents/src/assets.ts:107-108 | a command read twice is the command read once, with as many arguments |

## Left out

- Strings are UTF-16 code units, as JavaScript's are, where they are compared by unit or cut (`EditDistance`, `ChatStream`, `GeminiStream`); elsewhere they are sequences of whole characters.
- React rendering, markup, toasts, `allRuns`, `workflows`, the focused run and the selection shown beside a task: state that nothing above depends on.
- HTTP, the SDK client, files, spawned processes and timers: requests are steps that may answer, fail or be aborted at any time.
- RunEvents.Journal.Page: a page starts right after the cursor asked for, and events arrive in order, as the server promises; the server is not part of this model.
- LogPoller.LogView.Finish: leaves out the file name, the number of skipped lines and the error shown; the daemon's answer is any page that `Answers` allows, for a log file that only grows.
- RunCache.EndedRecordsAreOne: the rule for the server's changes is its contract here; the store keeps a stricter one and leaves an ended run's row alone (packages/store/src/storage/sqlite-store.ts:568-606). That a record's permissions and files follow it too is assumed.
- RunCache.Cache.LoadRun: a fetch that fails stores and returns nothing, which is the step `Abort`; runs are not removed from the server.
- FirstRun.RunInit: the menus' parsing is left out; a person is the last answer to each question, and an answer the wizard does not take keeps it asking. Notes, `summary` and plan texts are left out.
- FirstRun.RunInit: other clients of the daemon do nothing during a run.
- FirstRun.RebasedEnds: URLs are already parsed; an origin is not empty and does not end with a slash, and a base that is no plain http(s) URL is one value, `BadBase`.
- FirstRunLaws.RunningAgain: is about first runs in which the daemon lists agents; one in which it cannot wires nothing, and a second run then wires the agents for the first time.
- ChatStream.StreamedAgreesWithWhole: custom tool calls, which the whole-response branch drops, are outside it; `firstByteMs` is left out.
- GeminiStream.FoldedReadsAtoms: `JSON.stringify` of a call's arguments is a text carried by the call.
- ResponsesReplay.ResponsesTurn: the stream's events and `StreamFailure` are left out.
- The Anthropic conversation: its deltas are put together inside the vendor's SDK.
- CommandLine.MovedOptionsAreReadLast: Node's `parseArgs` is a reader of words with long options; groups of short options and its strict errors are left out. `COMMANDS` is the list of names only.
- Decimal.ReadPrint: numbers are exact decimals; rounding to a double when more digits are given than it holds, and underflow to zero, are left out.
- Budgets.QuotaReads: `Number(rpm)` also takes hexadecimal, signs and surrounding space; the model reads the decimal literals that `quotaFlags` prints and their like.
- Overrides.ValueReads: letters are compared without case in ASCII only.
- RuleList.Group.Add: parsing a rule's words, the classifier and saving to the daemon are left out, as is the patch that clears an empty list.
- TerminalLoop.RawModeStaysAfterTheEnd: what becomes of the process after an error that nothing catches is left out; no event after it changes the terminal.
- TerminalLoop.Loop.OnData: decoding bytes into keys, drawing and the app's own screens are left out; `busy` is a flag that handlers set.
- AssetPath.NamesExactlyTheCheckoutFile: paths are POSIX paths; the comparison without case on Windows is left out.
- `quotaText`, usage texts, exit-code tables, the preview forms and the remaining pages: they would only add easy members.
