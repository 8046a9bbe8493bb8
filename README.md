# GitHub activity orchestrator: a Dafny model

The modelled program is a single-page tool. It fills a GitHub repository with issues, pull requests and
commits. The user enters a token, a repository name, a content language, per-type counts and a feature
selection, then presses the deploy button. `executeRealSimulation` (App.tsx) then does the following:

1. It checks the credentials.
2. It asks a plan generator (services/geminiService.ts) for a list of activity templates. The generator
   uses a generative service when a key is set and otherwise, or on any error, six built-in templates.
3. It walks the plan in chunks of three, with a cooldown between chunks.
4. For each entry it calls the matching create operation. A PR is auto-merged when so configured.
5. It records each result in the page state: the log, the item list, the per-type counters, the progress
   and the progress chart.

The model has these modules:

- **`Types`** (types.dfy) holds the records of types.ts and a `Result` type for calls that can throw.
- **`Constants`** (constants.dfy) holds the default configuration and the feature list.
- **`GeminiService`** (gemini_service.dfy) holds the fallback plan, the mapping of a parsed reply, and the
  choice between the two.
- **`Seqs`** and **`Format`** (util.dfy) hold the sequence windows (`slice(-n)`, the chart push, the
  sample and index ranges) and the decimal formatting of numbers in log lines.
- **`ConfigForm`** (config_form.dfy) holds the feature-toggle button.
- **`AppState`** (app_state.dfy) holds the functional state updaters of App.tsx: `addLog`'s 100-line
  window, `handleConfigChange`, the reset, the counter bumps, the prepend and the chart push.
- **`AppRun`** (app_run.dfy) expresses one press of the deploy button as a function of the page state and
  of the external services' answers:
  - `Attempt` and `ItemStep` cover one entry;
  - `RunRange` covers a chunk;
  - `RunChunks` and `ChunksBefore` cover the chunk loop;
  - `Execute` covers the whole handler.
- **`App`** (app.dfy) is the page component as a class. The state hooks become fields, and the handler and
  its loops become methods with `while` loops. Each method is proved to end in the state the `AppRun`
  function gives.
- **`RunFacts`** (run_facts.dfy) and **`RunOutcome`** (run_outcome.dfy) state what such a run does in terms
  independent of how it is computed:
  - the listings, newest first;
  - the counters per type;
  - the trace of external calls, with one create call per entry in plan order and `ceil(n/3) - 1`
    cooldowns;
  - the chart window;
  - the bounded log;
  - the three ways a press can end.

External services are oracles in an `Env` value. The credential check, the generative service reply, the
process-wide key, and the create and merge answers for each plan position are all scripted there. Every call
the handler makes is appended to a `trace` field, so "no call is made" and "created once each" are
statements about that trace.

Some points where the code behaves differently from what one would expect; the model follows the code:

- **The fallback plan itself can fail.** `generateActivityPlan` catches every error of the generative
  service and falls back to the built-in templates (services/geminiService.ts:72-75). But the fallback builds
  its list with `Array.from({ length: count })` (services/geminiService.ts:88), which throws a `RangeError`
  when `count`, the sum of the three configured counts, is `2^32` or more. Neither the call without a key
  (line 26) nor the call inside the `catch` (line 74) is guarded, so the error reaches the handler's own
  `catch` (App.tsx:147-151). The run then ends IDLE with a CRITICAL FAILURE line, after the credential
  check. `RunOutcome.PlanFailsExactly` states when this happens, and `RunOutcome.PlanFailure` states how
  the run ends. The message is modelled as `"Invalid array length"`, the wording of the V8 engine. A failed
  credential check is the other fatal error of a run (`RunOutcome.VerifyFailure`).
- **Null results count but are not listed.** A counter is bumped after every create call that returns, even
  with `null`, but only non-null results are listed (`RunOutcome.NullResultCountedNotListed`). The list
  never holds more items than the counters add up to (`RunOutcome.ListingsWithinCounts`). It holds exactly
  as many if and only if no create call returned `null` (`RunOutcome.ListingsMatchCounts`).
- **Counters and list use different types.** The counters go by the plan entry's type; a listed item keeps
  the type the create call returned.
- **The chart is not reset when a run starts.** Its window is the newest 20 of the old and new samples
  (`RunRangeEffect`, `CompletedRun`). Only a run of at least 20 entries leaves a strictly increasing chart
  made of its own samples alone (`RunOutcome.ChartAfterLongRun`).
- **The plan length need not match the configured counts.** A parsed reply may have any length
  (`GeminiService.ParsedReplyLengthUnbounded`). `completed` ends at the plan's length
  (`App.Simulator.RunPlan`) while the progress divides by `totalOps`. For a non-empty plan the last
  progress value before completion is therefore `Tally(|plan|, totalOps)`. It can stand for more than 100
  percent: with `totalOps == 1` and a two-item reply it is `Tally(2, 1)` (`RunOutcome.ProgressBeforeCompletion`).
  An empty plan never enters the loop, so the progress keeps the reset's 0 until completion sets 100.
- **A missing token only logs.** It leaves the view state alone (`RunOutcome.MissingToken`); it does not
  return the page to IDLE.

## Model

| member | source | states |
|---|---|---|
| `Types.ConfigExtensionality` | types.ts:21-32 | two configurations that agree on every key are equal |
| `Constants.DefaultFeaturesAvailable` | constants.ts:15-44 | the default feature selection holds only offered features, each once |
| `GeminiService.MockPlan` | services/geminiService.ts:88-95 | the list built by the fallback has `count` entries (none for a non-positive count), and entry `i` is built from template `i mod 6` |
| `GeminiService.GenerateMockData` | services/geminiService.ts:78-95 | the fallback throws exactly when `count >= 2^32`, with the message `Invalid array length`; otherwise it returns the list built from the templates, which is shorter than `2^32` |
| `GeminiService.MockEntry` | services/geminiService.ts:88-95 | entry `i` has template `i mod 6`'s type (ISSUE, ISSUE, PR, COMMIT, PR, COMMIT) and description, and its title followed by ` (Batch floor(i/5))` |
| `GeminiService.MockPrefix` | services/geminiService.ts:88-95 | a longer fallback plan extends a shorter one: the output is deterministic in the index |
| `GeminiService.MockLanguageOnlyInFirstTemplate` | services/geminiService.ts:79-86 | entries not built from template 0 do not depend on the language |
| `GeminiService.MockDispatchable` | services/geminiService.ts:79-89 | every fallback entry has type ISSUE, PR or COMMIT |
| `GeminiService.MapType` | services/geminiService.ts:68-69 | `'ISSUE'` maps to ISSUE and only it, `'COMMIT'` to COMMIT and only it, everything else to PR |
| `GeminiService.MapResponse` | services/geminiService.ts:66-70 | one entry per reply element, with its type mapped and its title and description kept |
| `GeminiService.GenerateActivityPlan` | services/geminiService.ts:19-76 | no key gives the fallback, with its error; a failed call gives the fallback, with its error; a parsed reply gives its mapping and never fails; the plan fails exactly when the fallback is taken and `count >= 2^32`; every entry of a returned plan is dispatchable |
| `GeminiService.NoKeyIgnoresService` | services/geminiService.ts:24-27 | without a key the plan does not depend on the service's reply |
| `GeminiService.ParsedReplyLengthUnbounded` | services/geminiService.ts:30-70 | a parsed reply's plan may be shorter or longer than `count` |
| `ConfigForm.RemoveAll` | components/ConfigForm.tsx:141 | the filtered list lacks the feature, keeps every other feature's membership, and is no longer |
| `ConfigForm.RemoveAllConcat` | components/ConfigForm.tsx:141 | filtering distributes over concatenation, so order is kept |
| `ConfigForm.RemoveAllAbsent` | components/ConfigForm.tsx:141 | filtering out an absent feature changes nothing |
| `ConfigForm.RemoveAllCounts` | components/ConfigForm.tsx:141 | every occurrence of the feature is removed and every other feature keeps its count |
| `ConfigForm.Toggle` | components/ConfigForm.tsx:140-142 | the clicked feature's membership flips and no other feature's membership changes |
| `ConfigForm.ToggleAbsentTwice` | components/ConfigForm.tsx:140-142 | toggling an unselected feature twice restores the list exactly |
| `ConfigForm.TogglePresentTwice` | components/ConfigForm.tsx:140-142 | toggling a selected feature twice moves it, once, to the end |
| `ConfigForm.OnFeatureClick` | components/ConfigForm.tsx:138-144 | a disabled form makes no change call; otherwise one `megaFeatures` change with the toggled list |
| `AppState.AddLogEffect` | App.tsx:54-59 | the new log is the newest `min(n, 100)` old lines in order plus the message; at most 101 lines; nothing dropped while there were at most 100; nothing else changes |
| `AppState.ApplyChange` | App.tsx:50-52 | the changed key reads back the new value and every other key keeps its old one |
| `AppState.ApplyChangeLastWins` | App.tsx:50-52 | of two changes to one key the later wins |
| `AppState.ApplyChangeCommutes` | App.tsx:50-52 | changes to different keys commute |
| `Seqs.SliceLastShape` | App.tsx:57 | `slice(-n)` is the suffix of length `min(|s|, n)` |
| `Seqs.PushShape` | App.tsx:57 | a push keeps the newest `min(|s|, keep)` entries in order and appends the new one |
| `Seqs.SliceLastOfSliceLast` | App.tsx:133 | trimming before appending and trimming after give the same window |
| `Seqs.PushAsSliceLast` | App.tsx:133 | a push with `slice(-19)` is the newest 20 of the buffer with the sample appended |
| `Seqs.PushWindow` | App.tsx:133 | pushing onto a window gives the window of all samples so far |
| `Seqs.SamplesAt` | App.tsx:131-133 | the samples of a run are `lo+1, ..., hi`, strictly increasing |
| `Seqs.SamplesSplit` | App.tsx:131-133 | the samples of two consecutive ranges concatenate |
| `AppRun.ChunkEnd` | App.tsx:88-89 | a chunk is non-empty, has at most 3 entries, and is not the last exactly when `i + 3 < length` |
| `AppRun.OnlyLastChunkShort` | App.tsx:88-89 | only the last chunk may have fewer than 3 entries |
| `AppRun.LoopExit` | App.tsx:88 | the loop counter exits at the first multiple of 3 that is at least the plan's length |
| `AppRun.LoopExitUnique` | App.tsx:88 | that exit value is unique |
| `AppRun.RunChunksFrom` | App.tsx:88-141 | the recursive chunk walk from a chunk start continues the loop's turns to its exit |
| `AppRun.RunChunksAsLoop` | App.tsx:88-141 | the loop's turns, as the counter takes them, give the recursive chunk walk |
| `App.Simulator.constructor` | App.tsx:36-47 | the initial hook values |
| `App.Simulator.HandleConfigChange` | App.tsx:50-52 | the configuration becomes the changed one and nothing else changes |
| `App.Simulator.ClickFeature` | components/ConfigForm.tsx:138-144 | while running the configuration is unchanged, otherwise its features are toggled |
| `App.Simulator.AddLog` | App.tsx:54-59 | the simulation state becomes `AddLog` of the old one |
| `App.Simulator.VerifyRepo` | App.tsx:73 | records the credential check and returns its answer |
| `App.Simulator.CreateRealIssue` | App.tsx:97 | records the issue creation for entry `k` and returns its answer |
| `App.Simulator.CreateRealPR` | App.tsx:101 | records the PR creation for entry `k` and returns its answer |
| `App.Simulator.CreateRealCommit` | App.tsx:117 | records the commit creation for entry `k` and returns its answer |
| `App.Simulator.MergePR` | App.tsx:107 | records the merge of the PR created for entry `k` and returns its answer |
| `App.Simulator.Cooldown` | App.tsx:139 | records one cooldown pause |
| `App.Simulator.AttemptItem` | App.tsx:92-129 | the per-entry `try`/`catch` ends in the world `Attempt` gives, chart untouched |
| `App.Simulator.RunEntry` | App.tsx:91-134 | one entry with its `finally` block ends in the world `ItemStep` gives |
| `App.Simulator.RunChunk` | App.tsx:91-135 | a chunk's entries run in order end in `RunRange`, with `completed` at the chunk's end |
| `App.Simulator.RunTurn` | App.tsx:88-140 | one loop turn: the chunk, then a cooldown unless it is the last |
| `App.Simulator.RunPlan` | App.tsx:84-141 | the chunk loop ends in `RunChunks` from 0, and `completed` ends at the plan's length |
| `App.Simulator.Start` | App.tsx:67-72 | starting a run ends in the page `AppRun.Start` gives: view RUNNING, the reset, and the authentication line |
| `App.Simulator.Abort` | App.tsx:147-151 | the handler's `catch` ends IDLE, in the world `AppRun.Abort` gives: the failure line, then not running |
| `App.Simulator.AfterCheck` | App.tsx:74-150 | after a passed check, plan generation ends in `AppRun.AfterCheck`: IDLE through the `catch` when the plan fails, otherwise the run and COMPLETE |
| `App.Simulator.Deploy` | App.tsx:80-145 | on a generated plan, the loop and completion end in `AppRun.Deploy` |
| `App.Simulator.ExecuteRealSimulation` | App.tsx:61-152 | the handler ends in the page state `AppRun.Execute` gives |
| `RunFacts.LogIsBounded` | App.tsx:57 | after any log line the log holds at most 101 lines |
| `RunFacts.AttemptEffect` | App.tsx:92-129 | one attempt prepends the entry's listing, bumps its type's counter only when its create call returned, appends its create call and the merge of a created PR under auto-merge, and leaves progress and chart alone |
| `RunFacts.CreatedEffect` | App.tsx:104-127 | after a create returned an item: success marks a PR merged, a failed merge keeps it unmerged; either way it is listed once and its merge call recorded |
| `RunFacts.BumpStatCounts` | App.tsx:95-119 | each create branch's counter updater adds one to its own type's counter only, as the per-counter definition `Bump` states, and leaves the rest of the state alone |
| `RunFacts.ItemStepEffect` | App.tsx:91-134 | one entry: the attempt's effect, then progress `k + 1` of `totalOps` and chart sample `k + 1` |
| `RunFacts.ItemStepItems` | App.tsx:121-125 | an entry prepends its listing to the items |
| `RunFacts.ItemStepStats` | App.tsx:95-119 | an entry bumps its type's counter exactly when its create call returned |
| `RunFacts.ItemStepTrace` | App.tsx:95-119 | an entry appends exactly its own calls |
| `RunFacts.ItemStepChart` | App.tsx:133 | an entry pushes sample `k + 1` |
| `RunFacts.ItemStepRest` | App.tsx:130-132 | an entry keeps `isRunning`, sets progress `k + 1` of `totalOps`, keeps the log bounded |
| `RunFacts.ChartAfterWindow` | App.tsx:133 | pushing samples one at a time leaves the newest 20 of all of them |
| `RunFacts.RangeItems` | App.tsx:121-125 | a chunk prepends its entries' listings, newest first |
| `RunFacts.RangeStats` | App.tsx:95-119 | a chunk adds its counted entries to the counters per type |
| `RunFacts.RangeTrace` | App.tsx:91-135 | a chunk appends its entries' calls in order |
| `RunFacts.RangeChart` | App.tsx:133 | a chunk pushes its samples one at a time |
| `RunFacts.RangeRest` | App.tsx:130-132 | a chunk keeps `isRunning`, leaves progress at its end and keeps the log bounded |
| `RunFacts.RunRangeEffect` | App.tsx:91-135 | the combined effect of a chunk on every field |
| `RunFacts.ListingsSplit` | App.tsx:121-125 | the listings of two consecutive ranges concatenate, newer range first |
| `RunFacts.CountSplit` | App.tsx:95-119 | the counts of two consecutive ranges add up |
| `RunFacts.CallsSplit` | App.tsx:91-135 | the calls of two consecutive ranges concatenate |
| `RunFacts.ChunksItems` | App.tsx:88-135 | the chunk loop prepends every entry's listing, newest first |
| `RunFacts.ChunksStats` | App.tsx:88-119 | the chunk loop adds every counted entry to the counters |
| `RunFacts.ChunksTrace` | App.tsx:88-140 | the chunk loop appends each chunk's calls and a cooldown between chunks |
| `RunFacts.ChunksChart` | App.tsx:88-133 | the chunk loop leaves the newest 20 of the old samples and `i+1, ..., n` |
| `RunFacts.ChunksRest` | App.tsx:88-141 | the chunk loop keeps `isRunning` and the log bound, leaves progress alone when no entry is left, and otherwise ends it at `|plan|` of `totalOps` |
| `RunFacts.RunChunksEffect` | App.tsx:88-141 | the combined effect of the chunk loop on every field, progress included |
| `RunFacts.CreatedConcat` | App.tsx:91-140 | create indices and cooldown counts distribute over concatenation |
| `RunFacts.EntryCallsShape` | App.tsx:95-119 | an entry makes one create call exactly when its type has a branch, no cooldown, and no merge without auto-merge |
| `RunFacts.CallsInShape` | App.tsx:91-135 | a chunk's create calls go to its dispatchable entries in order, with no cooldown |
| `RunFacts.DispatchedSplit` | App.tsx:95-119 | dispatchable indices of two consecutive ranges concatenate |
| `RunFacts.PlanCallsShape` | App.tsx:88-141 | the loop's create calls go to the dispatchable entries in plan order, once each |
| `RunFacts.ChunkCreated` | App.tsx:137-140 | a cooldown after a chunk adds no create call |
| `RunFacts.PlanNoMerges` | App.tsx:104 | without auto-merge no merge call is made |
| `RunFacts.PlanCooldowns` | App.tsx:137-140 | a plan of `n > 0` entries pauses `ceil(n/3) - 1` times |
| `RunFacts.AllDispatched` | App.tsx:95-119 | when every entry is dispatchable, the dispatched indices are `0, ..., n-1` |
| `RunOutcome.MissingToken` | App.tsx:62-65 | without a token: one error line appended to the log window, no call, view, progress, items, counters and chart unchanged |
| `RunOutcome.DefaultConfigCannotStart` | App.tsx:62-65 | with the default configuration a press only logs the error |
| `RunOutcome.StartRunResets` | App.tsx:67-68 | the reset sets running, progress 0, no items, zero counters, and keeps the log |
| `RunOutcome.StartSetsRunning` | App.tsx:67-72 | starting a run sets the view to RUNNING and `isRunning`, resets progress, list and counters, appends the authentication line to the log window, and keeps configuration, trace and chart |
| `RunOutcome.FormDisabledDuringRun` | components/ConfigForm.tsx:138-139 | once a run has started, a feature click makes no change call |
| `RunOutcome.VerifyFailure` | App.tsx:147-151 | a failed credential check ends IDLE, not running, with the reset's list, counters and progress, one call made and the failure as the last line |
| `RunOutcome.PlanFailsExactly` | services/geminiService.ts:24-88 | the plan for a run fails exactly when no key is set or the service call failed, and the three counts add up to `2^32` or more; its message is `Invalid array length` |
| `RunOutcome.PlanFailure` | App.tsx:79-151 | a run whose plan fails ends IDLE, not running, with the reset's progress, list and counters, only the check recorded, the chart unchanged, and the failure as the last line |
| `RunOutcome.DeployEffect` | App.tsx:80-145 | on a generated plan the run lists, counts, traces and charts as the chunk loop does, then ends not running at 100 with the completion line last |
| `RunOutcome.DeployTailEffect` | App.tsx:143-145 | the completion logs the last line and sets not running with progress 100, nothing else |
| `RunOutcome.CompletedRun` | App.tsx:61-151 | a run past the check ends COMPLETE exactly when the plan generator returns a plan, and then not running, progress 100, items = listings newest first, counters = counted entries per type, trace = check then plan calls, chart window, bounded log |
| `RunOutcome.EveryEntryCreatedOnce` | App.tsx:88-140 | for every plan the generator returns, each plan entry gets one create call in plan order, the created indices strictly increasing; `ceil(n/3) - 1` cooldowns; no merge without auto-merge |
| `RunOutcome.ProgressBeforeCompletion` | App.tsx:84-133 | before completion the progress is `|plan|` of `totalOps` for a non-empty plan and the reset's value for an empty one; one count and a two-item reply give `Tally(2, 1)`, more than 100 percent |
| `RunOutcome.ChartAfterLongRun` | App.tsx:133 | after at least 20 entries the chart is `n-19, ..., n`, strictly increasing |
| `RunOutcome.ChartBounded` | App.tsx:133 | the chart never shows more than 20 samples |
| `RunOutcome.NullResultCountedNotListed` | App.tsx:95-127 | an entry whose create returns `null` bumps its type's counter but leaves the list unchanged |
| `RunOutcome.ThrewLogsError` | App.tsx:92-129 | a create call that throws is caught by the entry: its last line is `ERROR: Failed to create <title> - <message>`, nothing is listed or counted, and only the create call is made |
| `RunOutcome.MergeFailLogsWarning` | App.tsx:104-126 | a failed auto-merge only logs `WARNING: Failed to auto-merge PR #<id>: <message>`: the PR is still counted and listed unmerged, and its `SUCCESS: Created` line follows |
| `RunOutcome.MergeSuccessLogged` | App.tsx:104-126 | a successful auto-merge logs `SUCCESS: PR #<id> Merged (Badge Progress +1)` before the `SUCCESS: Created` line, and the PR is listed merged |
| `RunOutcome.ListingsWithinCounts` | App.tsx:95-127 | over any range of any plan the list gains no more items than the counters, and as many when no create returns `null` |
| `RunOutcome.NullResultShortensList` | App.tsx:95-127 | over any range of any plan, one create returning `null` leaves strictly fewer listings than counted entries |
| `RunOutcome.ListingsMatchCounts` | App.tsx:95-127 | over any range of any plan, the listings equal the counted entries in number if and only if no create returns `null` |

## Left out

- The JSX rendering is not modelled: stat cards, tabs, the download button, `ActivityChart` and `TerminalLog`. Neither is `activeTab`.
- services/githubService.ts is not part of this model. Its answers are scripted per plan position in `Env`,
  and the calls are recorded in the trace.
- The generative service call, its prompt and its `batchSize`, and `JSON.parse`; only the parsed reply
  (or the fact that one of them threw) is modelled.
- `console.warn` and `console.error` output.
- Timestamps are not modelled: the chart sample's `time`, `new Date()` in the default start date (passed in
  as `today`), and the item timestamps.
- The 2000 ms `setTimeout` becomes a `Cooldown` event in the trace.
- Concurrency: `Promise.all` is modelled with the chunk's entries run one after the other, in plan order.
  Interleavings of the awaits inside a chunk, and the resulting orders of log lines, list entries and
  trace calls, are not modelled. The sequential order is not one the source can produce. Each entry's
  `async` function runs up to its first `await` at once, so all of a chunk's "Creating..." lines and create
  calls come before any merge call or SUCCESS line of that chunk. For two auto-merged PRs in one chunk the
  model's trace is `CreatePr(0), MergePr(0, a), CreatePr(1), MergePr(1, b)`, while the source issues both creates
  first. The per-chunk statements about the trace (`RunFacts.CallsInShape`, `RunOutcome.EveryEntryCreatedOnce`)
  speak only of the create calls' order, which the source shares with the model.
- React's batching and deferred state updates are modelled as applied at once. The progress and chart
  updaters read the shared `completed` when React applies them (App.tsx:132-133), not when they are queued.
  Under batching two samples can then carry the same value, so the strictly increasing chart
  (`RunOutcome.ChartAfterLongRun`) holds only when each update is applied at once.
- The handler is modelled as running to completion with no other event between its steps. A feature click
  while it awaits is covered only through the state it leaves: the view is RUNNING from `Start` on
  (`RunOutcome.StartSetsRunning`, and the `requires viewState == RUNNING` of `App.Simulator.AfterCheck`,
  `App.Simulator.Deploy` and `App.Simulator.RunPlan`), and a click then makes no change
  (`RunOutcome.FormDisabledDuringRun`).
- The progress `(completed / totalOps) * 100` is a floating-point division. It is modelled as the pair
  `Tally(completed, totalOps)`, so `NaN` and infinity are not modelled.
- The auth object's token, owner and repository are not modelled, since only the oracles see them. The
  `id` in log lines is formatted as a decimal integer.
- `LOG_MESSAGES`, `CONTRIBUTORS` and the `Contributor` record in constants.ts are not modelled; the core
  does not read them.
- Form inputs other than the feature button are not modelled. React passes `handleConfigChange` raw values
  (`parseInt` of the number fields); the model takes the already-typed values as a `ConfigChange`.
