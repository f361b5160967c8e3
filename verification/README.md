# Verified model of the bot's stateful core

This project models the logic of the bot that is hardest to get right by reading: code
that keeps bookkeeping across awaits, exceptions, cancellation and process death. Each
Dafny file follows one source component.

| component | files |
|---|---|
| module resolution, loading and lifecycle (`bot/app/modules.py`) | `ModuleGraph`, `ModuleSelection`, `ModuleLoading`, `ModuleManager` |
| transcript integrity (`bot/agent/compaction.py`, `core.py`, `context.py`) | `Transcript`, `Truncation`, `Compaction`, `Context`, `Conversation`, `HandoffSnapshot` |
| global command publication (`bot/app/command_sync.py`) | `CommandSync` |
| stopping operations (`bot/app/cancellation.py`) | `Cancellation` |
| durable deletion (`bot/app/dashboard_files.py`) | `DashboardFiles` |
| durable coding tasks (`bot/app/coding_tasks.py`, `coding_delivery.py`) | `CheckpointCodec`, `CodingCheckpoint`, `CodingDelivery` |
| sign-in, rate limits, usage, admission | `DashboardAuth`, `RateLimit`, `UsageRecorder`, `Admission` |
| attachment budgets and staged files (`bot/agent/attachments.py`) | `AttachmentStore`, `ImageDecisions`, `TurnImages` |
| shared datatypes and facts about sequences and maps | `Common` |

## How the model is built

Code that changes state step by step is a class with the source's fields; its methods are
the stretches of code between two awaits, or whole loops, and their contracts equate the new
state with a specification function or a step of a transition system. The main results are
lemmas about those functions, over every run. Where an object is shared (the byte budget of
a turn, the leases of the admission controller) the model shares it too.

Foreign behaviour is a parameter: what a provider answers, whether a deadline has passed at a
given await, how a `start()` ends, which file of a directory is removed last, at which step a
process dies or the file system fails. Every theorem quantifies over it. Unverifiable promises of unseen code are taken
in their weakest useful form: a store's `delete` is atomic and raises if and only if it did not
commit, `events(after_id)` returns exactly the later events in ascending id order,
`set_checkpoint` replaces the checkpoint atomically, `record_turn` records everything or raises, a
provider hands over an object of arguments with each call (bot/providers/tool_arguments.py wraps
whatever is none), the triggering request is whole,
an image that needed no derivative has none on disk, and the normalization worker writes no
derivative above its limit.

## What the proofs found

- `_hard_truncate` ends on all requests of a tool if and only if its label has at most 57
  characters. Every longer label has a stub above the 96-character floor, and a turn of such a
  stub over the trigger is mapped to itself by every round (`Truncation.HaltsIffNameFits`,
  `Truncation.LongNameLoops`).
- The counter of `clamp_tool_output` can pass its budget, by the marker of the one result that is
  cut, less one when the room left was odd (`Truncation.ClampBudget`). The stubs are not counted at
  all, so the text that an iteration appends has no bound in the budget: it is at most the budget,
  one marker and the stubs (`Truncation.AppendedBudget`, `Truncation.StubsUncounted`).
- A streamed attachment save that is cancelled while its thread prepares the temporary file or
  appends to it can leave that file: the thread goes on beside the cleanup, and some schedule lets
  its file outlive it (`StagedFiles.MayLeaveIff`; which schedules, `StagedFiles.LeftBehindIff`). A
  cancelled rename never does, nor does the path that reads the body at once, which waits for its
  thread. Every other exit of a turn leaves exactly the returned cleanup paths
  (`TurnSurfaces.StoppedLeavesOnly`).
- The byte budget of a turn bounds its sources only. Derivatives come on top, within one limit per
  image and one more (`TurnImageCollector.CollectTurnImages`).
- Cancel-all aside, nothing ever cancels a publication of the current generation in an open
  application, so it reaches the global call as soon as the others have finished
  (`CommandSync.CurrentIsNeverCancelled`, `CommandSync.CurrentPublicationSyncs`).
- A deletion whose `rmtree` fails raises although it is committed; the quarantine it leaves means
  nothing and is removed by the next recovery (`DashboardFiles.DashboardFiles.DeleteConversation`).
- `max_history` of zero keeps the whole history, because the slice `messages[-0:]` is everything
  (`Context.LimitKeptIffPositive`).
- Call ids that repeat within one response get one result per call when the batch ends, so "one
  result per distinct id" holds exactly for distinct ids (`Conversation.OneResultPerIdIffDistinct`).
- The sliding windows bound any sixty seconds open at one end. A window closed at both ends can
  hold twice the limit, because requests exactly sixty seconds old are dropped; closed windows keep
  the limit if and only if they are shorter (`SlidingWindow.ClosedWindowHoldsTwice`,
  `SlidingWindow.ClosedWindowKeepsLimitIff`).
- `absorb` deduplicates against the calls already known but not within its argument
  (`UsageLedger.AbsorbKeepsDistinctIff`).
- A checkpoint loses nothing of a message but images and provider payloads: a text part without
  text or arguments that are not an object would come back changed
  (`CheckpointCodec.RoundTripIffWhole`), but the conversation loop builds neither, nor do
  compaction, truncation or an earlier restart (`CodingCheckpoint.Resume`). Restoring raises on a
  stored content or list of calls that is null, a boolean or a number
  (`CheckpointCodec.RefusedIff`).
- A delivery can be hidden by what is posted after it: the fetched history counts the messages of
  everybody (`CodingDelivery.StillFoundIff`, `CodingDelivery.LaterMessageHides`).
- Two optional modules with colliding table prefixes abort the whole load although each is valid
  on its own (`ModuleManagement.ModuleManager.FinalValidation`).
- docs/compaction.md says that no tool body is ever dropped entirely and that the fallback note
  comes before the elided iterations. The code replaces bodies by stubs in the last resort and
  appends the note after the elided prefix; the model follows the code.

## Model

| member | source | states |
|---|---|---|
| ModuleGraph.OrderedSpecs | bot/app/modules.py:339-371 | Returns normally if and only if the request is duplicate-free, installed, closed under dependencies and acyclic; the result is then a permutation of the request with every dependency strictly before its dependents, and each error names a real defect |
| ModuleGraph.HasDuplicate | bot/app/modules.py:343-345 | Comparing the size of the set with the length finds a repeated name exactly when there is one |
| ModuleGraph.DependencyVisitor.Visit | bot/app/modules.py:354-367 | The depth-first visit terminates on any graph, appends a module after all it depends on, raises the cycle error only on a real cycle within the request and the missing-dependency error only on a real one |
| ModuleGraph.VisitAll | bot/app/modules.py:350-371 | The loop over the request ends with all names in dependency order, or with a genuine error |
| ModuleGraph.WalkGoesBack | bot/app/modules.py:361-367 | Along a dependency path the position in the order falls strictly |
| ModuleGraph.OrderedIsAcyclic | bot/app/modules.py:350-371 | A duplicate-free dependency order admits no cycle, so a success refutes every cycle |
| ModuleGraph.OrderErrorRefutes | bot/app/modules.py:343-363 | Every ordering error contradicts what a success would need |
| ModuleSelection.ValidateSelection | bot/app/modules.py:374-429 | Accepts exactly the duplicate-free sets that are orderable, have distinct table prefixes, valid declarations and provided services; every error is the defect it names |
| ModuleSelection.SharedPrefixIn | bot/app/modules.py:388-395 | Reports two different modules with one normalized prefix exactly when there are such |
| ModuleSelection.FirstInvalid | bot/app/modules.py:397-415 | No error if and only if every module's API version, capabilities and declarations are valid |
| ModuleSelection.FirstUnserved | bot/app/modules.py:416-428 | No error if and only if each consumed service is declared, in name and version, by its provider |
| ModuleSelection.SelectionErrorRefutes | bot/app/modules.py:374-429 | Every validation error shows the set invalid |
| ModuleSelection.OnlyPrefixErrors | bot/app/modules.py:384-429 | Where order, declarations and services are right, only a prefix collision can be reported |
| ModuleLoading.ClosureCollector.Collect | bot/app/modules.py:577-585 | Adds exactly what the root reaches among the requested names, or raises the failure of a reached entry point; terminates on cycles |
| ModuleLoading.ClosureIsReachSet | bot/app/modules.py:577-585 | The collected closure is the set of modules the root reaches |
| ModuleLoading.ResolveRoot | bot/app/modules.py:588-598 | A root is accepted exactly when its reach has no broken entry point and is valid on its own |
| ModuleLoading.ReachesAnyUnfold | bot/app/modules.py:448-464 | A module reaches a bad one exactly when it is bad or a direct dependency reaches one, the step that makes one pass enough |
| ModuleLoading.ValidityIsAntitone | bot/app/modules.py:564-609 | A valid set stays valid when cut down to a part closed under dependencies |
| ModuleLoading.RootOkDescends | bot/app/modules.py:587-598 | Every module reached from a valid root is itself a valid root |
| ModuleLoading.SoundRootsCompose | bot/app/modules.py:587-609 | The union of separately valid closures is closed, acyclic and compatible; prefixes are all that is left to check |
| ModuleLoading.CollisionIsAcrossRoots | bot/app/modules.py:604-609 | The separately valid roots share a prefix exactly when the closures of two different ones hold clashing modules; no valid root collides with itself |
| ModuleLoading.RestrictedValidity | bot/app/modules.py:604-609 | Validating against the selected specifications alone equals validating against all discovered ones |
| ModuleLoading.LoadableUnfold | bot/app/modules.py:652-693 | An active module is loadable exactly when its own composition works and all its dependencies are loadable |
| ModuleLoading.LoadableMeans | bot/app/modules.py:564-693 | A module is loadable if and only if all that it reaches is a valid set of installed modules whose activation capabilities are there and whose composition works |
| ModuleLoading.HealthyLoads | bot/app/modules.py:535-641 | A deployment whose modules are valid together, can all be activated and all be composed does not abort and has all its modules loadable |
| ModuleLoading.RequiredAreLoadable | bot/app/modules.py:587-693 | In a deployment that loads every required module is a valid root, and loadable unless it needs one without its activation capability |
| ModuleManagement.ModuleManager.Load | bot/app/modules.py:535-641 | Aborts exactly on a bad request, an invalid required root, a prefix collision of valid closures or a required module that cannot be composed; otherwise loads, in dependency order, exactly the loadable modules, lists every other name as disabled once, and registers only the loaded modules' tools and host rules |
| ModuleManagement.ModuleManager.DiscoverAll | bot/app/modules.py:566-575 | Splits the names into discovered specifications and failures |
| ModuleManagement.ModuleManager.SelectRoots | bot/app/modules.py:587-603 | The selection is the set of separately valid roots; each other root is disabled, or aborts when required |
| ModuleManagement.ModuleManager.FinalValidation | bot/app/modules.py:604-609 | The last validation fails exactly on a prefix collision between two separately valid roots |
| ModuleManagement.ModuleManager.ActivationPass | bot/app/modules.py:448-464 | One pass over a dependency order disables exactly the modules that reach a missing activation capability |
| ModuleManagement.ModuleManager.Compose | bot/app/modules.py:652-694 | A failed composition leaves neither a tool nor a host rule behind, whatever it had registered before it failed, and aborts only for a required module |
| ModuleManagement.ModuleManager.CreateAll | bot/app/modules.py:644-694 | Composes exactly the modules whose own composition and all of whose dependencies work; fails exactly when a required one does not |
| ModuleManagement.ModuleManager.LoadableIsCreated | bot/app/modules.py:652-694 | Composing in dependency order yields the reachability characterization of the loadable modules |
| ModuleManagement.ModuleManager.Disable | bot/app/modules.py:696-707 | Adds one entry to the disabled list and withdraws the module's tools, its host rule, its guild settings and its place among the loaded |
| ModuleManagement.KeepOrdered | bot/app/modules.py:611-630 | Filtering a dependency order to a part closed under dependencies keeps it one |
| ModuleManagement.ModuleManager.StartAll | bot/app/modules.py:729-805 | Succeeds exactly when all migrations run and startup survives each module; then exactly the modules that reach no failed start run, the others are disabled and have lost their tools, host rules and guild settings, and after a raise nothing runs |
| ModuleManagement.ModuleManager.Boot | bot/app/modules.py:535-805 | Loading and starting together: the application comes up exactly unless the load or the startup aborts, and then what runs, is loaded and has host rules are the loadable modules that reach no unsuccessful start; every other requested module is disabled and the only module tools are those of running modules |
| ModuleManagement.ModuleManager.StartNext | bot/app/modules.py:752-802 | One module: starts only with all dependencies started, disables an optional one whose dependency is disabled, aborts otherwise |
| ModuleManagement.ModuleManager.FailStart | bot/app/modules.py:779-796 | Only an optional module that raised an ordinary exception and closes cleanly is taken out again; anything else aborts |
| ModuleManagement.ModuleManager.CloseAll | bot/app/modules.py:908-917 | Closes newest first, never a module with a started dependent, until nothing runs |
| ModuleManagement.SafeLogAt | bot/app/modules.py:772-796 | At every moment of a lifecycle log a module starts on running dependencies and closes without running dependents |
| ModuleManagement.StartReach | bot/app/modules.py:752-796 | What the start loop leaves running is the set of modules that reach no unsuccessful start |
| ModuleManagement.ModuleManager.HealthyStarts | bot/app/modules.py:729-805 | With every migration, port and start in order startup comes through and every module runs |
| ModuleManagement.ModuleManager.RequiredRun | bot/app/modules.py:752-802 | An application that has come up runs every loaded module that is not optional |
| CommandSync.AtMostOneGlobalSync | bot/app/command_sync.py:162-198 | In every interleaving of READY, disconnect, shutdown and tasks that ignore cancellation at most one task is inside the global sync call, and each unfinished task is current or retired |
| CommandSync.SyncStartsCurrent | bot/app/command_sync.py:180-198 | The call starts only in an open application, for the current generation, when every other publication has finished |
| CommandSync.SyncStartsIff | bot/app/command_sync.py:162-198 | Over every run a task enters the global call if and only if it begins or wakes uncancelled, of the current generation of an open application, with every other publication finished |
| CommandSync.CurrentPublicationSyncs | bot/app/command_sync.py:162-198 | While shutdown has not begun a current publication therefore enters the call as soon as it is scheduled with the others finished |
| CommandSync.CurrentIsNeverCancelled | bot/app/command_sync.py:107-119 | Because no publication of the current generation is ever cancelled in an open application, whatever drains are under way |
| CommandSync.CancelledIff | bot/app/command_sync.py:76-273 | A step starts the cancellation of exactly these: a cached publication of an older generation that a current READY finds, and the unfinished targets of a drain that begins |
| CommandSync.WaitsForAllOthers | bot/app/command_sync.py:162-190 | A publication that begins waits for exactly the others that still run; woken while one of them does, it leaves the global call out |
| CommandSync.FirstReadySyncs | bot/app/command_sync.py:54-198 | The first READY after the start publishes |
| CommandSync.ReadyPublishesIff | bot/app/command_sync.py:69-105 | A READY event creates a publication if and only if the application is open, its generation is current and none of that generation is cached; open and current, it has one of its own generation to wait for |
| CommandSync.CohortPublishesOnce | bot/app/command_sync.py:54-105 | While READY callers of one generation overlap, at most one publication task is created |
| CommandSync.PresentSince | bot/app/command_sync.py:54-67 | From a caller's entry until it leaves, enters again or the gateway disconnects the cohort is such an unbroken one |
| CommandSync.ForgottenIffCohortGone | bot/app/command_sync.py:64-67 | A finished publication is forgotten when a caller leaves if and only if no other caller of its generation is left |
| CommandSync.DoneForgetsIff | bot/app/command_sync.py:216-226 | When its callback runs it is forgotten if and only if no caller of its generation is present |
| CommandSync.DrainSettles | bot/app/command_sync.py:274-290 | A drain that ends leaves a target retired if and only if it still runs, and forgets the publication cached at its start if that was a target |
| CommandSync.OrderedShutdown | bot/app/command_sync.py:159-160 | When every cancel-all follows shutdown, none ever finds the application open |
| CommandSync.RunInv | bot/app/command_sync.py:54-290 | The whole bookkeeping invariant holds in every reachable state |
| CommandSync.OnlyDecisionsSync | bot/app/command_sync.py:162-198 | Only a publication's own decision enters the sync call |
| CommandSync.DiscordCommandSync.EnterReadyCohort | bot/app/command_sync.py:54-63 | Takes exactly the step that registers a READY caller with the current generation |
| CommandSync.DiscordCommandSync.LeaveReadyCohort | bot/app/command_sync.py:64-67 | Takes exactly the step that removes the caller and releases a finished publication whose cohort is gone |
| CommandSync.DiscordCommandSync.SyncReady | bot/app/command_sync.py:69-105 | The loop terminates and takes exactly the join-or-create step: it retires another generation's task, joins this generation's, or creates it |
| CommandSync.DiscordCommandSync.BeginDisconnect | bot/app/command_sync.py:107-119 | Raises the generation and snapshots the tasks that predate the disconnect |
| CommandSync.DiscordCommandSync.StartCancelling | bot/app/command_sync.py:246-273 | Cancels the running targets of the snapshot |
| CommandSync.DiscordCommandSync.FinishCancelling | bot/app/command_sync.py:274-290 | Keeps the targets that still run, and those alone, as retired |
| CommandSync.DiscordCommandSync.ReleaseCompleted | bot/app/command_sync.py:228-244 | Drops the cached publication exactly when it is finished and its cohort has left |
| CommandSync.DiscordCommandSync.StartPublication | bot/app/command_sync.py:162-174 | Waits for the unfinished retired tasks, or decides at once |
| CommandSync.DiscordCommandSync.ResumePublication | bot/app/command_sync.py:170-198 | Skips the global call while a predecessor is pending, else decides |
| CommandSync.DiscordCommandSync.OnDone | bot/app/command_sync.py:216-226 | Forgets a finished task and releases the cache |
| Transcript.WellFormedConcat | bot/providers/types.py:76-92 | Two transcripts in which every call is followed by its results join to one |
| Transcript.WellFormedSplit | bot/providers/types.py:76-92 | Cut before an assistant message, both halves keep that form |
| Transcript.OnlyToolBodiesWellFormed | bot/agent/compaction.py:374-375 | Replacing tool bodies never affects the form |
| Truncation.ShrinksIffNameFits | bot/agent/compaction.py:87-109 | A truncation round shrinks every tool body above the floor if and only if the tool's label has at most 57 characters |
| Truncation.LongNameIsStuck | bot/agent/compaction.py:354-375 | Every longer label has a stub above the floor which a round replaces by itself |
| Truncation.LongNameLoops | bot/agent/compaction.py:354-375 | Under every longer label there is a turn which a round maps to itself, so the loop never ends on it under any trigger its size reaches |
| Truncation.FittingNamesHalt | bot/agent/compaction.py:354-375 | The loop ends on every turn whose tool labels have at most 57 characters, whatever the trigger |
| Truncation.HaltsIffNameFits | bot/agent/compaction.py:354-375 | The loop ends on all requests of a tool if and only if its label has at most 57 characters |
| Truncation.LargestTruncatable | bot/agent/compaction.py:497-506 | The first of the longest tool bodies above the floor, none exactly when no body is |
| Truncation.HardTruncate | bot/agent/compaction.py:354-375 | On every turn on which the loop ends it returns the first turn of the rounds that is under the trigger or has no body above the floor, having changed only tool bodies |
| Truncation.RoundShrinks | bot/agent/compaction.py:362-374 | Under fitting labels one round strictly reduces the sum of tool bodies |
| Truncation.RoundCuts | bot/agent/compaction.py:361-374 | A round cuts the first of the longest bodies, to its ends where that shortens it and to a stub otherwise, and leaves everything else |
| Truncation.HeadTailKeepsEnds | bot/agent/compaction.py:92-109 | A cut text keeps both of its ends word for word, and between them says what went |
| Truncation.DecimalReads | bot/agent/compaction.py:87-109 | The printed sizes read back as the numbers they stand for |
| Truncation.RoundsWhole | bot/agent/compaction.py:369-374 | Truncation leaves every text part with its text |
| Truncation.ToolCharsUpdate | bot/agent/compaction.py:369-375 | The measure changes by exactly the difference of the two bodies |
| Truncation.CutOvershoots | bot/agent/compaction.py:159-181 | The result that crosses the budget takes the counter past it by its own marker, less one when the room left was odd |
| Truncation.CutOnce | bot/agent/compaction.py:159-181 | At most one result of an iteration is cut to a head and tail |
| Truncation.FittingStayWhole | bot/agent/compaction.py:159-170 | Results that fit the budget together stay whole |
| Truncation.FirstOverBudget | bot/agent/compaction.py:171-181 | The first that does not is cut to the room that is left if that holds a stub, and is a stub otherwise |
| Truncation.StubsBehindCut | bot/agent/compaction.py:171-176 | Behind a cut every result is a stub |
| Truncation.ClampBudget | bot/agent/compaction.py:159-181 | One iteration's counter passes its budget exactly when a result was cut, and then ends exactly where that cut left it |
| Truncation.AppendedSplits | bot/agent/compaction.py:159-181 | The text appended is what the counter says plus the stubs, which the counter leaves out |
| Truncation.AppendedBudget | bot/agent/compaction.py:159-181 | The text that one iteration appends is at most the budget, one marker and its stubs |
| Truncation.StubsUncounted | bot/agent/compaction.py:171-176 | The stubs alone pass any bound: with no budget, short results are never counted and each still appends a stub |
| Compaction.SplitIterations | bot/agent/compaction.py:378-392 | The loop computes the units: an assistant message opens one and takes what follows |
| Compaction.IterationsPartition | bot/agent/compaction.py:378-392 | The units in order are the transcript again |
| Compaction.IterationsAreUnits | bot/agent/compaction.py:378-392 | Each unit is non-empty with an assistant message exactly at its head, the first unit excepted |
| Compaction.SplitWellFormed | bot/agent/compaction.py:250-251 | A cut between units keeps both halves in form |
| Compaction.KeepSplit | bot/agent/compaction.py:286-304 | The greedy split is optimal: the kept units are the longest tail within the token budget, or the floor if that is more |
| Compaction.LongestTailUnique | bot/agent/compaction.py:286-304 | There is only one such tail |
| Compaction.StripWellFormed | bot/agent/compaction.py:244-246 | Stripping notes and reminders keeps the form |
| Compaction.AssembleWellFormed | bot/agent/compaction.py:249-281 | On the summary, the elision and the no-summary path every call keeps exactly its results |
| Compaction.BuildWorking | bot/agent/compaction.py:238-281 | The steps before truncation build exactly the assembled turn for the longest tail |
| Compaction.RebuiltAround | bot/agent/compaction.py:249-268 | With older messages to replace, that turn is the request, one note of the summary of exactly these messages and the checklist, or their elided form and the checklist's own note, then the kept messages word for word and the restated request |
| Compaction.SummarizedIsRebuilt | bot/agent/compaction.py:238-281 | What the pass computes is a turn rebuilt so, its older and kept messages together being the stripped turn, kept the longest tail of whole units |
| Compaction.AssembleFromTurn | bot/agent/compaction.py:244-281 | Besides messages of the turn, elided or not, an assembled turn holds only texts that the pass adds |
| Compaction.PassKeepsForm | bot/agent/compaction.py:229-284 | Every pass, after any number of truncation rounds, keeps the first message, the form of calls and results, fitting labels, and whole messages whole |
| Compaction.FittingPassEnds | bot/agent/compaction.py:282-284 | On a turn with fitting labels the truncation of a pass ends whatever the summarizer returns |
| Compaction.Compact | bot/agent/compaction.py:229-284 | Whenever its truncation ends: the stripped turn divides into older messages and the longest recent tail of whole units; the summarizer is given exactly the older ones, a summary replaces them in one note, else they are elided in place, the tail stays word for word, checklist and reminder follow; then only tool bodies are cut, until the turn is under the trigger or nothing is left to cut; first message and form are kept |
| Compaction.AssembleTidy | bot/agent/compaction.py:244-281 | A pass leaves at most one reminder and one refresh note, and a summary note only right after the request |
| Compaction.NotesRollForward | bot/agent/compaction.py:229-284 | The same over any interleaving of appends and passes |
| Context.ConversationContext.AddMessages | bot/agent/context.py:52-63 | Extends and trims in place to the specified history |
| Context.ConversationContext.TrimMessages | bot/agent/context.py:59-63 | The slice and the popping loop compute the trim |
| Context.CutWellFormed | bot/agent/context.py:59-63 | Cutting a history anywhere and dropping the leading results orphans no result |
| Context.TrimKeepsForm | bot/agent/context.py:59-63 | Trimming yields a suffix in form, within a positive limit |
| Context.TrimKeepsLongest | bot/agent/context.py:59-63 | No suffix within the limit that starts with no result is longer: no more than needed is dropped |
| Context.LimitKeptIffPositive | bot/agent/context.py:59-63 | The limit holds for every history exactly when it is positive; a limit of zero keeps everything |
| Context.RetainedClean | bot/agent/core.py:1537-1554 | Retained messages carry no advisory and differ in nothing else |
| Context.RetainedWellFormed | bot/agent/core.py:1537-1554 | Stripping the advisory never affects the form, in either direction |
| Context.RetainedWhole | bot/agent/core.py:1537-1554 | Nor does it affect whether every text part has its text |
| Context.RetainedTwice | bot/agent/core.py:1537-1554 | Stripping twice is stripping once |
| Context.AppendAdvisory | bot/agent/core.py:1517-1534 | The hint goes on the newest tool result if there is one, and stripping undoes it |
| Conversation.RepairedResultIds | bot/agent/core.py:1630-1661 | The messages behind an assistant message answer the calls done and then exactly the ids without a result |
| Conversation.OneResultPerIdIffDistinct | bot/agent/core.py:1630-1661 | At every point where the deadline can fire, the messages behind an assistant message answer each distinct call id exactly once in call order, if and only if its ids are distinct |
| Conversation.RepairedAnswers | bot/agent/core.py:1079-1086 | The repaired batch answers all calls of its message in order |
| Conversation.CompleteBatch | bot/agent/core.py:1630-1661 | A batch that answered every call needs no repair |
| Conversation.GrownSound | bot/agent/core.py:895-1087 | What a tool response adds keeps the turn in form, and made of whole messages, wherever the deadline fires |
| Conversation.GrownGrows | bot/agent/core.py:895-1087 | What a tool response adds is the assistant message with its calls and payload, a result for each call done, a timeout result for each id without one, and the images to show |
| Conversation.ResultText | bot/agent/core.py:927-999 | A result holds its tool's text, or the refusal behind a handoff, as the budget of the iteration leaves it |
| Conversation.HandoffIsNewest | bot/agent/core.py:928-974 | The handoff in force is that of the newest call that ran and gave one |
| Conversation.NoHandoffIff | bot/agent/core.py:928-974 | None is in force exactly while no call has given one |
| Conversation.SteeringConcat | bot/agent/core.py:593-604 | Steering texts turn into messages one by one, in order |
| Conversation.CompactIsPass | bot/agent/core.py:1029-1078 | On every turn the loop hands over, the compactor's truncation ends and its result is such a pass |
| Conversation.CompactorKeepsForm | bot/agent/core.py:1029-1078 | A runner whose compactions are passes of that compactor keeps its turn in form through them |
| Conversation.Stored | bot/agent/core.py:849-893 | Storing a turn behind a history keeps form, limit and absence of the advisory |
| Conversation.ConversationRunner.RunCall | bot/agent/core.py:928-974 | One call runs, is refused after a handoff that does not allow it, or times out; a handoff that a cut-off tool had installed by then is in force |
| Conversation.ConversationRunner.RunBatch | bot/agent/core.py:927-1010 | The turn grows by exactly the clamped results of the calls done, in call order |
| Conversation.ConversationRunner.AppendMissing | bot/agent/core.py:1630-1661 | Appends a result for exactly the calls whose id has none yet |
| Conversation.ConversationRunner.AnswerCalls | bot/agent/core.py:910-1010 | However the batch ends, the turn is the specified grown turn |
| Conversation.ConversationRunner.MaybeAdvise | bot/agent/core.py:1253-1281 | The hint comes once in a turn, on the newest tool result, exactly when enough tools have run and it may be given; nothing that is retained changes |
| Conversation.ConversationRunner.MaybeCompact | bot/agent/core.py:1029-1078 | Compaction sees the turn without the hint; afterwards the hint is back and nothing else differs |
| Conversation.ConversationRunner.HandleToolResponse | bot/agent/core.py:895-1087 | The retained turn is the old one with the message, its results and the requested images, or its compaction; without deadline or handoff it is compacted exactly if the compactor gives something |
| Conversation.ConversationRunner.HandledSound | bot/agent/core.py:895-1087 | In each of these cases the turn stays in form |
| Conversation.ConversationRunner.AppendExternal | bot/agent/core.py:593-604 | Non-blank steering joins as user messages in order |
| Conversation.ConversationRunner.Ask | bot/agent/core.py:606-720 | The answer is the provider's, or that of one retry after an emergency compaction exactly when the context overflows for the first time in a turn that has tool results to compact; none exactly when a deadline fires on the way; nothing else changes |
| Conversation.ConversationRunner.FinishTimeout | bot/agent/core.py:562-587 | Closes the turn with the handoff's text if one is in force and with the timeout text otherwise, and stores it |
| Conversation.ConversationRunner.React | bot/agent/core.py:731-782 | An answer without calls closes the turn with its own text and payload; one with calls grows the turn, and closes it with the handoff's or the timeout text exactly where a handoff is in force or a deadline fires |
| Conversation.ConversationRunner.Iterate | bot/agent/core.py:589-782 | A continuing iteration asks on the turn with its steering messages, grows it by the whole answered batch or compacts that, and stores nothing; an ending one closes the turn as its ending says and, but for a provider error, stores it once |
| Conversation.ConversationRunner.Run | bot/agent/core.py:589-793 | The turn grows round by round, each by its steering, the answer's calls with their results and images, or a compaction of that; a completed turn ends in the text of an answer without calls, a timeout, a handoff and the last iteration in their own texts; but for a provider error the stored history is the trimmed old history with the retained turn: in form, without the advisory, within a positive limit |
| Conversation.OneMore | bot/agent/core.py:589-782 | A round that goes on from where the last one ended prolongs the rounds of a run |
| HandoffSnapshot.BuildSnapshot | bot/agent/core.py:1693-1738 | At most 20 messages and 12,000 characters; complete when that fits, otherwise a marker and the one selection of newest entries that the limits allow |
| HandoffSnapshot.KeepNewest | bot/agent/core.py:1727-1738 | The newest entries verbatim until a limit is used up, save that the oldest kept one loses exactly as much of the beginning of its text as does not fit |
| HandoffSnapshot.ShortenedUnique | bot/agent/core.py:1727-1738 | There is only one such selection |
| DashboardFiles.RenameKeeps | bot/app/dashboard_files.py:320-337 | Moving a directory into or out of quarantine keeps what the disk stands for |
| DashboardFiles.CommitMeaning | bot/app/dashboard_files.py:339-345 | Committing the deletion of a quarantined chat removes exactly that chat |
| DashboardFiles.RemovalKeeps | bot/app/dashboard_files.py:346-347 | A quarantine of a deleted chat means nothing, whole or partly removed |
| DashboardFiles.NoQuarantine | bot/app/dashboard_files.py:364-383 | A consistent disk without quarantines is what it stands for |
| DashboardFiles.DashboardFiles.QuarantineDirs | bot/app/dashboard_files.py:320-333 | Renames exactly the directories there are, one step each, up to the first rename that fails, the end of the process or a quarantine in the way, and keeps the meaning at each step |
| DashboardFiles.DashboardFiles.RestoreDirs | bot/app/dashboard_files.py:335-337 | Undoes the renames, last first, back to the original disk exactly if all of them work, and keeps the meaning otherwise |
| DashboardFiles.DashboardFiles.RemoveTree | bot/app/dashboard_files.py:346-347 | Removal file by file keeps the meaning at each step and succeeds exactly if the removal of each file and of the directory works |
| DashboardFiles.DashboardFiles.DeleteConversation | bot/app/dashboard_files.py:311-350 | The chat leaves the database if and only if no quarantine is in the way and the renames and the commit work; the deletion returns normally if and only if the removals work as well, and then leaves neither directory nor quarantine; a removal that fails is raised behind the commit; behind a rename or commit that fails the renames are undone, and the deletion is refused with the disk as it was exactly if that works; it dies only where the steps run out, and never touches another chat |
| DashboardFiles.UndoneEnds | bot/app/dashboard_files.py:335-345 | How a deletion that is given up ends is decided by the steps behind the one that failed |
| DashboardFiles.TookIff | bot/app/dashboard_files.py:311-385 | Something that needs n steps works if and only if these are there and work, and fails if and only if one of them fails |
| DashboardFiles.DashboardFiles.RecoverDeletions | bot/app/dashboard_files.py:352-385 | Needs one step for each restored directory and each removed entry and is done if and only if these work; keeps the meaning at every step, never finds conflicting files, and once complete leaves exactly the surviving chats' snapshots |
| DashboardFiles.DashboardFiles.Live | bot/app/dashboard_files.py:311-385 | The same over any sequence of deletions and recoveries, each step failing or the process dying anywhere |
| DashboardFiles.DashboardFiles.LiveAndRecover | bot/app/dashboard_files.py:311-385 | After any such history a complete recovery leaves every chat in the database with its original directories and nothing else |
| CodingCheckpoint.CheckpointIsExact | bot/app/coding_tasks.py:1048-1148 | At every moment of every run, over crashes, restarts and late commits, the durable transcript has taken in exactly the non-blank steering and recovery events with id up to its cursor, each once and in order |
| CodingCheckpoint.ResumeCatchesUp | bot/app/coding_tasks.py:1076-1148 | A worker that resumes from any reachable checkpoint and polls once holds every instruction so far exactly once |
| CodingCheckpoint.CheckpointIsRestored | bot/app/coding_tasks.py:1076-1148 | A checkpoint that commits stores all that its worker holds with its cursor, and the next worker begins with exactly that |
| CodingCheckpoint.LifeSavesAll | bot/app/coding_tasks.py:1076-1148 | Whatever has happened before, once a worker has started, polled and committed its checkpoint the durable transcript has taken in every instruction given so far |
| CodingCheckpoint.PollAdvances | bot/app/coding_tasks.py:1048-1074 | Reading after a cursor and moving it to the last event read takes in exactly the instructions between |
| CodingCheckpoint.WantedStable | bot/app/coding_tasks.py:1048-1074 | Later events, with higher ids, never change what a cursor stands for |
| CodingCheckpoint.ReadTakesIn | bot/app/coding_tasks.py:1051-1074 | A read that returns late still takes in all below its last event |
| CodingCheckpoint.RunKeeps | bot/app/coding_tasks.py:1076-1148 | The agreement of transcripts, cursors and pending writes with the events is kept by every step |
| CodingCheckpoint.TaskRun.ExternalMessages | bot/app/coding_tasks.py:1048-1074 | The loop yields exactly the instructions' texts in order, sets a queued task running exactly when some steering was among them, and moves the cursor past blank and foreign events too |
| CodingCheckpoint.TaskRun.Poll | bot/app/coding_tasks.py:1145-1148 | Reading and taking the texts into the turn is the read, return and delivery of the protocol's worker |
| CodingCheckpoint.ReworkedTakesIn | bot/agent/compaction.py:238-281 | Whatever a compaction drops, summarizes, elides or adds, no instruction is lost or repeated |
| CodingCheckpoint.PassIsStep | bot/agent/compaction.py:229-284 | Every pass of the compactor, on the summary, the elision and the no-summary path and with any truncation, is that step of the protocol: instructions stay verbatim and in order unless a summary has taken them in |
| CodingCheckpoint.TaskRun.Checkpoint | bot/app/coding_tasks.py:1119-1143 | What a run that is some worker of the protocol stores stands for the checkpoint that worker hands over: the same cursor, and messages that show the same items after a restart |
| CodingCheckpoint.ResumeAndPoll | bot/app/coding_tasks.py:1076-1148 | A run restored from a stored checkpoint of any reachable state shows, after one poll, every instruction given so far exactly once and in order, in whole messages |
| CodingCheckpoint.SteeringShows | bot/agent/core.py:593-604 | The loop turns the texts of instructions into exactly the messages that stand for them |
| CodingCheckpoint.Resume | bot/app/coding_tasks.py:1604-1661 | A resumed run has the checkpoint's cursor and, of every turn that the conversation loop builds, exactly the text projection of each message in order; it is in form exactly when the checkpointed transcript was |
| CheckpointCodec.RoundTripIffWhole | bot/app/coding_tasks.py:1662-1716 | Serializing and restoring gives the text projection if and only if every text part has text and every call an object of arguments |
| CheckpointCodec.RestoredWhole | bot/app/coding_tasks.py:1684-1716 | Every restored message is such a one |
| CheckpointCodec.SecondRoundTripIsIdentity | bot/app/coding_tasks.py:1662-1716 | After one restart a further round trip changes nothing |
| CheckpointCodec.RestoredWellFormed | bot/app/coding_tasks.py:1662-1716 | Restoring keeps the form of calls and results in both directions |
| CheckpointCodec.Deserialize | bot/app/coding_tasks.py:1684-1716 | For a stored object of any shape the loop restores every call that is an object, defaulting arguments that are none, and raises where a value cannot be iterated |
| CheckpointCodec.StoredDecodes | bot/app/coding_tasks.py:1662-1716 | What serialization stores decodes to the restored record |
| CheckpointCodec.RefusedIff | bot/app/coding_tasks.py:1684-1692 | Decoding raises if and only if the content or the calls are present as null, a boolean or a number |
| Cancellation.ActiveOperationRegistry.Cancel | bot/app/cancellation.py:123-186 | Clean means the registry now holds nothing in scope but the caller's and every task seen in any scan has finished; either way all their stop events are set, only tasks with a cancellable registration were cancelled, and the count is that of the responses found |
| Cancellation.ActiveOperationRegistry.CancelAll | bot/app/cancellation.py:188-221 | The same for all operations but the caller's |
| Cancellation.ActiveOperationRegistry.Drain | bot/app/cancellation.py:133-186 | The rescanning loop, round by round, with the registry changing at will during its waits |
| Cancellation.ActiveOperationRegistry.BindCurrentProvisional | bot/app/cancellation.py:65-79 | Binds every provisional registration of the task in place and leaves none |
| Cancellation.ActiveOperationRegistry.Register | bot/app/cancellation.py:94-105 | Publishes an operation at the end of the dictionary |
| Cancellation.ActiveOperationRegistry.HasActiveForUser | bot/app/cancellation.py:111-121 | True exactly when the user has an operation of another task |
| StopScopes.BoundIsNotMatchedByOtherRoot | bot/app/cancellation.py:65-79 | A bound turn is reached by a root-scoped stop exactly when the roots agree |
| StopScopes.ProvisionalIsMatchedByChannel | bot/app/cancellation.py:142-151 | Before it is bound it is reached exactly through its channel |
| StopScopes.NotCancelledIfNeverCancellable | bot/app/cancellation.py:174-177 | A task registered only with cancel_on_stop=False is drained but never cancelled |
| StopScopes.SeenIff | bot/app/cancellation.py:133-151 | What the scans saw is exactly what each of them found in the registry within the scope |
| StopScopes.CancelledIff | bot/app/cancellation.py:172-179 | A task is cancelled by the stop if and only if a scan saw a registration of it that may be cancelled |
| StopScopes.ScopeMeans | bot/app/cancellation.py:133-151 | A stop reaches nothing of the caller's own task, and otherwise everything, all of a user, one channel of a user, or one conversation with what is not bound yet in its channel |
| StopScopes.NothingMatchedIffClear | bot/app/cancellation.py:152-153 | Nothing is counted exactly when the first scan finds nothing, and then the stop is clean at once |
| StopScopes.OneResponseCountsOnce | bot/app/cancellation.py:155-171 | All registrations of one root in one channel count as one response |
| StopScopes.DifferentRootsCountApart | bot/app/cancellation.py:155-171 | Registrations of different roots count apart when no task mixes roots |
| StopScopes.RoundGoesOn | bot/app/cancellation.py:172-186 | A round whose tasks all finish keeps that everything seen so far is stopped and finished |
| StagedFiles.SavedIffFits | bot/agent/attachments.py:276-344 | An undisturbed stream is saved whole if and only if it is not empty, fits the limit and does not declare more |
| StagedFiles.SavedIff | bot/agent/attachments.py:276-344 | Any source is saved, and then whole, if and only if it meets no interruption, it and what it declares fit the limit, and no stream is empty |
| StagedFiles.TooLargeIff | bot/agent/attachments.py:276-344 | A source that meets none is refused as too large if and only if it or what it declares is above the limit |
| StagedFiles.OutcomeBounded | bot/agent/attachments.py:283-344 | No outcome accepts more than the effective limit, whatever the source does |
| StagedFiles.LeftBehindIff | bot/agent/attachments.py:1081-1098 | Step by step over names and directory, a cancelled thread's file outlives the cleanup exactly when it is created after its name was unlinked and its directory was not pruned under it |
| StagedFiles.SomeRaceLeavesIff | bot/agent/attachments.py:407-421 | Some schedule leaves a file for a cancelled preparation or append and none for a rename; none does once the thread is waited for |
| StagedFiles.LeavesIffLateWrite | bot/agent/attachments.py:322-344 | A save leaves a file behind if and only if a cancellation lands in a preparation or append that the stream reaches and that schedule lets the file outlive the cleanup |
| StagedFiles.MayLeaveIff | bot/agent/attachments.py:322-344 | Whatever the schedule: a cancelled disk step may leave a file if and only if it is a preparation or append that the stream reaches |
| AttachmentStorage.AttachmentStore.Save | bot/agent/attachments.py:276-344 | Performs that outcome on disk under a name of its own; from its beginning on the store never holds more than before plus the limit |
| AttachmentStorage.AttachmentStore.AppendChunks | bot/agent/attachments.py:326-335 | The loop over the chunks stops where the outcome says |
| AttachmentStorage.AttachmentStore.Cleanup | bot/agent/attachments.py:1081-1088 | Removes exactly the given files |
| ImageDecisions.JudgeBounded | bot/agent/attachments.py:461-601 | A candidate never uses up more than is left, a kept file is paid for in full, a kept derivative is within its limit, and only a cancellation leaves a file |
| ImageDecisions.KeptIffGood | bot/agent/attachments.py:461-611 | A candidate is kept if and only if its declared size and its source fit the source limit and what is left, nothing happens to it, normalization passes with no derivative or one within the limit, and the file reads back with the expected type; it then pays for its whole source |
| ImageDecisions.TooLargeIsNamed | bot/agent/attachments.py:465-516 | A candidate that is too large is dropped and named by the limit that it breaks; by its metadata alone it costs nothing |
| ImageDecisions.BadIsNamed | bot/agent/attachments.py:536-593 | A source that was saved but makes no image is paid for, dropped and named, save that a mere suffix that does not decode stays an ordinary attachment |
| ImageDecisions.AmpleWalkKeeps | bot/agent/attachments.py:457-619 | With room for all candidates of a message the images are exactly those of the attachments that make one, in order |
| ImageDecisions.WalkKeepsIff | bot/agent/attachments.py:457-619 | Under any allowance they are exactly those of the attachments that the walk gets to and that are good for what is then left, in order |
| ImageDecisions.OneWalkKeeps | bot/agent/attachments.py:457-619 | With a single candidate only the first one decides |
| ImageDecisions.CalmWalk | bot/agent/attachments.py:457-619 | A walk over attachments about which nothing is cancelled or breaks returns normally |
| ImageDecisions.JudgeLeavesIff | bot/agent/attachments.py:488-530 | Among all ways a candidate can end, only that late write leaves a file |
| ImageDecisions.WalkBounded | bot/agent/attachments.py:457-619 | Over one message, kept source bytes are paid out of the shared budget, derivatives out of one limit per candidate, and kept images out of results and candidates |
| ImageDecisions.WalkLeavesOnly | bot/agent/attachments.py:457-619 | A message leaves a file only if the save of one of its attachments was cancelled in its thread |
| ImageDecisions.WalkLeavesIff | bot/agent/attachments.py:457-619 | It does so if and only if the walk gets to an attachment whose save is cancelled in a preparation or append that its stream reaches and whose file outlives the cleanup |
| ImageCollection.Normalize | bot/agent/attachments.py:532-593 | Computes the judgement of a staged source; every failure after staging removes both files, success leaves the source and, if one was needed, a derivative within its limit |
| ImageCollection.Try | bot/agent/attachments.py:461-611 | One candidate is judged as specified, and what it leaves on disk fits its fate |
| ImageCollection.ImagesFromMessage | bot/agent/attachments.py:447-619 | Computes the walk; on return the staged files are exactly the cleanup paths of the images, on an exception all are rolled back but the one file, of the stated size, that a cancelled save leaves |
| TurnSurfaces.AddedAreNew | bot/agent/attachments.py:930-947 | Images added beside the message's own are new to turn and history, never repeated, within the limit |
| TurnSurfaces.AllNewAreAdded | bot/agent/attachments.py:930-947 | Everything new is added while there is room, behind the message's own images |
| TurnSurfaces.OwnImagesShown | bot/agent/attachments.py:864-873 | With room for all its candidates a turn shows exactly the images that its own attachments make |
| TurnSurfaces.CalmTurnIsShown | bot/agent/attachments.py:836-960 | A turn in which nothing is cancelled or breaks is collected |
| TurnSurfaces.ReplyShown | bot/agent/attachments.py:878-889 | A reply shows its first candidate if that is good for the bytes that the message has left, and nothing else |
| TurnSurfaces.HistoryIsLastResort | bot/agent/attachments.py:890-904 | An image of the history is shown only when the message names no image and the reply shows none, and then what the search finds is shown |
| TurnSurfaces.AssembledMeans | bot/agent/attachments.py:921-960 | The own images come first in the vision, the edit target is the reply's image before the history's, all files of all images are to be cleaned up, and the own image is unavailable if one was attempted and none is there |
| TurnSurfaces.OfferedAreShown | bot/agent/attachments.py:935-947 | The reply's image, if replies are included, and the history's are shown unless they are known already or the turn is full |
| TurnSurfaces.NewestDecides | bot/agent/attachments.py:808-829 | An image from the history is that of the newest own message within the lookback that has one: every earlier own message came to nothing |
| TurnSurfaces.FirstImageDecides | bot/agent/attachments.py:808-829 | Conversely the first own message that the search gets to with an image is it |
| TurnSurfaces.StoppedLeavesOnly | bot/agent/attachments.py:836-919 | A cancelled turn leaves no file at all unless the save of one of its attachments was cancelled in its thread |
| TurnSurfaces.StoppedLeavesIff | bot/agent/attachments.py:836-919 | A turn leaves a file if and only if one of its surfaces is reached and gets to such an attachment |
| TurnImageCollector.ReplyImages | bot/agent/attachments.py:648-679 | At most one image out of the shared bytes; an ordinary failure is passed over with nothing staged, a cancellation leaves exactly what its save leaves |
| TurnImageCollector.HistoryImages | bot/agent/attachments.py:792-833 | Computes the search through the history on one candidate for the whole scan, with nothing staged by the messages passed over |
| TurnImageCollector.Vision | bot/agent/attachments.py:935-947 | The loop computes the specified vision images |
| TurnImageCollector.CollectTurnImages | bot/agent/attachments.py:836-960 | Goes exactly as the specified course of the turn: on return the files beyond those there before are exactly the cleanup paths, on a cancellation there is none but the one, of the stated size, that the cancelled save leaves; from its beginning on the store never holds more source bytes than before plus the budget, nor more derivative bytes than one limit per image and one more; vision images are within their limit |
| TurnImageCollector.OtherSurfaces | bot/agent/attachments.py:876-919 | The history is read only when neither the message nor the reply could give an image; a cancellation on either surface removes all that the earlier ones staged |
| CodingDelivery.FindResultDelivery | bot/app/coding_delivery.py:514-551 | Finds the leftmost placement of the chunks among the bot's scanned messages whenever there is one, returns messages whose contents are the chunks in order, and nothing otherwise |
| CodingDelivery.MatchFrom | bot/app/coding_delivery.py:537-549 | The greedy scan places each chunk no later than any other placement from this start |
| CodingDelivery.PartIsNotFound | bot/app/coding_delivery.py:534-551 | With one chunk missing nothing is found |
| CodingDelivery.FoundIffWithinLimit | bot/app/coding_delivery.py:526-551 | A delivery is found if and only if some placement of its chunks has its oldest message among the newest that are fetched, counted over the messages of everybody |
| CodingDelivery.StillFoundIff | bot/app/coding_delivery.py:526-551 | After more messages of anybody the only delivery in a channel is still found if and only if the age of its oldest message and all that was posted since are below the limit |
| CodingDelivery.LaterMessageHides | bot/app/coding_delivery.py:526-529 | Concrete history: a delivery that is found and, after one message of somebody else, is not |
| DashboardAuth.NoSessionFromBeforeDeletion | bot/app/dashboard_auth.py:99-233 | No session of a user descends from a challenge issued before any deletion of that user, over every run, even after the fence is pruned |
| DashboardAuth.RefusedIffDeletedSince | bot/app/dashboard_auth.py:146-147 | A login in flight is refused if and only if its challenge has expired or its user was deleted since it was issued |
| DashboardAuth.FenceIsExact | bot/app/dashboard_auth.py:222-233 | While a challenge lives, its fence cannot have been pruned |
| DashboardAuth.Bounded | bot/app/dashboard_auth.py:99-168 | Live sessions and challenges never exceed the maximum |
| DashboardAuth.OthersUnaffected | bot/app/dashboard_auth.py:222-227 | Deleting one user takes no session from another and spoils none of their logins |
| DashboardAuth.SessionStays | bot/app/dashboard_auth.py:108-233 | A session stays through every event but its expiry, its user's deletion, its logout and the same user's next sign-in in that browser |
| DashboardAuth.ChallengeStays | bot/app/dashboard_auth.py:99-118 | A challenge stays until it expires, is used, or is issued anew under its cookie |
| DashboardAuth.FirstLogin | bot/app/dashboard_auth.py:99-168 | A browser that is given a challenge and answers it in time is signed in |
| DashboardAuth.RunKeeps | bot/app/dashboard_auth.py:99-233 | Generations, fences and expiries fit the history after every step |
| DashboardAuth.DashboardAuth.IssueChallenge | bot/app/dashboard_auth.py:99-106 | Issued exactly while there is room, with the generation and a life of 300 seconds |
| DashboardAuth.DashboardAuth.BeginLogin | bot/app/dashboard_auth.py:116-122 | Takes the challenge out whatever follows, and goes on only with the right state and a well-formed request |
| DashboardAuth.DashboardAuth.FinishLogin | bot/app/dashboard_auth.py:141-168 | Opens the session exactly when the identity is known, the challenge lives, the user was not deleted since and there is room beside the replaced session; the old slot is reclaimed only for the same user |
| DashboardAuth.DashboardAuth.DeleteUser | bot/app/dashboard_auth.py:222-227 | Removes exactly the user's sessions and leaves challenges alone |
| DashboardAuth.DashboardAuth.IsLive | bot/app/dashboard_auth.py:216-217 | What is valid descends from a challenge issued after every deletion of its user |
| SlidingWindow.WindowBounded | bot/app/dashboard.py:294-328 | Spaced requests fill any sixty seconds open at one end with at most the limit |
| SlidingWindow.SpanIsWindow | bot/app/dashboard.py:294-328 | The first and last of one more than the limit are a whole window apart |
| SlidingWindow.AdmitKeepsSpacing | bot/app/dashboard.py:301-306 | Admitting into a trailing window with room keeps the spacing |
| SlidingWindow.ClosedWindowHoldsTwice | bot/app/dashboard.py:299-305 | A window of sixty seconds closed at both ends holds at most twice the limit in every admitted history, and two bursts sixty seconds apart fill it |
| SlidingWindow.ClosedWindowKeepsLimitIff | bot/app/dashboard.py:299-305 | Closed windows of a given length keep the limit in every admitted history if and only if they are shorter than sixty seconds |
| SlidingWindow.AgreeLater | bot/app/dashboard.py:294-300 | A pruned deque that agrees with the history agrees at every later moment |
| SlidingWindow.DroppedStands | bot/app/dashboard.py:296-298 | Dropping stale keys loses nothing recent |
| RateLimit.PopOld | bot/app/dashboard.py:300-301 | The popping loop leaves exactly the times within the trailing window |
| RateLimit.DashboardLimiter.RateLimit | bot/app/dashboard.py:294-306 | Refuses exactly when the user's own trailing window in the full history holds 120 requests |
| RateLimit.DashboardLimiter.RateLimitUnauthenticated | bot/app/dashboard.py:308-328 | Refuses exactly when the source's window holds 60 or that of all sources 240 |
| RateLimit.DashboardLimiter.WindowsBounded | bot/app/dashboard.py:294-328 | Over every run any such sixty seconds hold at most 120 requests of a user, 60 of a source and 240 of all |
| UsageLedger.RunKeeps | bot/agent/turn.py:1101-1122 | Whenever no write is in progress the ledger is the persisted prefix of the call list, despite appends during writes and failed writes |
| UsageLedger.FinalFlushRecordsAll | bot/agent/turn.py:1101-1122 | One more accepted flush makes the ledger equal to all calls: each exactly as often and in the order made |
| UsageLedger.OnlyGrows | bot/agent/turn.py:1089-1122 | Neither the call list nor the ledger ever changes what it holds |
| UsageLedger.AbsorbKeepsDistinctIff | bot/agent/turn.py:1089-1093 | Merging a result duplicates a call if and only if the result itself holds a new call twice |
| UsageRecorder.TurnUsageRecorder.Absorb | bot/agent/turn.py:1089-1093 | Appends exactly the calls not known before |
| UsageRecorder.TurnUsageRecorder.BeginFlush | bot/agent/turn.py:1101-1109 | Hands over exactly the calls beyond the ledger |
| UsageRecorder.TurnUsageRecorder.EndFlush | bot/agent/turn.py:1110-1122 | Advances the ledger exactly when the store recorded everything |
| AdmissionCounts.CountsAreLeases | bot/app/admission.py:69-123 | In every reachable state the total is the number of unreleased leases and the sum of the counts per user, no count is zero, both limits hold and no release has underflowed |
| AdmissionCounts.AdmittedIffRoom | bot/app/admission.py:81-104 | A turn is admitted exactly when the controller is open and neither limit is reached |
| AdmissionCounts.ReleaseNeverUnderflows | bot/app/admission.py:111-123 | The underflow error is unreachable |
| AdmissionCounts.NothingAfterClose | bot/app/admission.py:85-109 | Nothing is granted after close, whatever follows |
| AdmissionCounts.ReleaseTwiceIsOnce | bot/app/admission.py:111-115 | Repeated release is harmless |
| AdmissionCounts.DrainedIsEmpty | bot/app/admission.py:111-123 | When every lease is released the counts are empty |
| Admission.TurnAdmissionController.Create | bot/app/admission.py:69-79 | Refuses limits that are not positive |
| Admission.TurnAdmissionController.TryAcquire | bot/app/admission.py:81-104 | Gives a new lease or the reason, in the order of the checks, and never both |
| Admission.TurnAdmissionController.ReleaseLease | bot/app/admission.py:111-123 | Gives back one unit of the lease's user, once |
| Admission.TurnAdmissionController.CloseAdmission | bot/app/admission.py:106-109 | Closes for good while leases drain |

## Left out

- Truncation.HardTruncate: requires only that the loop ends, as it must to return; for longer labels that is stated as such and not reduced to a condition on the turn beyond `Truncation.LongNameLoops`. `Compaction.Compact` asks the same of what it assembles.
- Compaction.NotesRollForward: assumes that appended messages and summaries do not themselves begin with the reserved note and reminder texts, which the source does not check.
- Context.AppendAdvisory: speaks of advisories that begin with the reserved tag; an original part that begins with it would be stripped as well.
- Conversation.ConversationRunner.Run: the turn stays in form for providers that never repeat a call id within one response and, where a compactor works on the turn, name no tool beyond the length on which its truncation ends; the compactor may be any that keeps form, as the modelled one does (`Conversation.CompactorKeepsForm`).
- Conversation.ConversationRunner.MaybeCompact: whether the projected size of the next request reaches the trigger is part of what the compactor gives, and so is its text.
- Conversation.ConversationRunner.Ask: the steering texts reach the turn before the request is built, but what each provider request contains is not modelled.
- CommandSync.CohortPublishesOnce: needs every cancel-all to come after the shutdown flag, the order in which shutdown runs them; a cancel-all in an open application may drop the cached publication of a running cohort. READY initialization itself, `resume` and the guild-scoped sync are not modelled.
- ModuleManagement.ModuleManager.Load: tool labels, surface declarations, module settings and file permissions are part of the opaque composition of a module; the name, settings, permission and guild-setting checks of one module are one predicate of the host.
- ModuleManagement.ModuleManager.StartAll: a `start()` that ignores its cancellation, health states and the pieces of a close beside the call itself are not modelled.
- CodingCheckpoint.CheckpointIsExact: a transcript is modelled by the provenance of its messages, and a summary counts as having taken in the instructions of what it replaces; whether a summarizer's text mentions them is outside the model.
- CodingCheckpoint.PassIsStep: assumes, as `Compaction.NotesRollForward` does, that a summary does not begin with one of the reserved bodies.
- CheckpointCodec.Deserialize: the printed form of a list or object is a parameter, and objects of arguments are told apart only by it; the provider state, the plan and the delivery part of a checkpoint are not modelled.
- CodingCheckpoint.TaskRun.Poll: reads and takes in without an await between; what happens in between is in `CodingCheckpoint.CheckpointIsExact`.
- CodingDelivery.FindResultDelivery: the splitting of a text into chunks is a parameter, and messages equal in content are not told apart.
- Cancellation.ActiveOperationRegistry.Drain: one loop stands for the two identical loops of `cancel` and `cancel_all`; a deadline is the end of the given waits. A root that equals the text made up for an unbound task is told apart from it.
- DashboardAuth.DashboardAuth.FinishLogin: the exchange with Discord is one opaque identity, secrets and tokens are parameters, clock readings are real numbers, and one clock reading stands for the two of the last step. Cookies, origins and CSRF tokens are not modelled.
- DashboardFiles.DashboardFiles.DeleteConversation: a store that raises has not committed; symbolic links, file modes, other names in the directory and the lock around the operation are not modelled; no other writer runs in between.
- StagedFiles.LeavesIffLateWrite: removal of a file always succeeds, a directory counts with its parent as one, and whether other files keep it is an input of the race, not taken from the rest of the turn. `AttachmentStorage` itself keeps files by name without their directories.
- ImageCollection.Normalize: the worker's own temporary file counts as the derivative it becomes, and image content is one hash.
- TurnImageCollector.CollectTurnImages: an error of a rollback itself is not modelled; the trusted processing notice, the wording of the feedback and reply text are not modelled.
- UsageRecorder.TurnUsageRecorder.EndFlush: a write that is cancelled counts as one that recorded nothing, as the store's contract has it.
- RateLimit.DashboardLimiter.RateLimit: clock readings are real numbers that never decrease; rounding of floating point is not modelled.
- Admission.TurnAdmissionController.ReleaseLease: the lock and the shield against cancellation are the atomicity of one step.
- HandoffSnapshot.BuildSnapshot: the limits are those of the code; recalled memories and attachment notes are ordinary context messages.
- Discord delivery, embeds, HTTP handlers, SQLite, providers, moderation and the sandbox: foreign calls, modelled only as arbitrary results where a protocol needs one.
- The usage flush of a coding task, which follows the scheme of the turn recorder on its own counter, is not modelled again.
- Heartbeats, publishers and scheduling of coding tasks, the moderation recorder, label tables and prompt texts: they would add only easy members.
