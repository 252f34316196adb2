# GEODE protocols, verified

GEODE is an agent runtime. This project models seven of its stateful parts in Dafny and
proves what they keep, over every input, every run and every interleaving. The model follows
the code: the same branches, constants and error cases. Where a stated intention does not
hold as the code is written, the code is kept, the exact condition under which it holds is
proved, and a lemma gives an input or a run on which it fails.

`dafny verify dfyconfig.toml` checks everything.

## What is modelled

**The roadmap ledger** (`scripts/check_architecture_roadmap.py`). `RoadmapModel` holds the
parsed document; `RoadmapRules` has one predicate for each rule; `RoadmapChecker` and
`RoadmapTransitions` are the validators as loops over rows, each proved to report nothing
exactly when its predicate holds; `DependencyCycle` is the depth-first search.
`RoadmapDelivery` proves what one branch keeps, `RoadmapLifecycle` what a valid ledger says and
how a GAP lives on develop, `RoadmapMoves` that it can make each of those moves,
`RoadmapMainline` what main is at any moment, `RoadmapBranches` what the two branches keep
when each step may be checked against any past state of the other, `RoadmapPromotion` and
`RoadmapSync` when a promotion can still be reached, and `RoadmapExample` gives the run that
loses it, on cells written as the ledger writes them. The checks act together: the transition
table lists IN_DEVELOP -> BLOCKED, but evidence can neither be removed nor be prospective, so
no accepted step makes that move.

**Human approval** (`core/agent/approval.py`, `core/agent/approval_fsm.py`).
`ApprovalRecord` is the trail of one approval, `ApprovalGates` the gates, `ApprovalWorkflow`
the object that runs them. `ApprovalRuns` interleaves any number of gates and relates the
session's memory to its history. `ApprovalLock` is the lock with the worker threads that both
take it and run the prompts, with cancellation before the grant, between the grant and its
observation, and in the body. `ApprovalAnswers` says what the answers mean, from the typed
text to the grant, when a tool is struck out, and which trails there are.

**The GEO evidence run** (`evals/geo.py`). `GeoEvidence` is validation and storage of one
measurement, `GeoRuns` what each operation makes of a row, `GeoStore` the store with its
compare-and-swap, `GeoConcurrency` any number of callers that read, validate and then write,
`GeoHistory` what has happened to a run before it is replaced or reaches a phase,
`GeoExample` the run in which a checked preregistration misses its run.

**The context-constructor scan** (`scripts/architecture_baseline.py`). `ContextModules` says
what a name can be derived to mean, `ContextExports` is the pass with its inner alias loop,
`ContextFixpoint` proves that what it settles on is exactly the derivable entries when names
have one meaning, `ContextLayers` that it settles when imports never run in a circle,
`ContextScan` has the loops and a cycle on which they never stop, `ContextPaths` the dotted
paths read off the result and which of several aliases decides.

**The stuck-loop detector** (`core/agent/convergence.py`), **the conversation history**
(`core/agent/conversation.py`) and **the shared run timeline** (`evals/run_timeline.py`,
`core/observability/run_event.py`) are `Convergence`, `Conversation` and `RunTimeline`;
`ConvergenceLogs` says which log entry a result is charged to, `ConversationTrims` what a trim
must keep, and `RunTimelineFailures` what crashes and failing appends do to the timeline.

`Prelude` and `PythonText` are shared vocabulary.

## Where the code and its stated intention part

- The sync check compares closure rows as sets, while promotion compares tables as prefixes.
  A step that copies two of main's rows in swapped order is accepted and ends all promotion
  (`RoadmapExample.SwappedCopyLosesPromotion`); exactly the orderly runs can still promote
  (`RoadmapSync.PromotionAheadIffOrderly`).
- A queued gate is meant to observe an earlier `a` before it prompts. The write, cost and
  declared gates do (`ApprovalRuns.AlwaysAtMostOnce`); the MCP and bash gates look only when
  they arrive. A second prompt after an `a` comes exactly from calls that had arrived before it
  (`ApprovalRuns.AskedAfterAlwaysArrivedBefore`, `ApprovalRuns.BothAsked`,
  `ApprovalRuns.AskedTwice`).
- Three denials are meant to deny a tool for the session. The automatic grant is looked for
  first, so a category allowed through another tool still grants a struck one
  (`ApprovalRuns.StruckGrantedOnlyByRule`); the MCP gate does not consult the counter.
- One approval is meant to be one legal trail. A tool that passes one gate and then meets the
  cost gate makes an illegal move, and only then (`ApprovalGates.LegalIffOneGate`).
- The lock and the prompts share their threads. With as many outstanding acquires as threads
  ahead of the holder's prompt nothing moves any more (`ApprovalLock.BoundIsTight`); while
  there are fewer, every gate finishes, however many calls follow
  (`ApprovalLock.EveryGateFinishes`), and there is no other deadlock
  (`ApprovalLock.StuckExactly`).
- Preregistration is meant to require LIVE_OBSERVE. Its check and its write are two reads: the
  receipt lands elsewhere exactly when the second read sees PREFLIGHT, of a run that replaced
  the checked one (`GeoConcurrency.PreregistrationLands`), and there is a whole run from the
  empty store in which it does (`GeoExample.PreregistrationReachesPreflight`).
- The scan of context constructors loops until nothing changes. If a name is rebound around
  an import cycle something may change for ever (`ContextScan.CycleRunsForEver`). Imports
  without a circle, or one meaning for each name, are each enough for it to end
  (`ContextLayers.LayeredSettles`, `ContextScan.OneMeaningSettles`).
- The detector's digest is sorted, but its key also shows the first error, so it depends on
  the order of a batch (`Convergence.KeysEqualIff`, `Convergence.OrderShowsInKey`).
- The history is meant to start with a user message. The repair runs after that rule is
  established and can undo it; putting the latest marked input back restores it only when the
  slice had cut that input off (`Conversation.UserFirstAfterTrim`,
  `Conversation.UserFirstCanBeLost`). The same step can also put back a message whose tool
  results were just removed (`Conversation.TrimmedPairedIff`,
  `Conversation.MarkedBlocksBreakPairing`). With no turns allowed the slice keeps everything
  (`Conversation.TrimmedIsPairedAndShort`).
- An unreadable sidecar falls back to the last row; an empty one reads as 0. Only an append
  that fails or dies while the sidecar is empty can make an ordinal repeat
  (`RunTimelineFailures.OnlyTruncationRepeats`, `RunTimelineFailures.CrashRepeatsOrdinal`), and
  from such a state the rest is safe exactly when whoever comes next has seen the last ordinal
  (`RunTimelineFailures.SafeToGoOnIff`). A number in the sidecar is not enough by itself
  (`RunTimelineFailures.NumberIsNotEnough`).
- A failure after the sidecar is written leaves a gap in the numbering. The marker of the next
  compaction counts rows, not ordinals, so it is in order exactly when the kept rows have no
  gap (`RunTimelineFailures.CompactionOrderedIff`,
  `RunTimelineFailures.CountedFailureDisordersRows`).

## Assumptions made explicit

- `TextRules` is a record of arbitrary total functions for the ledger's text predicates
  (clean, meaningful, pull-request link, SHA, verification wording, structured pass,
  timestamp, list and transition patterns). Every ledger result holds for all of them.
- `show` renders values that are not text; `Rendering` holds the fingerprint and the summary
  of a success. Both are arbitrary functions.
- A new GEO run gets a run id never used before. A SQLite transaction is one step.
- The detector's digest tells different multisets of errors apart.
- Prompts end: a running prompt can always be answered.
- Where the context scan is said to find exactly the derivable entries, module names are not
  empty and a dotted value goes through at most one bound prefix.
- Message objects are told apart by where they stand in the history they come from.

## Model

| member | source | states |
|---|---|---|
| `RoadmapChecker.Duplicates` | scripts/check_architecture_roadmap.py:398-400 | returns exactly the values that occur more than once |
| `RoadmapChecker.GroupByPackage` | scripts/check_architecture_roadmap.py:634-636 | every package met, once and in ledger order, with exactly its rows in ledger order |
| `RoadmapChecker.CheckReadiness` | scripts/check_architecture_roadmap.py:513-526 | no error exactly when every known dependency in another package is delivered |
| `RoadmapChecker.CheckGapRows` | scripts/check_architecture_roadmap.py:581-607 | no error exactly when every row meets its own rules: audit class, evidence, package, known dependencies, terminal decisions, readiness |
| `RoadmapChecker.CheckSelectors` | scripts/check_architecture_roadmap.py:613-625 | no error exactly when every selector is nonempty and names known rows of its own package; the selections it files are those of the selectors |
| `RoadmapChecker.CheckSelections` | scripts/check_architecture_roadmap.py:626-632 | no error exactly when each row is selected once and its package has a selector |
| `RoadmapChecker.CheckAtomic` | scripts/check_architecture_roadmap.py:637-642 | no error exactly when all rows of a package have one status |
| `RoadmapChecker.CheckClaims` | scripts/check_architecture_roadmap.py:644-680 | no error exactly when the claims are unique, well formed, on IN_PROGRESS packages with all their rows, and no IN_PROGRESS package is unclaimed |
| `RoadmapChecker.CheckDevelopEvidence` | scripts/check_architecture_roadmap.py:699-732 | no error exactly when the develop rows are unique and valid and every delivered package has one |
| `RoadmapChecker.CheckMainEvidence` | scripts/check_architecture_roadmap.py:734-762 | no error exactly when the closure rows are unique and valid and every DONE row has one |
| `RoadmapChecker.CheckDecisionEvidence` | scripts/check_architecture_roadmap.py:764-801 | no error exactly when decision rows are distinct and valid and every decided row has its decision |
| `RoadmapChecker.CheckBlockerEvidence` | scripts/check_architecture_roadmap.py:803-848 | no error exactly when blocker rows are distinct and valid and each package's last readable move agrees with its status |
| `RoadmapChecker.ValidateStructure` | scripts/check_architecture_roadmap.py:556-689 | reports nothing exactly when the ledger meets the whole structural predicate, the dependency graph being acyclic included |
| `DependencyCycle.CycleSearch.Visit` | scripts/check_architecture_roadmap.py:533-547 | either returns a real cycle, or leaves the stack as it was with the start finished; finished ids lead only to finished ids |
| `DependencyCycle.FindDependencyCycle` | scripts/check_architecture_roadmap.py:529-553 | terminates; None exactly when the graph over known ids is acyclic; otherwise a path along real edges whose first and last ids are equal |
| `RoadmapTransitions.CheckStatusChange` | scripts/check_architecture_roadmap.py:948-1001 | no error exactly when a row's status is unchanged or moves as the table and the new evidence and claims allow; the moves there are, are those of RoadmapMoves.MovesExactly |
| `RoadmapTransitions.CheckGapChanges` | scripts/check_architecture_roadmap.py:893-1001 | no error exactly when no row is lost or moved, new rows start OPEN in new packages, and every kept row keeps its registration and changes only as allowed |
| `RoadmapTransitions.CheckNewDevelopRows` | scripts/check_architecture_roadmap.py:1013-1022 | no error exactly when every new develop row has a structured pass and a package that has just become IN_DEVELOP |
| `RoadmapTransitions.CheckNewMainRows` | scripts/check_architecture_roadmap.py:1023-1036 | no error exactly when every new closure row has a structured pass and a row that has just become DONE |
| `RoadmapTransitions.CheckNewDecisionRows` | scripts/check_architecture_roadmap.py:1037-1066 | no error exactly when every new decision row has a structured pass and matches a status move or the exact edges removed or added |
| `RoadmapTransitions.CheckNewBlockerRows` | scripts/check_architecture_roadmap.py:1067-1079 | no error exactly when every new blocker row has a structured pass and states its package's move |
| `RoadmapTransitions.CheckMainSync` | scripts/check_architecture_roadmap.py:1081-1093 | no error exactly when every DONE of the trusted main is DONE here and all its closure rows are present |
| `RoadmapTransitions.CheckClaimsKept` | scripts/check_architecture_roadmap.py:1095-1105 | no error exactly when no claim changes while its package stays IN_PROGRESS |
| `RoadmapTransitions.CheckAppended` | scripts/check_architecture_roadmap.py:1107-1120 | no error exactly when each of the four base tables is a prefix of the current one |
| `RoadmapTransitions.ValidateTransitions` | scripts/check_architecture_roadmap.py:852-1121 | reports nothing exactly when the step meets the whole transition predicate |
| `RoadmapTransitions.MaskedRows` | scripts/check_architecture_roadmap.py:1185-1195 | under the mask the rows found by one id differ in status only, so the separate dependency check never adds a case |
| `RoadmapTransitions.ValidateMainTracking` | scripts/check_architecture_roadmap.py:1161-1204 | reports nothing exactly when only statuses changed, and only from IN_DEVELOP to DONE, all tables but the closures being equal |
| `RoadmapTransitions.ValidateMainPromotion` | scripts/check_architecture_roadmap.py:1207-1266 | reports nothing exactly when the document is develop's, keeps every row's registration and DONE, and each of main's tables is a prefix |
| `RoadmapTransitions.Check` | scripts/check_architecture_roadmap.py:1293-1397 | returns no finding exactly when the document is accepted for its branch and event, over all combinations of base and trusted documents |
| `RoadmapDelivery.StepExtends` | scripts/check_architecture_roadmap.py:893-899 | an accepted step of either branch keeps the row order, the registrations and all four tables as prefixes; both documents are structurally valid |
| `RoadmapDelivery.TransitiveDelivery` | scripts/check_architecture_roadmap.py:513-526 | in a structurally valid ledger every row reachable by dependencies from a delivered row is delivered, by induction on the walk |
| `RoadmapDelivery.DeliveredKept` | scripts/check_architecture_roadmap.py:699-732 | the argument over any extension: evidence that cannot be removed keeps the package delivered, whatever the table allows |
| `RoadmapDelivery.DeliveredIsAbsorbing` | scripts/check_architecture_roadmap.py:96-105 | after any accepted step a delivered row is DONE or still IN_DEVELOP, although the table lists BLOCKED, REJECTED and SUPERSEDED |
| `RoadmapDelivery.DeliveryRowAppended` | scripts/check_architecture_roadmap.py:1013-1022 | when a package becomes delivered its only develop row is one of the rows just appended |
| `RoadmapDelivery.RepeatedRowRejected` | scripts/check_architecture_roadmap.py:699-701 | a develop row appended a second time makes the ledger structurally invalid |
| `RoadmapDelivery.RunExtends` | scripts/check_architecture_roadmap.py:1107-1120 | over a whole run of one branch every later document extends every earlier one |
| `RoadmapDelivery.EntersOnce` | scripts/check_architecture_roadmap.py:1018-1022 | in a whole run a package becomes delivered at most once |
| `RoadmapDelivery.DeliveryStep` | scripts/check_architecture_roadmap.py:729-732 | a package undelivered at first and delivered at last has one entering step, and its single develop row was appended by that step |
| `RoadmapLifecycle.StepMoves` | scripts/check_architecture_roadmap.py:948-950 | an accepted step on develop moves a GAP only so: OPEN from READY, IN_PROGRESS or BLOCKED; READY from OPEN, IN_PROGRESS or BLOCKED; IN_PROGRESS from READY; IN_DEVELOP from IN_PROGRESS; DONE from IN_DEVELOP; BLOCKED and decided only from where nothing is delivered |
| `RoadmapMoves.MovesExactly` | scripts/check_architecture_roadmap.py:96-105 | and each of those moves is made by some accepted step, under any judgements that read such cells |
| `RoadmapMoves.WordsCanBeRead` | scripts/check_architecture_roadmap.py:36-61 | written-out cells that meet the hypothesis |
| `RoadmapLifecycle.PathToDelivery` | scripts/check_architecture_roadmap.py:952-958 | over every run of develop, an OPEN GAP that gets delivered was READY, then IN_PROGRESS in every document under one and the same claim, then IN_DEVELOP with the claim gone and the develop row new, and delivered ever since |
| `RoadmapLifecycle.BornOpen` | scripts/check_architecture_roadmap.py:904-910 | a GAP that a step adds is OPEN, under a new id in a new package |
| `RoadmapLifecycle.PathFromBirth` | scripts/check_architecture_roadmap.py:904-958 | over every run of develop, each GAP it brings in and delivers has that whole path from its birth |
| `RoadmapLifecycle.ClaimStays` | scripts/check_architecture_roadmap.py:1095-1105 | while work goes on across a step its claim is the same |
| `RoadmapLifecycle.DecidedForGood` | scripts/check_architecture_roadmap.py:96-105 | over every run of develop REJECTED and SUPERSEDED are never left |
| `RoadmapLifecycle.DeliveryIffRow` | scripts/check_architecture_roadmap.py:1013-1022 | a step adds a develop row of a package if and only if it makes the package IN_DEVELOP |
| `RoadmapLifecycle.BlockingIffRow` | scripts/check_architecture_roadmap.py:977-986 | a step adds a blocker row of a package if and only if it blocks or unblocks it |
| `RoadmapLifecycle.DecisionIffRow` | scripts/check_architecture_roadmap.py:1037-1066 | a step adds a decision row of a known GAP if and only if it rejects or supersedes it or changes its dependencies |
| `RoadmapLifecycle.NewRowsAreVerified` | scripts/check_architecture_roadmap.py:1013-1079 | each row a step adds states a structured pass, and each blocker row the very move of its package |
| `RoadmapLifecycle.EdgesExplained` | scripts/check_architecture_roadmap.py:921-945 | over every run of develop, a dependency gone or come is named by a decision row of that kind for that GAP which the run added |
| `RoadmapLifecycle.ClaimsMatchWork` | scripts/check_architecture_roadmap.py:644-680 | in a valid ledger the claimed packages are exactly those in progress, once each, and a claim names exactly the GAPs of its package |
| `RoadmapLifecycle.SelectorsPartition` | scripts/check_architecture_roadmap.py:613-632 | in a valid ledger each work package selects exactly its own GAPs, and each GAP is selected |
| `RoadmapLifecycle.StatusIsEvidenced` | scripts/check_architecture_roadmap.py:692-848 | in a valid ledger each GAP in progress, delivered, DONE, decided or blocked has a row with what that status asks for |
| `RoadmapLifecycle.NoWorkOnDecided` | scripts/check_architecture_roadmap.py:594-601 | in a valid ledger nothing but a blocked or decided GAP depends on a decided one |
| `RoadmapBranches.FeatureDone` | scripts/check_architecture_roadmap.py:961-976 | after a feature step develop's DONE set is its earlier one joined with the trusted main's, and all of that main's closure rows are carried |
| `RoadmapBranches.FeatureRows` | scripts/check_architecture_roadmap.py:961-976 | every closure row a feature step adds is a row of the trusted main |
| `RoadmapBranches.StepSafe` | scripts/check_architecture_roadmap.py:1081-1093 | each feature, tracking or promotion step, against any past snapshot of the other branch, keeps the two-branch invariant |
| `RoadmapBranches.TwoBranchSafety` | scripts/check_architecture_roadmap.py:1348-1397 | in every run, at every point, each DONE of develop is DONE on main with the same closure row there, and neither branch ever loses a DONE |
| `RoadmapMainline.MainIsDevelopClosed` | scripts/check_architecture_roadmap.py:1161-1266 | over every run main is at each point a document develop has held, with GAPs that were IN_DEVELOP there closed, their rows added, and nothing else changed |
| `RoadmapMainline.DevelopIsBranchRun` | scripts/check_architecture_roadmap.py:1293-1397 | in every run of the two branches the documents of develop form a run of the develop branch, so all of the above holds of them |
| `RoadmapPromotion.AddedRows` | scripts/check_architecture_roadmap.py:1082-1093 | the closure rows a feature step adds to develop all come from the snapshot of main it was checked against |
| `RoadmapPromotion.SyncKeepsPrefix` | scripts/check_architecture_roadmap.py:1082-1093 | develop's closure table stays a prefix of main's exactly when the step added rows in main's order, and a step synced with main itself makes the two equal |
| `RoadmapPromotion.NoPromotion` | scripts/check_architecture_roadmap.py:1254-1265 | while develop's table is not a prefix of main's, no past document of develop can be promoted |
| `RoadmapPromotion.OrderLostForever` | scripts/check_architecture_roadmap.py:1107-1120 | once lost, the order is lost in every later state of the run |
| `RoadmapPromotion.PrefixIffOrderly` | scripts/check_architecture_roadmap.py:1107-1120 | develop's closure table is a prefix of main's exactly when every step so far took rows in order |
| `RoadmapPromotion.NoLaterPromotion` | scripts/check_architecture_roadmap.py:1254-1265 | after one step out of order no document is promotable at any later point of the run |
| `RoadmapSync.AnyOrderAccepted` | scripts/check_architecture_roadmap.py:1082-1093 | in every state reachable from a start where main has no ledger or one that develop grew from, the sync check accepts main's rows in any order that starts with the rows develop has |
| `RoadmapSync.PromotionAccepted` | scripts/check_architecture_roadmap.py:1207-1266 | from every such reachable state that is orderly, copying main's rows in main's order and promoting the result are both accepted |
| `RoadmapSync.PromotionAheadIffOrderly` | scripts/check_architecture_roadmap.py:1254-1265 | a run from such a start can be continued to a promotion if and only if every past step took main's rows in main's order |
| `RoadmapExample.SwappedCopyLosesPromotion` | scripts/check_architecture_roadmap.py:1082-1093 | for every reading of text that accepts the cells: two closures copied in swapped order are accepted, before it a promotion lay ahead and after it none does |
| `RoadmapExample.CellsCanBeRead` | scripts/check_architecture_roadmap.py:36-61 | written-out ids, a pull-request link, a SHA, a version and a test command that meet the hypothesis |
| `PythonText.Strip` | evals/geo.py:68-68 | the result has no white space at either end, and a text without any is unchanged |
| `GeoEvidence.FromDict` | evals/geo.py:51-94 | whatever validation accepts is well formed: keys, names, limits, distinct locators, a ratio or none |
| `GeoEvidence.AcceptedIffDescribed` | evals/geo.py:51-94 | validation accepts exactly the objects that describe a well-formed measurement, text stripped, and returns the one they describe |
| `GeoEvidence.EvidenceRoundTrip` | evals/geo.py:51-101 | a measurement is stored and read back unchanged if and only if it is well formed, however other values are shown |
| `GeoRuns.ConfigureKeeps` | evals/geo.py:268-300 | a configuration keeps the row invariant and the phase, and after PREFLIGHT no frozen setting |
| `GeoRuns.RecordKeeps` | evals/geo.py:312-322 | a record keeps the row invariant: stage under its own key, well formed, and only F in PREFLIGHT |
| `GeoRuns.AdvanceKeeps` | evals/geo.py:324-354 | an advance moves strictly forward and establishes what the next phase requires |
| `GeoRuns.FinishKeeps` | evals/geo.py:356-381 | a completion has all seven stages and evidence of the phase its kind requires |
| `GeoRuns.ApplyKeeps` | evals/geo.py:268-381 | every operation keeps the row invariant, the identity and the phase order, adds one revision and never touches a frozen setting after PREFLIGHT |
| `GeoRuns.AdvanceExactly` | evals/geo.py:324-354 | the exact condition of each advance, and that nothing else advances: F and the six frozen settings to leave PREFLIGHT; evidence recorded in LIVE_OBSERVE and the preregistration to leave it |
| `GeoRuns.FinishExactly` | evals/geo.py:356-381 | the exact condition of each kind of completion |
| `GeoRuns.RecordExactly` | evals/geo.py:312-322 | for every well-formed measurement, when recording it is refused, and otherwise the one stage it replaces, under the phase of the run |
| `GeoRuns.ConfigureExactly` | evals/geo.py:268-300 | the exact condition on phase, keys and values, and exactly the keys a configuration sets |
| `GeoRuns.ApprovalEnters` | evals/geo.py:302-304 | the approval receipt enters a row only through a configuration that carries it |
| `GeoStores.ToolCall` | evals/geo.py:514-540 | every store call the tool can make is one the tool may make: never one of the two receipts |
| `GeoStores.GeoStore.Require` | evals/geo.py:411-415 | the stored row, or the refusal that there is none |
| `GeoStores.GeoStore.Update` | evals/geo.py:417-449 | writes over the stored row exactly when session, run and revision still match; otherwise refuses and changes nothing |
| `GeoStores.GeoStore.Start` | evals/geo.py:234-266 | a run that is not complete keeps its session: nothing changes, and the answer is that run exactly on its own subject, a refusal on another; otherwise an empty new run at revision 0, exactly for an acceptable subject and a fresh run id |
| `GeoStores.GeoStore.Configure` | evals/geo.py:268-300 | answers and stores exactly what the row function says of the stored row, whatever order the keys come in |
| `GeoStores.GeoStore.AuthorizeLive` | evals/geo.py:302-304 | the configuration that carries the approval receipt |
| `GeoStores.GeoStore.PreregisterExperiment` | evals/geo.py:306-310 | refused outside LIVE_OBSERVE, else the configuration that carries the preregistration receipt |
| `GeoStores.GeoStore.Record` | evals/geo.py:312-322 | answers and stores exactly what the row function says of the stored row |
| `GeoStores.GeoStore.Advance` | evals/geo.py:324-354 | answers and stores exactly what the row function says of the stored row |
| `GeoStores.GeoStore.Complete` | evals/geo.py:356-381 | answers and stores exactly what the row function says of the stored row |
| `GeoStores.GeoStore.UpdateGeo` | evals/geo.py:514-545 | the tool handler performs exactly the call the request stands for, or refuses; the receipts are refused before the store is touched |
| `GeoConcurrency.WinnerHoldsCurrent` | evals/geo.py:417-449 | a write whose session, run and revision still match was computed from the very row it replaces |
| `GeoConcurrency.NextKeeps` | evals/geo.py:234-449 | every action of any caller keeps the invariant over all rows ever stored |
| `GeoConcurrency.VersionsNameOneContent` | evals/geo.py:432-444 | in every reachable state each row meets the phase invariant; over a run, a run id and revision name one content, and later states of a run have later revisions and phases and the same frozen settings |
| `GeoConcurrency.EveryActionIsAtomic` | evals/geo.py:417-449 | every action leaves the table alone or is one whole operation on it |
| `GeoConcurrency.RefinesAtomicStore` | evals/geo.py:234-449 | the tables of every interleaved run form a run of the atomic store, up to steps that change nothing |
| `GeoConcurrency.ToolAloneStaysInPreflight` | evals/geo.py:514-545 | if a row of a run has left PREFLIGHT, an earlier action stored an operator's approval in that same run |
| `GeoHistories.RowAfter` | evals/geo.py:417-449 | one action of any caller leaves the row of a session, revises it by one, or puts an empty run over a complete one |
| `GeoHistories.ReplacedWhenComplete` | evals/geo.py:245-262 | over every run of the concurrent store, when the run of a session has changed, the earlier one was complete at a moment in between |
| `GeoHistories.PhasesAreEarned` | evals/geo.py:324-381 | over every run of the concurrent store, each row in a later phase has behind it stored rows of its own run that had what leaving each earlier phase takes |
| `GeoConcurrency.PreregistrationLands` | evals/geo.py:306-310 | over every run: a checked preregistration is written outside LIVE_OBSERVE if and only if the row its second read saw is still stored, was in PREFLIGHT and the receipt is acceptable; that row is then of another run |
| `GeoConcurrency.ReceiptNeedsOpenPhase` | evals/geo.py:306-310 | exactly when the receipt is written, and what it changes: a row in PREFLIGHT or LIVE_OBSERVE and a receipt of acceptable length |
| `GeoConcurrency.PreregistrationMisses` | evals/geo.py:306-310 | whenever the checked run has completed, starting a new run in between puts the receipt into PREFLIGHT of the new run |
| `GeoExample.PreregistrationReachesPreflight` | evals/geo.py:306-310 | from the empty store, for any session, any two run ids and any acceptable text: the whole run that ends with the receipt in PREFLIGHT of the second run |
| `ApprovalRecords.ApprovalRecord.Transition` | core/agent/approval_fsm.py:118-145 | appends exactly one entry, flagged exactly when the table forbids the move, and keeps state, raw input and verdict those of the trail |
| `ApprovalRecords.CleanIffLegal` | core/agent/approval_fsm.py:56-72 | a clean trail stays clean along a path if and only if the path follows the table |
| `ApprovalRecords.ParserMatchesTable` | core/agent/approval_fsm.py:75-92 | the console grammar and the decision table give the same verdict on every raw input; what the text means is ApprovalAnswers.AskedGate |
| `ApprovalAnswers.AskedGate` | core/agent/approval_fsm.py:75-92 | a gate that asks grants exactly on a yes - a hook, an IPC `y`, or the text empty, y or yes - or on an always where it is remembered; what is then remembered, and how the tool's streak moves |
| `ApprovalAnswers.RuledExactly` | core/agent/approval.py:302-360 | a gate decides without asking exactly by an open or standing permission it looks for, or by three refusals of its tool |
| `ApprovalAnswers.WholeTrails` | core/agent/approval_fsm.py:56-72 | the legal trails from nothing to the end of an approval are exactly those of a grammar: settled at once, displayed and denied, or displayed, answered, parsed and settled, then skipped or carried out |
| `ApprovalGates.NoLostDecision` | core/agent/approval.py:366-421 | every gate run from `requested` is legal and ends granted or denied as it answers; if displayed, granted exactly when the recorded verdict is allow or always |
| `ApprovalGates.LegalIffOneGate` | core/agent/approval.py:514-573 | the trail of a tool is legal if and only if it does not pass one gate and then run a second |
| `ApprovalAnswers.ToolGoesAhead` | core/agent/approval.py:514-573 | a tool goes ahead exactly when the personal-data or else the write gate grants it and then the cost gate, where it falls under them and no batch or automatic approval applies |
| `ApprovalWorkflows.BatchNoLostDecision` | core/agent/approval.py:1035-1105 | the batch trail is legal from a new record and ends granted exactly when allowed; once displayed, exactly when its verdict is allow |
| `ApprovalWorkflows.ApprovalWorkflow.AutoGrantReason` | core/agent/approval.py:302-312 | the first reason that applies, in the order of the source, or none |
| `ApprovalWorkflows.ApprovalWorkflow.TrackDecision` | core/agent/approval.py:347-356 | adds one denial, clears the streak, or leaves it; nothing else changes |
| `ApprovalWorkflows.ApprovalWorkflow.CheckAutoDeny` | core/agent/approval.py:358-360 | true exactly from the third denial on |
| `ApprovalWorkflows.ApprovalWorkflow.PromptWithAlways` | core/agent/approval.py:366-421 | the decision and the three moves written into the record, on IPC, console and interrupt |
| `ApprovalWorkflows.ApprovalWorkflow.PromptWithAlwaysAsync` | core/agent/approval.py:423-461 | a public hook or the lack of a human decides without displaying anything; else the prompt |
| `ApprovalWorkflows.ApprovalWorkflow.ConfirmWrite` | core/agent/approval.py:835-879 | memory, result and record are those of the write gate after its automatic grant |
| `ApprovalWorkflows.ApprovalWorkflow.ConfirmCost` | core/agent/approval.py:881-919 | memory, result and record are those of the cost gate after its automatic grant |
| `ApprovalWorkflows.ApprovalWorkflow.ConfirmSensitive` | core/agent/approval.py:765-815 | memory, result and record are those of the personal-data gate, which remembers nothing |
| `ApprovalWorkflows.ApprovalWorkflow.ConfirmDeclared` | core/agent/approval.py:575-627 | memory, result and record are those of the declared gate, cached or per invocation |
| `ApprovalWorkflows.ApprovalWorkflow.ConfirmMcp` | core/agent/approval.py:659-698 | memory, result and record are those of the MCP gate, which looks at nothing first |
| `ApprovalWorkflows.ApprovalWorkflow.ConfirmPermissionRequest` | core/agent/approval.py:629-653 | granted exactly by a hook that allows, an IPC `y` or typed text that is empty, y or yes; an always answer denies |
| `ApprovalWorkflows.ApprovalWorkflow.RequestBashApproval` | core/agent/approval.py:921-962 | memory, result and record are those of the bash gate |
| `ApprovalWorkflows.ApprovalWorkflow.ApplySafetyGates` | core/agent/approval.py:514-573 | the gates a tool falls under, in turn: memory, answer and the whole trail |
| `ApprovalWorkflows.ApprovalWorkflow.ConfirmComputer` | core/agent/approval.py:1004-1029 | asked only while nothing is remembered; any approval is remembered; the other memory is untouched |
| `ApprovalWorkflows.ApprovalWorkflow.BatchCostApproval` | core/agent/approval.py:1035-1105 | a new record with exactly the batch trail; approved exactly by an open or standing permission or typed text that is empty, y or yes |
| `ApprovalRuns.NextKeeps` | core/agent/approval.py:190-213 | every step of any interleaving keeps one gate inside, memory equal to history, and a lawful log |
| `ApprovalRuns.StandingIsHistory` | core/agent/approval.py:302-312 | a category or tool is always allowed if and only if some prompt of a gate that grants it was answered `a` |
| `ApprovalRuns.AlwaysAtMostOnce` | core/agent/approval.py:541-567 | the write and cost categories and each declared tool are answered `a` at most once in a run |
| `ApprovalRuns.ArrivedUnpermitted` | core/agent/tool_executor/executor.py:2245-2251 | in every run a bash or MCP gate that is queued, inside or asking arrived at a moment when its permission was not held |
| `ApprovalRuns.AskedAfterAlwaysArrivedBefore` | core/agent/tool_executor/executor.py:1696-1701 | a bash or MCP prompt that comes after an `a` for its own permission belongs to a call that had arrived before that `a` was recorded |
| `ApprovalRuns.BothAsked` | core/agent/approval.py:670-698 | the converse: from any state with a free lock, any two such gates queued for one permission can both be asked and both answered `a` |
| `ApprovalRuns.AskedTwice` | core/agent/approval.py:921-962 | from the start of a session, two bash calls, or two calls of any tools of one MCP server, both asked and both answered `a` |
| `ApprovalRuns.CounterIsTrailingDenials` | core/agent/approval.py:347-360 | a tool's counter is the length of its trailing run of denials and never passes three |
| `ApprovalAnswers.StruckIffThreeRefusals` | core/agent/approval.py:347-360 | over every run a tool is struck out if and only if three answers of its write, cost, cached declared or bash gates were refusals and none since was a grant |
| `ApprovalAnswers.StruckDenies` | core/agent/approval.py:541-567 | and then a look at any gate of the tool but an MCP gate asks nobody and changes nothing, and grants exactly by an open or standing permission |
| `ApprovalRuns.StruckForGood` | core/agent/approval.py:358-360 | from three on, in every later state, the counter stays and every event of a gate that consults it was decided by rule, never by a prompt |
| `ApprovalRuns.StruckGrantedOnlyByRule` | core/agent/approval.py:541-548 | a struck tool is granted if and only if the automatic grant finds a reason, a write category allowed through another tool included |
| `ApprovalLock.NextKeeps` | core/agent/approval.py:190-213 | every step keeps the invariant tying each gate to its job, the lock and the history of grants and releases |
| `ApprovalLock.LockSafety` | core/agent/approval.py:190-213 | at most one body runs, under the lock; a release is always of the releaser's own lock; each grant is released once; no gate that is over holds or may take the lock |
| `ApprovalLock.StepsUseMeasure` | core/agent/approval.py:190-213 | every step but a new call strictly decreases the ranking measure |
| `ApprovalLock.RunsAreShort` | core/agent/approval.py:190-213 | a run has at most eight steps for each gate called |
| `ApprovalLock.StuckExactly` | core/agent/approval.py:199-199 | nothing can happen exactly when all is finished, or the holder's prompt is queued behind as many blocked acquires as there are threads |
| `ApprovalLock.EveryGateFinishes` | core/agent/approval.py:453-461 | while fewer acquires are outstanding than there are threads, calls may keep coming: the run stays within its measure and eight steps for each call, and at every moment something can move or every gate has finished |
| `ApprovalLock.BoundStaysMet` | core/agent/approval.py:190-213 | without new calls the outstanding acquires only become fewer, so the bound need hold only at the start |
| `ApprovalLock.BoundIsTight` | core/agent/approval.py:199-199 | for every number of threads, a reachable state with as many outstanding acquires in which nothing can happen |
| `ContextModules.PlainNamesHaveOneMeaning` | scripts/architecture_baseline.py:331-413 | names bound by one statement each, with no clash of submodules, builtins or prefixes, have at most one derivable meaning |
| `ContextExports.LoopGrows` | scripts/architecture_baseline.py:361-405 | the inner loop stops on every input, only adds names that assignments bind, and ends where a sweep changes nothing |
| `ContextExports.FirstAliasSupplies` | scripts/architecture_baseline.py:376-399 | a dotted value is looked up through the first bound alias it starts with and through no other, whatever comes of that |
| `ContextExports.PassSound` | scripts/architecture_baseline.py:331-413 | a pass over the modules adds or overwrites only what can be derived |
| `ContextExports.EveryEntryDerived` | scripts/architecture_baseline.py:331-413 | after any number of passes, settled or not, every entry has a finite derivation from ContextVar or ContextLocal |
| `ContextFixpoint.PassGrows` | scripts/architecture_baseline.py:406-411 | with one meaning for each name a pass never unbinds or rebinds a name |
| `ContextFixpoint.MissingDrops` | scripts/architecture_baseline.py:406-413 | a pass that changes the state leaves strictly fewer pairs of module and name unset |
| `ContextFixpoint.StatementsFixed` | scripts/architecture_baseline.py:337-405 | in a settled state every import and assignment leaves its module as it is |
| `ContextFixpoint.SettledIsExact` | scripts/architecture_baseline.py:322-413 | a settled state holds exactly the entries that can be derived |
| `ContextFixpoint.OrderDoesNotMatter` | scripts/architecture_baseline.py:335-335 | settled states of programs with the same statements agree, whatever the order of modules and statements |
| `ContextScan.Sweep` | scripts/architecture_baseline.py:361-405 | one sweep computes the sweep function and reports a change exactly when there was one |
| `ContextScan.ResolveModule` | scripts/architecture_baseline.py:333-405 | imports once, then the alias loop to its end: the table function of the module |
| `ContextScan.RunPass` | scripts/architecture_baseline.py:331-411 | on every program and state one pass computes the pass function, and reports a change exactly when some module got another table |
| `ContextScan.ContextConstructorExports` | scripts/architecture_baseline.py:322-413 | wherever some pass changes nothing, it terminates with a state that no pass changes and of which every entry is derived; with one meaning for each name it holds exactly what can be derived |
| `ContextScan.OneMeaningSettles` | scripts/architecture_baseline.py:406-413 | one meaning for each name is enough for the scan to end |
| `ContextLayers.SameTable` | scripts/architecture_baseline.py:337-405 | with imports in layers, a module's new table is a function of its own table and of the tables of lower modules |
| `ContextLayers.ResolvedTwice` | scripts/architecture_baseline.py:337-405 | resolving a module again over its own result changes nothing |
| `ContextLayers.LayersSettle` | scripts/architecture_baseline.py:331-413 | after n passes every module of the first n layers has its final table, although names may be rebound |
| `ContextLayers.LayeredSettles` | scripts/architecture_baseline.py:412-413 | with imports in layers the scan ends, after at most as many passes as there are layers |
| `ContextLayers.DistinctChangesShow` | scripts/architecture_baseline.py:406-411 | when module names are distinct, the reported change is exactly a difference between the states before and after the pass |
| `ContextScan.Alternates` | scripts/architecture_baseline.py:331-413 | on the three-module cycle the state after each pass, for every number of passes |
| `ContextScan.NeverSettles` | scripts/architecture_baseline.py:412-413 | on that cycle no pass ever leaves the state as it found it |
| `ContextScan.CycleRunsForEver` | scripts/architecture_baseline.py:412-413 | so the scan of that cycle does not end |
| `ContextPaths.PathsAreWalks` | scripts/architecture_baseline.py:416-441 | every path found is a walk through aliases that enters no module twice and reaches the constructor named |
| `ContextPaths.WalksAreFound` | scripts/architecture_baseline.py:416-441 | for every such walk its path is found; which kind it is found under is FoundIffDecided |
| `ContextPaths.LastAliasWins` | scripts/architecture_baseline.py:428-440 | of the aliases through which a path leads anywhere, the last one in order supplies its kind |
| `ContextPaths.FoundIffDecided` | scripts/architecture_baseline.py:416-441 | a path is returned under a kind if and only if the deciding walk reaches it: at each module the last alias that leads anywhere, and the module's own constructor only if none does |
| `Convergence.ConvergenceDetector.UpdateToolErrorTracking` | core/agent/convergence.py:61-111 | the fields after a batch are those of the round its results and log entries stand for; which entry a result is charged to is ConvergenceLogs.ChargedById and ChargedByPosition |
| `ConvergenceLogs.ChargedById` | core/agent/convergence.py:76-86 | a result whose id was logged is charged to the last entry with that id, wherever it stands |
| `ConvergenceLogs.ChargedByPosition` | core/agent/convergence.py:76-86 | a result whose id was not logged is charged by position among as many latest entries as there are results, and beyond them to nothing known |
| `ConvergenceLogs.RoundIgnoresLogOrder` | core/agent/convergence.py:76-86 | when every result was logged once under its own id, the round is the same for every order of the log |
| `ConvergenceLogs.BreaksIgnoreLogOrder` | core/agent/convergence.py:113-141 | so over whole histories neither break depends on the order in which parallel calls were logged |
| `Convergence.ConvergenceDetector.UpdateSuccessStreak` | core/agent/convergence.py:200-208 | the streak grows on an equal fingerprint and restarts on another |
| `Convergence.ConvergenceDetector.ToSnapshot` | core/agent/convergence.py:40-49 | the snapshot of all six fields |
| `Convergence.ConvergenceDetector.ApplySnapshot` | core/agent/convergence.py:51-59 | the fields the snapshot holds, and the defaults for what it lacks |
| `Convergence.ConvergenceDetector.CheckConvergenceBreak` | core/agent/convergence.py:113-125 | true exactly when the counter and the last three keys call for a break |
| `Convergence.DetectorRefinesHistory` | core/agent/convergence.py:61-111 | after any history: the counter is the number of trailing all-error rounds, the keys the last six of theirs, the streak the longest error-free suffix with one fingerprint |
| `Convergence.BreakIffThreeEqualErrors` | core/agent/convergence.py:113-125 | the error break fires exactly when the last three non-empty rounds were all errors with equal keys |
| `Convergence.SuccessBreakIffFiveAlike` | core/agent/convergence.py:127-141 | the success break fires exactly when the last five results are successes with one fingerprint |
| `Convergence.RestoringChangesNothing` | core/agent/convergence.py:40-59 | saving and restoring at any point changes no later field summary or break |
| `Convergence.KeysEqualIff` | core/agent/convergence.py:104-111 | two batches have equal keys exactly when they have the same errors, counted, and the same first one as far as it is shown |
| `Convergence.OrderShowsInKey` | core/agent/convergence.py:107-110 | the same two failures in the other order: one digest, two keys |
| `Conversation.ConversationContext.SanitizeToolPairs` | core/agent/conversation.py:218-257 | the history becomes the repaired history; the result says which message object each one is, if it is still one |
| `Conversation.ConversationContext.PreserveLatest` | core/orchestration/compaction.py:101-131 | the latest marked input is kept once, or put in after the last retained object that is older |
| `Conversation.ConversationContext.Trim` | core/agent/conversation.py:185-216 | slices, drops to the first user message, repairs, and puts the latest marked input back, nothing below the limit or under native compaction; what that keeps is ConversationTrims.TrimKeeps |
| `Conversation.ConversationContext.Add` | core/agent/conversation.py:133-149 | appends the message and trims |
| `Conversation.RepairPairs` | core/agent/conversation.py:218-257 | after the repair every tool result names a tool use in the message directly before it, and no user message is empty |
| `Conversation.RepairedIffPaired` | core/agent/conversation.py:218-257 | the repair changes nothing exactly on paired histories without empty user messages, so a second repair changes nothing |
| `Conversation.OrderKept` | core/agent/conversation.py:218-257 | messages keep their order; what stays is the original narrowed to its paired blocks; what goes was all orphans |
| `Conversation.UserFirstSurvives` | core/agent/conversation.py:202-209 | the repair leaves the user-first rule exactly when the run of bare tool results at the front is followed by a user message or by nothing |
| `Conversation.UserFirstCanBeLost` | core/agent/conversation.py:185-216 | a user-first, paired history of four messages that the whole trim makes start with the assistant |
| `Conversation.TrimmedIs` | core/agent/conversation.py:185-216 | when inputs are text: a trim is the repaired slice, with the latest input in front of it exactly when the slice has cut that input off |
| `ConversationTrims.TrimKeeps` | core/agent/conversation.py:185-216 | for every history: with k the first user message of the last turns, a trim leaves in order exactly what the repair keeps of the messages from k on, and the latest input, where it was cut off or built anew, right after the last older message that is still the same object |
| `ConversationTrims.TextTrimKeeps` | core/agent/conversation.py:185-216 | a history of text is kept word for word from k on, with the latest input in front if it lies before k |
| `Conversation.InsertedIsPairedIff` | core/orchestration/compaction.py:113-121 | a user message put into a paired history leaves it paired exactly when its own results are paired there and the message after it has none |
| `Conversation.TrimmedPairedIff` | core/agent/conversation.py:185-216 | for every history: a trim leaves it paired exactly when no input is marked, or the latest one is still there untouched, or it fits where it is put back |
| `Conversation.TrimmedIsPairedAndShort` | core/agent/conversation.py:185-216 | when inputs are text: a trim leaves a paired history within the limit, one message more if the latest input was cut off; with no turns the slice is the whole history |
| `Conversation.UserFirstAfterTrim` | core/agent/conversation.py:185-216 | when inputs are text: after a trim the history starts with a user message exactly when the latest input was put in front or the repair keeps the rule |
| `Conversation.MarkedBlocksBreakPairing` | core/agent/conversation.py:205-210 | a marked message of tool results, repaired away and put back, leaves an unpaired history |
| `RunTimelines.SharedFile.Compact` | core/observability/run_event.py:59-115 | the rewritten file is the compaction function of the old rows |
| `RunTimelines.KeptIsLess` | core/observability/run_event.py:71-78 | a file that is too big is never kept whole unless it is one row |
| `RunTimelines.KeptExactly` | core/observability/run_event.py:69-78 | the scan keeps n rows exactly when they are one row or fit into half the limit, and one more would not |
| `RunTimelines.CompactedExactly` | core/observability/run_event.py:80-115 | the marker goes in front of them if the file then fits, and stays alone otherwise |
| `RunTimelines.TailCompacts` | core/observability/run_event.py:78-115 | compaction keeps the numbering: the marker's ordinal is below the rows it leaves |
| `RunTimelines.RunTimeline.constructor` | evals/run_timeline.py:41-61 | the process starts from the last row's ordinal |
| `RunTimelines.RunTimeline.Append` | evals/run_timeline.py:79-168 | the new ordinal, the sidecar and the rows after one append |
| `RunTimelines.StepsAreAppend` | evals/run_timeline.py:106-167 | the steps of one process in the lock add up to exactly what `append` does |
| `RunTimelines.NextKeeps` | evals/run_timeline.py:104-157 | every step, a failure or a crash that leaves no gap included, keeps sidecar, rows, ordinals and processes consistent |
| `RunTimelines.OrdinalsIncrease` | evals/run_timeline.py:104-157 | in every interleaving in which no append fails between taking its number and storing its row, the file's ordinals are strictly increasing at every moment and no ordinal is given out twice |
| `RunTimelineFailures.OnlyTruncationRepeats` | evals/run_timeline.py:104-157 | over every run with any crashes and failures, except of an append that has truncated the sidecar and not yet written it while rows are numbered, no ordinal is given out twice |
| `RunTimelineFailures.ReachableQuiet` | evals/run_timeline.py:104-157 | in every reachable state, whatever has failed, at most the lock's holder is inside an append, so a free lock means that nobody is |
| `RunTimelineFailures.SafeToGoOnIff` | evals/run_timeline.py:104-118 | when nobody holds the lock and nothing has repeated: every failure-free continuation keeps the issued ordinals increasing if and only if the counter as read, the last row and each live process have seen the last ordinal |
| `RunTimelineFailures.CounterResumes` | evals/run_timeline.py:110-118 | as long as no failure left the counter empty, that condition holds: the sidecar holds a number at or above the last ordinal, or nothing was issued |
| `RunTimelineFailures.NumberIsNotEnough` | evals/run_timeline.py:110-118 | a reachable state with a free lock, nothing repeated and a number in the sidecar, from which an ordinal can still be repeated |
| `RunTimelineFailures.CompactionOrderedIff` | core/observability/run_event.py:59-115 | compacting an increasing file keeps it increasing if and only if the marker stays alone or the kept rows are numbered without a gap |
| `RunTimelineFailures.CountedFailureDisordersRows` | evals/run_timeline.py:116-157 | a reachable state, after a failure between writing the sidecar and storing the row, in which compaction has put the marker level with the first row it kept |
| `RunTimelineFailures.CrashRepeatsOrdinal` | evals/run_timeline.py:110-118 | a reachable state, after a crash between truncating and writing the sidecar, in which two rows have one ordinal |

## Left out

- Parsing the roadmap's Markdown: rows arrive parsed, `RoadmapModel.Parsed` says which cells a parsed row may have, and equal text is taken to mean an equal parsed ledger.
- Base-ref spelling, the loading of documents by git, and unknown event modes of `check`: the branch, the event and the documents are its inputs.
- The order of findings and their wording: a finding is a subject and a rule, and the roots of the dependency search are tried in any given order instead of sorted order.
- The tracking mask is equality of all fields but the status, and of all tables but the closures.
- DependencyCycle.FindDependencyCycle: does not model the sorted order of the roots, because every order gives the same answer; which cycle is found may differ.
- Rendering, hooks other than their decision, the evidence ledger's rows, denial hints and prompt wording in `core/agent/approval.py`.
- The tool executor, apart from the look it takes before an MCP or bash gate, is not part of this model: it decides which gates a tool meets; `ApprovalGates.SafetyGates` starts at `apply_safety_gates_async`.
- Computer control is outside the interleaving of `ApprovalRuns`: it takes no lock and touches only its own flag.
- Event-loop shutdown while an acquire is pending, and exceptions raised by an approval callback.
- One event loop and its thread pool are modelled in `ApprovalLock`; several loops sharing the lock have further threads.
- ApprovalRecords.ApprovalRecord.Transition: does not model time stamps and correlation ids, because nothing decides on them.
- `_migrate_offline_projection` in `evals/geo.py`, a one-time schema change that can leave rows outside the phase invariants.
- The reread after a GEO write, which only chooses the row shown to the caller, and time stamps.
- GeoStores.GeoStore.Start: takes the run id as a parameter and refuses one that another session uses, because the table declares it unique.
- The other rules of `scripts/architecture_baseline.py`, its counts and its rendering; a module is the list of its import aliases and dotted assignments at module scope.
- ContextScan.ContextConstructorExports: says nothing of programs on which no pass ever leaves the state alone, because there it does not end; what a program with rebound names settles on is only bounded by what can be derived.
- JSON decoding of tool contents and the trimming of fingerprints: the detector receives parsed results, and the fingerprint is an arbitrary function.
- Native compaction of the conversation: whether the history holds a native block is an input.
- Redaction and the fields of a timeline row other than its ordinal and its size; a write of the row file is one step.
- A failing append stops between two of its writes, and a crash likewise; a write that is itself cut short is not modelled.
