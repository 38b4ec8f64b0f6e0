# Verification of the operations scripts

Dafny models of six scripts that run a Screeps bot in production, with proofs about what they do. The
scripts are in `scripts/`; each module below models one part of one of them.

| file | models |
|---|---|
| `Basics.dfy`, `Json.dfy` | shared vocabulary: options, filters, stable sorting, "best element" folds, JSON values |
| `Registry.dfy` | reading record maps out of several JSON shapes, and merging one producer's records |
| `RegistryFields.dfy` | what a reader takes from a payload and what a call writes, field by field |
| `RegistryMerges.dfy` | two merges in a row, with the re-read of the saved table between them |
| `RegistryViews.dfy` | the summary, the two gates and the action plan derived from the records |
| `RegistryTriage.dfy`, `RegistryReports.dfy` | how statuses, dates, linked issues and flags of a record are read, and what the views say about it |
| `RegistryStore.dfy` | one sequential producer call on the registry file |
| `RegistryProtocol.dfy` | any number of producers interleaving lock, load, merge, temporary file, replace, unlock, failure and crash |
| `RegistryLiveness.dfy` | how a call ends, whether it returns, raises or crashes, and that it leaves the lock to the others |
| `Deploy.dfy`, `DeployTrace.dfy` | one deploy as a request sequence against a remote store of branches and an active pointer |
| `RollbackTriggers.dfy` | which failed health gates authorize a rollback, and which rooms then have to recover |
| `RollbackRecovery.dfy` | what a monitor reading proves, and the polling loop on a clock |
| `Rollback.dfy`, `RollbackEvidence.dfy` | choosing the previous healthy deploy, and what a run's own files do to that choice |
| `RollbackReading.dfy` | gates, room targets and monitor payloads in the words of their fields |
| `RollbackRun.dfy` | the rollback, and the whole command line run with its evidence directory |
| `KpiHistory.dfy`, `KpiDays.dfy` | the seven-day KPI pipeline: truncation, two sources, merge, sort, one point per day |
| `Chart.dfy` | vertical scale and polylines of the KPI chart |
| `DeployEvidence.dfy` | greedy deduplication of deploy evidence by two identities |
| `Tripwire.dfy`, `TripwireFindings.dfy` | cutting a report into blocks with a heading-priority register, and the findings |
| `Comments.dfy`, `IssueGate.dfy`, `IssueGateLines.dfy`, `IssueGateErrors.dfy` | blanking out comments, section extraction and the acceptance of pull request bodies |
| `DatasetWindows.dfy`, `DatasetRows.dfy` | sliding windows per room with an early exit at the sample limit |

`dafny verify dfyconfig.toml` checks everything.

## How the source is modelled

- Code that fills dictionaries, lists or counters in loops is a method with loops, proved equal to a
  specification function or predicate; the theorems are lemmas about those specifications. The registry file,
  the API client, the remote store, the chart card, the clock and the machine that runs a deploy are classes.
- JSON is a datatype with real numbers. A dictionary that is iterated is a map whose keys are visited in an
  arbitrary order, so whatever is proved holds for every insertion order.
- Regular expressions are parameters (functions on lines or texts), except where a property names the shape of
  the string: comment delimiters, room targets, separators around evidence.
- The remote store answers reads truthfully. A request may raise, any write may or may not take effect whatever
  its reply says, and an upload or clone may leave anything in its target branch. Nobody else writes.
- In the protocol the lock is exclusive, a replace is atomic, a crash drops the lock but may leave a temporary
  file, and a call may raise at any point, also after its replace.
  Tickets count lock acquisitions; they and the log only record what happened.
- The clock never runs backwards and a sleep lasts at least as long as requested. The monitor may return
  anything or fail. External commands (checkout, rebuild, health gate, issue creation) may fail, and a rebuild
  leaves an arbitrary artifact.
- SHA-256, the KPI reducer, the reading of branch lists and the labelling of dataset windows are uninterpreted
  function parameters.
- `hide` statements only keep definitions folded that a proof hands on without looking inside.

## What was found

- *Saving loses records with reserved identifiers.* A saved registry reads back unchanged exactly if its
  identifiers are safe (`SaveLoadRoundTrip`): either some are `conclusions` or `entries` and then all of them are,
  or none is and they are not a non-empty set of metadata keys only. `MetadataIdIsLost` and `WrapperIdHidesOthers`
  are inputs that fail. For the same reason the STALE count of the gate, which is taken from the table, exceeds
  that of the plan, which is taken from the table as re-read, by exactly the hidden records
  (`GateCountsPlanPlusLost`); `GateExceedsPlan` is an input.
- *Other owners can destroy a record.* A commit leaves another owner's record unchanged or hides it, exactly by
  whether its identifier survives the new document (`CommitKeepsForeign`, and over runs `ForeignRecordsSurvive`).
  In `OthersCanDestroy` and `RunThatDestroys` a record is filed by its owner and gone after somebody else's call.
- *The order of two owners can matter.* Both orders succeed exactly if each merge is admissible and nothing that
  both report can be read back after either of them (`BothOrdersSucceed`). They then leave the same table exactly
  if every reported record can be read back, none is reported twice, and what both leave alone shares its fate
  (`MergesCommute`). `OrderMatters`, `SharedRecordInBothOrders` and `OneOrderRefused` are inputs that fail; safe
  identifiers suffice (`SafeMergesCommute`).
- *Absorption fails for legacy and for hidden records.* A later pruning merge by the same owner makes an earlier
  one invisible exactly unless that one claimed, or hid, a record that the later one leaves alone
  (`LaterMergeAbsorbs`). `ClaimIsNotAbsorbed` and `HidingIsNotAbsorbed` are inputs that fail; owned records and safe
  identifiers suffice (`SafeLaterMergeAbsorbs`).
- *Low chart maxima are not raised.* After bound normalisation a value lies above the top exactly if the card was
  configured below one and the highest value lies strictly above that and at most at one (`TopCovers`).
- *The evidence count depends on file order.* It never does, on given files or any part of them, exactly if standing
  for the same deploy is transitive among the accepted ones (`CountOrderFreeExactly`). On just the given files it
  does not exactly if all their maximal independent lists have one length, because those lists are what the orders
  keep (`WholeCountOrderFreeExactly`, `OrdersReachMaximal`). `CountDependsOnOrder` is an input that fails. The kept
  files are at least half as many as any independent accepted ones (`KeptAreHalf`). The script sorts by path, so the
  two counts are those of the same three files stored under other directories.
- *Differently named deploy files can share a health gate.* Only names with a dash suffix have one of their own
  (`PairingIsExclusive`); in `OneGateForTwo` one gate file vouches for two deploys of different commits.
- *A failing run can spoil its own rollback.* The gate of a run is written before the rollback looks for a healthy
  deploy. It loses exactly the candidates that share its gate (`CandidatesLeft`, `SharesGateExactly`): none for a
  numbered evidence file, every unnumbered one for a run without evidence path. In `OneFailureLosesBoth` two
  deploys can be rolled back to before such a run and none afterwards.
- *A lone room stands for any target.* "Recovered means that a room listed as the target has a spawn and a creep"
  holds exactly unless the payload lists one room only, which is not the target and has both
  (`RecoveryIsEvidence`). `NamelessCountsRecoverAll` is a payload that proves every room recovered without naming
  any, and one populated room proves recovery of every list of targets (`OneRoomRecoversAll`). A rollback summary
  inherits the exception (`SummaryCoversRooms`).

## Model

| member | source | states |
|---|---|---|
| `Registry.NormalizeConclusions` | scripts/rl_conclusion_registry.py:136-177 | the looping, recursive reader computes the specification, for every accepted and refused JSON shape and every key order |
| `RegistryFields.PayloadRead` | scripts/rl_conclusion_registry.py:122-177 | what the reader takes from a payload, shape by shape and field by field: every entry gives one record with all its fields under its own identifier or its key, wrappers, metadata and null as stated; a payload is refused exactly if there are no such records |
| `Registry.NormalizeSelfKeyed` | scripts/rl_conclusion_registry.py:122-177 | whatever shape is read, every record comes out under its own non-empty identifier |
| `Registry.NormalizeWrapped` | scripts/rl_conclusion_registry.py:136-177 | exactly which records of a re-read table survive: all but those that reserved identifiers hide |
| `Registry.SaveLoadRoundTrip` | scripts/rl_conclusion_registry.py:237-248 | a saved document reads back as the surviving records, and as the same table exactly if the identifiers are safe |
| `Registry.MetadataIdIsLost` | scripts/rl_conclusion_registry.py:132-177 | witness: a record filed alone under a metadata key is lost on load |
| `Registry.WrapperIdHidesOthers` | scripts/rl_conclusion_registry.py:122-177 | witness: a record named like a wrapper hides the records beside it |
| `Registry.MergeIncoming` | scripts/rl_conclusion_registry.py:197-235 | the producer loop computes the merged table or refuses, in any order of visiting, and counts exactly the new and the newly closed records; it refuses exactly on a reported record that somebody else owns, and otherwise writes every field of every report |
| `Registry.MergeWrites` | scripts/rl_conclusion_registry.py:197-235 | a merge is refused exactly if a reported identifier is in the table under somebody else's name; otherwise a report is filed with all its fields, identifier and owner filled in and its own `lastSeenAt` or else the time of the call, other records stay as they are, and only the producer's unreported ones go, if it prunes |
| `Registry.OthersUntouched` | scripts/rl_conclusion_registry.py:197-235 | a merge leaves other owners' records as they are, and what is not the producer's afterwards was there before |
| `Registry.MergeInvariants` | scripts/rl_conclusion_registry.py:197-235 | merging keeps records under their own identifiers, and all owned if they were |
| `Registry.MergeConserves` | scripts/rl_conclusion_registry.py:197-235 | identifiers afterwards are those before less the pruned plus the new, and so are the sizes |
| `RegistryMerges.BothOrdersSucceed` | scripts/rl_conclusion_registry.py:180-248 | merges of two owners succeed in both orders exactly if each is admissible and nothing that both report can be read back after either |
| `RegistryMerges.MergesCommute` | scripts/rl_conclusion_registry.py:180-248 | where both orders succeed, they leave the same table exactly if every reported record can be read back, none is reported twice, and what both leave alone is read back after both or after neither |
| `RegistryMerges.SafeMergesCommute` | scripts/rl_conclusion_registry.py:180-248 | if neither merge leaves unsafe identifiers, both orders succeed exactly on admissible reports without a common identifier, and then the order does not matter |
| `RegistryMerges.OrderMatters` | scripts/rl_conclusion_registry.py:122-248 | witness: both orders succeed and leave different tables, and in one of them a third owner's record is gone |
| `RegistryMerges.SharedRecordInBothOrders` | scripts/rl_conclusion_registry.py:122-248 | witness: both orders succeed although both report the same record |
| `RegistryMerges.OneOrderRefused` | scripts/rl_conclusion_registry.py:205-220 | witness: pruning lets one order through while the other is refused |
| `RegistryMerges.LaterAdmitted` | scripts/rl_conclusion_registry.py:205-220 | a later merge of the same owner is admitted exactly if it reports nothing of somebody else's that can still be read; so whenever it is admitted alone |
| `RegistryMerges.LaterMergeAbsorbs` | scripts/rl_conclusion_registry.py:180-248 | a later pruning merge of the same owner equals doing it alone, exactly unless the earlier one claimed an unowned record, or made a record unreadable, that the later one leaves alone |
| `RegistryMerges.SafeLaterMergeAbsorbs` | scripts/rl_conclusion_registry.py:180-248 | with all records owned and safe identifiers in between, absorption is unconditional, refusals included |
| `RegistryMerges.ClaimIsNotAbsorbed` | scripts/rl_conclusion_registry.py:205-235 | witness: a claimed legacy record is gone after the later merge, which alone would have kept it |
| `RegistryMerges.HidingIsNotAbsorbed` | scripts/rl_conclusion_registry.py:122-235 | witness: another owner's record is gone after the later merge although all records were owned |
| `RegistryTriage.LinkedReads` | scripts/rl_conclusion_registry.py:673-681 | the linked issues of a record: exactly the texts of the values it links that say something, sorted, once each |
| `RegistryTriage.FlagsRead` | scripts/rl_conclusion_registry.py:613-633 | a record carries exactly the flags that apply to its status, texts, links and evidence, in a fixed order |
| `RegistryReports.OrderReads` | scripts/rl_conclusion_registry.py:560-645 | the three rankings: by urgency, stale before open, longest unseen first, then by name; or by severity first |
| `RegistryReports.GateReads` | scripts/rl_conclusion_registry.py:284-339 | the gate counts the urgent records per status as listed, is exceeded above ten, and shows the first ten names of the ranking |
| `RegistryReports.PlanReads` | scripts/rl_conclusion_registry.py:358-415 | the plan of a ranking of the urgent stale and open records: totals, target, categories, preview, and the likely stale and the current ones with their evidence, flags and advice |
| `RegistryReports.IssueGateReads` | scripts/rl_conclusion_registry.py:430-488 | the issue gate of a ranking of the open records of the three severities without an issue of their own: it is ok exactly if there is none, counts them, and shows the first ones with their linked, unreadable and forbidden issues |
| `RegistryViews.RankedIsOrderFree` | scripts/rl_conclusion_registry.py:636-645 | a ranked view is the same for every order of the records |
| `RegistryViews.PreviewIsTop` | scripts/rl_conclusion_registry.py:284-339 | no record whose identifier is left out of a preview outranks or ties with one whose identifier is shown |
| `RegistryViews.HighPriorityStaleIssueGate` | scripts/rl_conclusion_registry.py:284-339 | the loop counts P0 and P1 records per status, trips at the threshold and previews the top of the ranking |
| `RegistryViews.GroupByTriage` | scripts/rl_conclusion_registry.py:358-415 | the two triage lists are the plan entries of the two kinds of candidates, in order |
| `RegistryViews.BuildStaleConclusionActionPlan` | scripts/rl_conclusion_registry.py:342-415 | the plan, with its counts, routing fields and limits, is computed from the records of any accepted shape, and refused exactly on bad limits or unreadable input |
| `RegistryViews.PlanCountsAddUp` | scripts/rl_conclusion_registry.py:358-415 | counts by status, by severity and of the triage lists each add up to the number of candidates, the counts by category are the true ones, and no more transitions are asked for than there are STALE candidates |
| `RegistryViews.GroupsPartitionCandidates` | scripts/rl_conclusion_registry.py:358-415 | the triage groups partition the candidates, each in priority order, and every STALE candidate is in the likely-stale one |
| `RegistryViews.ViewsAreOrderFree` | scripts/rl_conclusion_registry.py:251-415 | plan and previews depend on the records only, never on insertion order |
| `RegistryViews.GateCountsPlanPlusLost` | scripts/rl_conclusion_registry.py:251-281 | the gate's STALE count is the plan's plus the hidden records; they agree if the identifiers are safe |
| `RegistryViews.GateExceedsPlan` | scripts/rl_conclusion_registry.py:251-281 | witness: a table whose summary shows one urgent stale record in the gate and none in the plan |
| `RegistryViews.BuildOpenConclusionLinkedIssueGate` | scripts/rl_conclusion_registry.py:418-488 | the gate, with its count per severity, its blocked entries and its preview, is computed from the records of any accepted shape, and refused exactly on a bad limit or unreadable input |
| `RegistryViews.IssueGateAddsUp` | scripts/rl_conclusion_registry.py:418-488 | its count is the number of open records that lack an issue and the sum of the counts per severity |
| `RegistryViews.IssueGatePasses` | scripts/rl_conclusion_registry.py:418-488 | it passes exactly if no open record lacks an issue |
| `RegistryViews.StatusesAddUp` | scripts/rl_conclusion_registry.py:251-281 | the known statuses and the unknown ones account for every record exactly once |
| `RegistryViews.CountStatuses` | scripts/rl_conclusion_registry.py:251-281 | the tallied counters are the true counts and add up to the number of records |
| `RegistryViews.SummarizeConclusions` | scripts/rl_conclusion_registry.py:251-281 | total, counters, both gates and the plan are those of the record table, in whatever order it is visited |
| `RegistryViews.SummaryIsDetermined` | scripts/rl_conclusion_registry.py:251-281 | a table has one summary: no visiting order shows in any of its parts |
| `RegistryViews.SummaryAgrees` | scripts/rl_conclusion_registry.py:251-281 | the parts of a summary agree: counters add up to the total, and the gate's STALE count is the plan's plus the hidden records |
| `RegistryStore.MergeRegistryPayload` | scripts/rl_conclusion_registry.py:180-248 | the script's merge equals the specification, including refusals, and the document holds the summary that was computed; what the specification writes, field by field, is `RegistryFields.CallWrites` |
| `RegistryStore.TwoCalls` | scripts/rl_conclusion_registry.py:180-248 | two calls in a row are two merges with the re-read of the first document between them |
| `RegistryStore.RegistryFile.MergeRegistryFile` | scripts/rl_conclusion_registry.py:733-752 | under the lock the file becomes the committed document, or stays as it was if the call is refused; the lock is free afterwards; a committed document holds every reported field (`RegistryFields.CallWrites`, `RegistryFields.ReportIsFound`) |
| `RegistryFields.CallAccepted` | scripts/rl_conclusion_registry.py:180-220 | a call goes through exactly if owner and time are given, file and report can be read, and no reported record is somebody else's |
| `RegistryFields.CallWrites` | scripts/rl_conclusion_registry.py:180-248 | the six fields of the document a call writes: the kind of registry taken over from the file, time and author of the call, the file's table with the reports merged in as stated, and a summary of that table which counts the reports that are new and those newly closed |
| `RegistryFields.ReportIsFound` | scripts/rl_conclusion_registry.py:231-248 | the next reader finds a reported record, with every field that was reported, exactly unless the identifiers of the document hide it |
| `RegistryStore.CommittedTable` | scripts/rl_conclusion_registry.py:108-119 | what a reader finds after a commit: the merged table up to hidden identifiers |
| `RegistryStore.CommitKeepsSound` | scripts/rl_conclusion_registry.py:180-248 | a commit on a sound file leaves a sound file: readable, self-keyed, all owned |
| `RegistryStore.CommitKeepsForeign` | scripts/rl_conclusion_registry.py:180-248 | another owner's record is in the file after a commit exactly if its identifier survives the new document, and then unchanged |
| `RegistryStore.CommitMakesOwnRecords` | scripts/rl_conclusion_registry.py:205-235 | a commit never adds or changes a record of somebody else |
| `RegistryStore.OthersCanDestroy` | scripts/rl_conclusion_registry.py:122-248 | witness: for any two owners, a record is in the file after its owner's commit and gone after the other's |
| `RegistryProtocol.StepKeeps` | scripts/rl_conclusion_registry.py:69-105 | every step of every process, failing and crashing ones included, keeps the protocol invariant; that calls end and release the lock is `RegistryLiveness.HolderCanFree` |
| `RegistryProtocol.EveryRunIsSerial` | scripts/rl_conclusion_registry.py:69-105 | after any schedule the file is the replay of the completed replaces in lock order; every call that replaced, whether it returned or raised afterwards, is logged once with its document, and no call that raised before is; unlocked readers see only prefixes, in order; mutual exclusion. How each kind of call ends is stated by the `RegistryLiveness` rows |
| `RegistryProtocol.OnlyReplaceWrites` | scripts/rl_conclusion_registry.py:69-94 | only a replace changes the file, into what its call makes of the file as it stands |
| `RegistryProtocol.RunsStaySound` | scripts/rl_conclusion_registry.py:733-752 | starting from a sound file, which includes none, at every moment of every run the registry is readable and all records are owned and self-keyed |
| `RegistryProtocol.ForeignRecordsSurvive` | scripts/rl_conclusion_registry.py:733-752 | through any stretch of any run from a sound file in which its owner does not write, a record stays its owner's and unchanged exactly if no call in between leaves identifiers that hide it |
| `RegistryProtocol.UndisturbedCall` | scripts/rl_conclusion_registry.py:69-105 | with the lock free, a call that commits goes through, is logged and leaves its document |
| `RegistryLiveness.ReturningCall` | scripts/rl_conclusion_registry.py:69-105 | with the lock free, a call that commits ends with its document in the file, one log entry, the lock free, no temporary file and exactly one new outcome, which says that it returned |
| `RegistryLiveness.RefusedCall` | scripts/rl_conclusion_registry.py:97-105 | with the lock free, a call that the file refuses ends with file, log and temporary files as before, the lock free, the process idle and exactly one new outcome, which says that it raised |
| `RegistryLiveness.FailingCall` | scripts/rl_conclusion_registry.py:69-105 | a call that raises after any of its actions under the lock leaves the lock free, no temporary file and one new outcome; before its replace file and log are as they were, after it its document stays and is logged |
| `RegistryLiveness.HolderCanFree` | scripts/rl_conclusion_registry.py:97-105 | in every reachable world the holder frees the lock by going on, by raising, and by crashing, whatever it has done so far, and no other process moves; a crash changes nothing else |
| `RegistryLiveness.OnlyHolderFrees` | scripts/rl_conclusion_registry.py:97-105 | in every reachable world the lock is only taken from its holder by that process's own release or crash, and is free then |
| `RegistryLiveness.WaitingGetsIn` | scripts/rl_conclusion_registry.py:97-105 | in every reachable world a waiting call has the lock one step after the holder went on to its end, raised or crashed |
| `RegistryProtocol.RunThatDestroys` | scripts/rl_conclusion_registry.py:733-752 | witness: a run in which an owner's record is filed and another owner's call destroys it |
| `Deploy.ScreepsApi.Request` | scripts/screeps_official_deploy.py:121-161 | every request reaches the store once and is remembered, redacted, exactly if it was answered |
| `Deploy.PlanIsFaithful` | scripts/screeps_official_deploy.py:538-570 | the expected live sequence is the dry-run plan, up to the conditional clone and one more branch list |
| `Deploy.EnsureBranch` | scripts/screeps_official_deploy.py:605-619 | lists, clones exactly if the branch was missing, from the right source, and refreshes; touches nothing else |
| `Deploy.UploadAndVerify` | scripts/screeps_official_deploy.py:621-631 | success means the branch holds a module of the artifact's hash |
| `Deploy.Activate` | scripts/screeps_official_deploy.py:635-656 | success means the pointer is on the branch; the code of no branch changes |
| `Deploy.ActivationNeedsMatch` | scripts/screeps_official_deploy.py:627-637 | in every run, finished or not, activation is requested only right after the branch was read back with the right hash |
| `Deploy.RunDeploy` | scripts/screeps_official_deploy.py:573-673 | nothing is sent without authorization; every run follows the sequence as far as it goes and changes no other branch; success leaves the artifact on the branch, and active if requested |
| `Deploy.LiveRunFollowsPlan` | scripts/screeps_official_deploy.py:538-659 | the recorded trace of every successful live run is the plan plus one refresh; its writes are the planned ones in order |
| `DeployTrace.RunSends` | scripts/screeps_official_deploy.py:573-659 | a live run sends exactly the stated requests, position by position, and stops at the first reply that does not show what it has to; it is complete exactly if there was none |
| `DeployTrace.AuthorizedExactly` | scripts/screeps_official_deploy.py:573-603 | requests go out only for a confirmed deploy of a readable module to the persistent world, with a token; the confirmation names branch, shard and room |
| `DeployTrace.PlanIs` | scripts/screeps_official_deploy.py:538-570 | the dry-run plan, request by request |
| `DeployTrace.SourceIs` | scripts/screeps_official_deploy.py:605-619 | a missing branch is cloned from the one named, or else from the active one, or else from `default` |
| `RollbackTriggers.TriggersByChain` | scripts/screeps_official_deploy.py:676-684 | the recursive trigger holds exactly if some level of the reason tree names a trigger kind |
| `RollbackTriggers.TriggerReasonKinds` | scripts/screeps_official_deploy.py:1355-1373 | the stack walk collects exactly the trigger kinds at any level of any reason, sorted, once each |
| `RollbackTriggers.TriggersIffKinds` | scripts/screeps_official_deploy.py:676-694 | a failed gate triggers a rollback exactly if the collected kinds are non-empty |
| `RollbackReading.GateReads` | scripts/screeps_official_deploy.py:676-694 | a gate triggers a rollback exactly if its `ok` is false and at some level of one of its reasons there is one of the four kinds, spelled out |
| `RollbackTriggers.ParseExactly` | scripts/screeps_official_deploy.py:1196-1210 | parsing yields a target exactly on its two spellings, surrounding blanks aside |
| `RollbackTriggers.FormatParse` | scripts/screeps_official_deploy.py:1190-1210 | a formatted room target reads back as itself |
| `RollbackTriggers.TargetsByChain` | scripts/screeps_official_deploy.py:1213-1233 | a reason's targets are exactly the readable rooms of its trigger levels, inherited rooms included |
| `RollbackTriggers.AutoRollbackRecoveryTargets` | scripts/screeps_official_deploy.py:1236-1248 | the list is non-empty, without repetition, and exactly the contributions of the reasons, or the configured room |
| `RollbackTriggers.TargetsCoverTriggers` | scripts/screeps_official_deploy.py:1236-1248 | every triggering reason is covered, by each room a trigger level names or by the configured one |
| `RollbackTriggers.TargetsAreJustified` | scripts/screeps_official_deploy.py:1236-1248 | nothing else is waited for |
| `RollbackReading.TargetsExactly` | scripts/screeps_official_deploy.py:1196-1248 | a target has to recover exactly if a level that complains names its room, or if it is the configured one and some reason complains without naming any, or none complains |
| `RollbackRecovery.FirstMatchDecides` | scripts/screeps_official_deploy.py:1095-1113 | if rooms are listed as the target, it counts as recovered exactly if the first of them has a spawn and a creep |
| `RollbackRecovery.LoneRoomDecides` | scripts/screeps_official_deploy.py:1095-1113 | a lone room that is not the target decides for it, exactly by its own counts |
| `RollbackRecovery.NobodyDecides` | scripts/screeps_official_deploy.py:1095-1113 | without a room listed as the target and without exactly one room, nothing counts as recovered |
| `RollbackRecovery.RecoveryIsEvidence` | scripts/screeps_official_deploy.py:1095-1113 | recovery implies that a room listed as the target has a spawn and a creep, exactly unless a lone other room has both |
| `RollbackRecovery.NamelessCountsRecoverAll` | scripts/screeps_official_deploy.py:1048-1113 | witness: a payload of counts without a name proves every target recovered while showing none |
| `RollbackRecovery.OneRoomRecoversAll` | scripts/screeps_official_deploy.py:1095-1160 | one populated room, whichever it is, proves recovery of every list of targets |
| `RollbackRecovery.PopulatedRoomsRecover` | scripts/screeps_official_deploy.py:1095-1113 | if the target is listed and everything listed as the target has a spawn and a creep, it counts as recovered |
| `RollbackRecovery.RecoveryStatusFromTargets` | scripts/screeps_official_deploy.py:1144-1160 | ok exactly if there are targets and every one recovered; one status per target |
| `RollbackReading.RecoveryReads` | scripts/screeps_official_deploy.py:1047-1113 | a target counts as recovered exactly if the room that speaks for it, the first listed as the target or else the only one listed, has a spawn and a creep by the first of its count fields that can be read |
| `RollbackRecovery.WaitForRecoveryTargets` | scripts/screeps_official_deploy.py:1163-1187 | at most the rounded-up quotient of timeout and interval plus one readings; success exactly if the last one recovered all targets and no earlier one did; giving up only after the deadline |
| `Rollback.PairingIsExclusive` | scripts/screeps_official_deploy.py:714-722 | two deploy names share a health gate exactly if they are equal or neither has a dash suffix |
| `Rollback.IterSuccessfulDeployEvidence` | scripts/screeps_official_deploy.py:765-800 | the scan remembers exactly the healthy deploys, in path order, each with the commit and the `timestampUtc` of its file, or the modification time where that is no text |
| `Rollback.FindPreviousHealthyDeploy` | scripts/screeps_official_deploy.py:803-825 | picks the most recent file to return to, by its `timestampUtc` or else its modification time, the last listed of those equally recent; fails exactly if the target is incomplete or there is no file to return to |
| `Rollback.LatestIsHealthy` | scripts/screeps_official_deploy.py:803-825 | the choice is a healthy deploy of the same four target fields, of another commit, and no other file to return to is more recent by its own `timestampUtc` or else its modification time |
| `Rollback.LatestIsMostRecent` | scripts/screeps_official_deploy.py:754-762 | in the words of the files alone: among the deploys to return to, none has a greater `timestampUtc`, or modification time where it has none, and none listed later has an equal one |
| `Rollback.SurfaceOnce` | scripts/screeps_official_deploy.py:1376-1459 | an error leaves the rollback with the escalation prefix, never doubled, and surfacing twice is surfacing once |
| `RollbackEvidence.SharesGateExactly` | scripts/screeps_official_deploy.py:714-729 | a run writes its gate over that of a deploy exactly if neither is numbered, or they have one name, in the same directory |
| `RollbackEvidence.CandidatesLeft` | scripts/screeps_official_deploy.py:765-825 | after a failing run has written its evidence and gate, a deploy can be chosen exactly if it could be before, as far as the evidence leaves its gate, and does not share the run's |
| `RollbackEvidence.CandidatesBefore` | scripts/screeps_official_deploy.py:765-825 | unless the evidence is named like a gate, these are the candidates before the run that do not share its gate, and all of them for a numbered evidence file |
| `RollbackEvidence.ChosenBefore` | scripts/screeps_official_deploy.py:803-825 | the choice was a candidate before the run and, by `timestampUtc` or else modification time, is the most recent of those that stay |
| `RollbackEvidence.OneGateForTwo` | scripts/screeps_official_deploy.py:714-800 | witness: a directory in which one gate file makes two deploys of different commits healthy |
| `RollbackEvidence.OneFailureLosesBoth` | scripts/screeps_official_deploy.py:725-825 | witness: there, both deploys can be rolled back to, and after a failing run without evidence path nothing can |
| `RollbackEvidence.SuchARunExists` | scripts/screeps_official_deploy.py:725-729 | for every gate result there is such a run on that directory |
| `RollbackRun.ExecuteAutoRollback` | scripts/screeps_official_deploy.py:1381-1459 | what a rollback does is its fixed event sequence cut off where it failed; whatever it checked out, failing or not, is the most recent healthy deploy by its own file; a summary means it was earned and the rebuilt artifact is live; every error is escalated |
| `RollbackRun.CheckHealth` | scripts/screeps_official_deploy.py:1588-1597 | a rollback starts only on a triggering gate; without one the run succeeds exactly if the gate passed |
| `RollbackRun.RunCli` | scripts/screeps_official_deploy.py:1580-1601 | every run of the command, successful or not: its events, its effect on the store, the evidence and gate it has written before a rollback looks for a healthy deploy (a gate that cannot be read starts no rollback), its error, and that success of a deploy leaves the artifact live |
| `RollbackRun.OneRollback` | scripts/screeps_official_deploy.py:1580-1601 | no run deploys more than twice; the second deploy is the rollback's and follows a triggering gate; what is checked out does not share the run's gate and was healthy before the run, unless the run's evidence is named like a gate; a summary is the last event and was earned by a reading after the rollback's deploy |
| `RollbackRun.ChecksInOrder` | scripts/screeps_official_deploy.py:1381-1459 | the steps come in this order: gate, checkout, rebuild, deploy to the same target under evidence of its own and without a rollback of its own, issue, summary; every run of them is a beginning of that list |
| `RollbackRun.RestoresHealthyBefore` | scripts/screeps_official_deploy.py:1398-1407 | whatever a rollback checks out is the commit of the most recent file to return to, by its `timestampUtc` or else its modification time, that does not share the run's gate; it was healthy before the run, unless the run's evidence is named like a gate |
| `RollbackRun.SummaryNamesHealthyDeploy` | scripts/screeps_official_deploy.py:1435-1450 | a written summary names evidence of a healthy deploy of the same target and another commit |
| `RollbackRun.SummaryCoversRooms` | scripts/screeps_official_deploy.py:1416-1450 | a written summary lists every room that a trigger level of the gate names; each counted as recovered in the last reading, taken after the rollback's deploy, and was seen populated there exactly unless a lone other room spoke for it |
| `KpiHistory.DayOfFloor` | scripts/generate-roadmap-page.py:1821-1822 | dropping fractions of a second never changes the day |
| `KpiHistory.BeforeWindow` | scripts/generate-roadmap-page.py:1656-1658 | an instant is before the window start exactly if its day is before the window's first day |
| `KpiHistory.LoadMetricHistory` | scripts/generate-roadmap-page.py:1619-1644 | per metric, the loaded points are the rows in table order without those before the window |
| `KpiHistory.ReportKpiDateBuckets` | scripts/generate-roadmap-page.py:2897-2909 | seven consecutive days ending on the newest day of history and generation time |
| `KpiHistory.LoadRuntimeArtifactMetricHistory` | scripts/generate-roadmap-page.py:1681-1724 | the artifact points are those of the bucket days, each day reduced as a whole, its records sorted by instant and then path, and stamped with its last instant |
| `KpiDays.DayListIs` | scripts/generate-roadmap-page.py:1701-1708 | what is reduced for a day is exactly the selected records of that day, each once, by instant and then path, and in scan order where both are equal |
| `KpiHistory.MergeMetricHistories` | scripts/generate-roadmap-page.py:1872-1882 | per metric, the stable sort by time of the concatenated lists |
| `KpiHistory.MetricHistoryValues` | scripts/generate-roadmap-page.py:2930-2959 | each bucket shows value and status of the daily point |
| `KpiHistory.DailyPoint` | scripts/generate-roadmap-page.py:2962-2973 | the daily point is the last-listed one of the latest instant, among the observed points if there are any, else among all |
| `KpiHistory.MorePointsKeepObserved` | scripts/generate-roadmap-page.py:2962-2973 | adding points never turns an observed day unobserved |
| `KpiHistory.SortingIsInvisible` | scripts/generate-roadmap-page.py:1872-1882 | the stable sort never changes a daily point |
| `KpiHistory.NewestSurvives` | scripts/generate-roadmap-page.py:1627-1634 | truncation never moves the newest day |
| `KpiHistory.ArtifactsNeverShiftBuckets` | scripts/generate-roadmap-page.py:1681-1697 | adding artifact points never moves the bucket days |
| `KpiHistory.TruncationIsInvisible` | scripts/generate-roadmap-page.py:1619-1658 | truncated rows never change the daily point of any bucket |
| `KpiDays.DailySeries` | scripts/generate-roadmap-page.py:819-829 | the whole pipeline shows what folding the plain untruncated, unsorted concatenation shows, over the seven days ending on the newest stored day; each day shows the observed, then latest, then last-listed of its stored points and of what the reducer makes of its records, sorted by instant, path and scan |
| `KpiDays.LatestRecordShown` | scripts/generate-roadmap-page.py:1701-1724 | with a reducer that reports its last record, a day shows the value of its latest selected record, the last of them by path and scan, unless the table has a later observed value |
| `KpiDays.MergedInOrder` | scripts/generate-roadmap-page.py:1872-1882 | the merged points are the same ones by instant, in the order they had where instants are equal |
| `Chart.ExponentIsUnique` | scripts/generate-roadmap-page.py:3002-3004 | the magnitude is the only power of ten that fits |
| `Chart.NiceChartMaxFits` | scripts/generate-roadmap-page.py:3002-3004 | the rounded maximum is at least the value and below twice the value |
| `Chart.NiceChartMaxIsLeast` | scripts/generate-roadmap-page.py:3002-3004 | it is the least multiple of its magnitude that is not below the value |
| `Chart.TopCovers` | scripts/generate-roadmap-page.py:2994-2999 | the top covers the highest value exactly unless that lies above a configured top and at most at one; checked again, it stays |
| `Chart.LowTopFallsShort` | scripts/generate-roadmap-page.py:2994-2999 | witness: a card configured at a half keeps that top for a value of 0.8 |
| `Chart.Card.NormalizeReportChartBounds` | scripts/generate-roadmap-page.py:2985-2999 | raises top and ticks together, exactly when the highest value does not fit, and leaves both alone otherwise; no value is above the top of a card configured at one or more |
| `Chart.HeightsAreFaithful` | scripts/generate-roadmap-page.py:6385-6387 | points stay in the frame, and values on the scale keep their order |
| `Chart.DrawSeries` | scripts/generate-roadmap-page.py:6411-6433 | the polylines are exactly the maximal runs of at least two observed days, and every observed day has exactly one dot |
| `Chart.LinesAreSeparate` | scripts/generate-roadmap-page.py:6411-6433 | no line crosses a missing day and no day is on two lines |
| `Chart.LinesAreDetermined` | scripts/generate-roadmap-page.py:6411-6433 | the values determine the lines |
| `DeployEvidence.Deduplicate` | scripts/generate-roadmap-page.py:4794-4818 | the scan with its two seen sets keeps a file exactly if it is accepted and conflicts with nothing kept before |
| `DeployEvidence.KeptAre` | scripts/generate-roadmap-page.py:4784-4818 | the kept files are exactly those inside the window that stand for no deploy, by run, or by commit and second, or by name, that an earlier kept one stands for |
| `DeployEvidence.KeptAreIndependent` | scripts/generate-roadmap-page.py:4784-4818 | kept files are accepted and pairwise differ in evidence id and in content id |
| `DeployEvidence.DroppedForAReason` | scripts/generate-roadmap-page.py:4784-4818 | every accepted file that is dropped conflicts with one kept before it |
| `DeployEvidence.KeptAreMaximal` | scripts/generate-roadmap-page.py:4784-4818 | no accepted file could be added to the kept ones |
| `DeployEvidence.CountIsOrderFree` | scripts/generate-roadmap-page.py:4784-4818 | where conflicts are transitive among the accepted files, the number of kept files is the same for every order and repetition of them |
| `DeployEvidence.CountOrderFreeExactly` | scripts/generate-roadmap-page.py:4784-4848 | transitivity is exactly the condition: the count never depends on the order, on the files or any part of them, if and only if it holds |
| `DeployEvidence.OrdersReachMaximal` | scripts/generate-roadmap-page.py:4784-4848 | what the orders of given files keep are exactly their maximal independent lists |
| `DeployEvidence.WholeCountOrderFreeExactly` | scripts/generate-roadmap-page.py:4784-4848 | every order of given files keeps n of them exactly if all their maximal independent lists have length n |
| `DeployEvidence.CountDependsOnOrder` | scripts/generate-roadmap-page.py:4784-4848 | witness: three files with different counts in two orders |
| `DeployEvidence.KeptAreHalf` | scripts/generate-roadmap-page.py:4784-4818 | no independent list of accepted files is more than twice as long as the kept one |
| `DeployEvidence.SummarizeOfficialDeployEvidence` | scripts/generate-roadmap-page.py:4820-4832 | count, the first of the latest files, the ids in order (none twice, if instants are written at one width), and the captured range of the kept files; the range is inside the window and ends with the latest file |
| `DeployEvidence.LatestIs` | scripts/generate-roadmap-page.py:4820-4832 | the latest file: no kept one is later, or as late with a greater name, or listed before it and equal in both |
| `Tripwire.RegisterClosedForm` | scripts/check_scheduler_report_tripwire.py:81-95 | a priority is in force exactly if the last tagged heading sets it and every heading after it is strictly deeper |
| `Tripwire.IterBlocks` | scripts/check_scheduler_report_tripwire.py:113-166 | the blocks of a text: right lines, numbers, kinds and priorities, in order, every line with text covered, none cut short |
| `Tripwire.BlocksPartitionText` | scripts/check_scheduler_report_tripwire.py:113-166 | the blocks hold the lines with text, each once and in order |
| `Tripwire.BlocksAreDetermined` | scripts/check_scheduler_report_tripwire.py:113-166 | the text determines its blocks |
| `Tripwire.FindUntrackedActionItems` | scripts/check_scheduler_report_tripwire.py:169-189 | the findings are the reported blocks, in order |
| `TripwireFindings.FindingsAre` | scripts/check_scheduler_report_tripwire.py:113-189 | in the words of the lines: the findings are exactly the items that demand something, refer to no issue, do not say there is nothing to do, and have a priority of their own or in force above them; in line order |
| `Tripwire.ReportedByContext` | scripts/check_scheduler_report_tripwire.py:169-189 | an untracked action item without a priority of its own is reported exactly if some heading above governs it, with that heading's priority |
| `Comments.StrippingKeepsNewlines` | scripts/check_issue_completion_gate.py:152-153 | stripping comments keeps the number of newlines |
| `Comments.SurvivorsKeepTheirLine` | scripts/check_issue_completion_gate.py:152-153 | every surviving character keeps its line number and their order stays |
| `Comments.FrontStays` | scripts/check_issue_completion_gate.py:152-153 | text in front of the first comment stays as it is |
| `Comments.FirstCommentIsBlanked` | scripts/check_issue_completion_gate.py:152-153 | the first comment runs to the first terminator behind its opener and leaves its newlines only |
| `Comments.NothingToStrip` | scripts/check_issue_completion_gate.py:152-153 | text without a closed comment stays as it is |
| `IssueGate.SplitUnlines` | scripts/check_issue_completion_gate.py:181-182 | splitting a body cuts exactly at the newlines: no line holds one, and the lines put back together give the body |
| `IssueGate.ExtractHeadingSection` | scripts/check_issue_completion_gate.py:181-200 | the numbered lines between the first heading of its kind and the next heading that is not deeper, or nothing if there is none |
| `IssueGate.SectionIsDetermined` | scripts/check_issue_completion_gate.py:181-200 | the lines determine the section |
| `IssueGate.ParseGateLines` | scripts/check_issue_completion_gate.py:207-217 | the checkbox lines of a section with their numbers and ticks; `IssueGateLines.GateLinesAre` says so line by line |
| `IssueGateLines.GateLinesAre` | scripts/check_issue_completion_gate.py:207-217 | the gate lines are the boxes of the section, each once and in order: a line with a ticked box is ticked, one with an unticked box only is not, each with its number and text |
| `IssueGate.TrimEmpty` | scripts/check_issue_completion_gate.py:224-232 | evidence is empty exactly if it consists of separators |
| `IssueGate.DoneGateExactly` | scripts/check_issue_completion_gate.py:248-301 | the Done gate is without problems exactly if all boxes are ticked, every field is there with settled evidence, and a named surface is proved |
| `IssueGate.ValidateUniversalDoneGate` | scripts/check_issue_completion_gate.py:248-301 | the errors are those of the section, one by one and in order; none exactly if the section holds, or is absent and not required; which lines of the section these are is `IssueGateErrors.DoneReported` |
| `IssueGate.IssueGateExactly` | scripts/check_issue_completion_gate.py:338-367 | the issue gate is without problems exactly if all boxes are ticked and every closed issue has ticked lines, all with settled evidence |
| `IssueGate.FindClosingRefs` | scripts/check_issue_completion_gate.py:171-178 | the issues found are exactly those that some line closes |
| `IssueGate.FindNegatedPhrases` | scripts/check_issue_completion_gate.py:156-168 | errors exactly if some line has a negated phrase, each naming such a line |
| `IssueGate.ValidateLines` | scripts/check_issue_completion_gate.py:308-367 | the errors are the negated phrases if there are any, else those of the Done gate and then of the issue gate for the closed issues in order; none exactly if the lines are accepted as specified; which lines of the body they name is `IssueGateErrors.ErrorsAre` |
| `IssueGateLines.AcceptsMeans` | scripts/check_issue_completion_gate.py:308-367 | acceptance in the words of the lines: no line of a gate section is an unticked box, and every field and every closed issue has lines with a ticked box for it, all of whose texts are settled |
| `IssueGateErrors.DoneReported` | scripts/check_issue_completion_gate.py:248-301 | the Done gate reports a problem exactly if a line of its section, or a missing one, gives reason to: `UncheckedDone(n)` for exactly the unticked lines n |
| `IssueGateErrors.GateReported` | scripts/check_issue_completion_gate.py:338-367 | the issue gate reports a problem exactly if a line of its section gives reason to: `UncheckedGate(n)` for exactly the unticked lines n, and each closed issue without ticked or with unsettled lines |
| `IssueGateErrors.ErrorsAre` | scripts/check_issue_completion_gate.py:308-367 | the errors of a body are exactly what is wrong with its lines |
| `IssueGateErrors.ValidateBody` | scripts/check_issue_completion_gate.py:308-367 | the errors of a body are exactly what is wrong with its visible lines, Done gate before issue gate; it is accepted exactly if, comments aside, there is no negated phrase, no gate section has an unticked box, every field and every closed issue has ticked lines, all with settled evidence |
| `IssueGate.ErrorsAreDetermined` | scripts/check_issue_completion_gate.py:308-367 | the lines determine the errors, their number and their order |
| `DatasetWindows.CollectRoomFrames` | scripts/extract-strategy-dataset.py:185-207 | per named room, the stable sort by tick of its frames in record order |
| `DatasetRows.RoomListIs` | scripts/extract-strategy-dataset.py:185-207 | what is collected for a room is its frames, each once, by tick, frames without one last, and in record order where ticks are equal |
| `DatasetWindows.CollectingKeepsFrames` | scripts/extract-strategy-dataset.py:185-207 | no frame of a named room is lost or made up, and each room is in order |
| `DatasetWindows.WindowShape` | scripts/extract-strategy-dataset.py:210-215 | n - w + 1 windows of length w for n > w, each the frames from its start, and the exact number of windows that cover a frame; one window for fewer frames |
| `DatasetWindows.BuildLabeledWindows` | scripts/extract-strategy-dataset.py:144-182 | the rows are exactly the first ones of the unlimited run across all rooms in name order |
| `DatasetRows.RunIs` | scripts/extract-strategy-dataset.py:144-215 | what a run writes, in the words of the records: room after room by name, the windows of each in order, long rooms cut into windows of the given size and shorter ones taken whole; every window that can be labelled gives its label, until the limit, of at least one, is reached |
| `DatasetWindows.RunIsDetermined` | scripts/extract-strategy-dataset.py:153-158 | the records determine the rooms and the order in which they are sampled, so the rows are determined too |
| `DatasetWindows.LimitsAgree` | scripts/extract-strategy-dataset.py:144-182 | the rows of two runs over the same records: a smaller limit gives a prefix of what a larger one gives, equal if it was not reached, and of exactly the limited length |

## Left out

- HTTP, subprocesses, git, npm, the GitHub client, SQLite and directory scanning: only their results enter, as parameters or arbitrary values.
- Error wording, redaction, evidence rendering, issue texts, HTML, CSS and the rest of the SVG, argument parsing.
- In the deploy and rollback runs, failures other than the script's own error classes, such as an unwritable evidence file; they end a run outside the modelled paths.
- The JSON shapes of branch lists and the order of their fallbacks: one function parameter reads them.
- Validation of branch, shard and room arguments, except that a branch is never `$activeWorld`, that the poll interval is positive (it is a constant of the script) and that window sizes are at least one.
- Python's non-finite floats, Unicode digits, Unicode casing and blanks beyond ASCII in `strip`, and line separators other than the newline.
- Time zones other than the report's: days are calendar days at a fixed offset of eight hours, as in the script; instants before the first representable one do not occur.
- Horizontal chart positions and the rounding of coordinates; labels and legends.
- The KPI reducer, artifact scanning, provenance fields of points, and the file scan behind deploy evidence.
- `RollbackRun.RunCli`: what a run writes after its rollback has chosen a deploy (rollback evidence, summary, monitor output) and the monitor files beside the gate are not contents of the evidence directory; none of them is read again in the run.
- Symbolic links among the files of the evidence directory: a file is its resolved folder, stem and suffix.
- `wait_for_room_recovery`, the single-room twin of the polling loop, which differs from it only in its status.
- The order of the keys in dictionaries the summary writes, and the fixed texts of the plan and of the gates.
- The order of recovery targets, which only affects how the summary lists them.
- `validate_commit_messages`, the self-tests and the fetching of pull requests of the issue gate.
- Features, labels, rewards, identifiers and train/eval split of dataset rows: one function parameter labels a window.
- Scale gates, quota budget, cron registry comparison, act-loop planner, behavioural detectors and snapshot renderers: threshold tables and plumbing.
