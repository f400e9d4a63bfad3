# A model of Archiver's concurrency, crash recovery and matching

Archiver backs up service directories, copies them to secondary storages, prunes, restores,
drills restores and reports incidents. These run at the same time, in one process or several,
and any of them may be killed at any step. This project models the parts whose correctness
rests on protocols between them, and the hand-written algorithms, and proves what they keep.

Each file models one component. Operations that change state are methods of a class, or
methods with loops, with their effect stated as a function of the state before; where several
processes interleave, those functions (or the single system calls, where a call is what
interleaves) are the steps of a transition system, and the main results hold in every state
any run can reach. `Runs.dfy` has what all of those systems share.

- `Registry.dfy`, `InUse.dfy`: the registry of revisions in use, at the level of file names,
  inodes and locks, against local prunes, mirror passes and forget.
- `Worker.dfy`, `Recount.dfy`, `Outage.dfy`, `Mirror.dfy`: the copy worker's counters and lock
  sections, its recount, its failure record, and the mirror's planning over repeated passes.
- `Incident.dfy`: incident notifications shared by many sending processes.
- `Hooks.dfy`, `Exclusion.dfy`, `Pause.dfy`, `Grouping.dfy`: the backup pipeline's hooks across
  crashes, its exclusion with restores, pausing, and which services may back up together.
- `Drill.dfy`: which services and storages a restore drill takes, across killed runs.
- `Glob.dfy`, `Bracket.dfy`: the matcher for SERVICE_DIRECTORIES, proved against the pattern
  language of section 2.13 of the POSIX.1-2017 Shell Command Language with bash's variations, in
  the C locale. Bracket expressions have a grammar of their own, after section 9.3.5 of the Base
  Definitions; where that leaves a form open (a class or [=c=] beside a hyphen, a hyphen right
  after a range) the grammar takes the code's choice.
- `VersionOrder.dfy`: the order of setting names.

Where a promised property does not hold of the code as it is, the project keeps the code,
shows a state or an input where it fails, and proves exactly when it holds:

- `Registry.NoRevisionInUseDeleted`, `Registry.ForgetWitness`: forget removes an ID's whole
  directory, so a revision a copy has registered in advance and that appears between forget's
  listing and its removal goes too.
- `Worker.StopForgottenExactly`, `Worker.StopHoldsElsewhere`: with a copy window, a stop that
  comes between a pass's check and outsideWindow is forgotten when the window is closed; no other
  is.
- `Incident.ClaimHonouredExactly`: a raise reads its clock before taking the incidents' lock,
  so over a second's edge it can take another's claim for one in the future.
- `Hooks.ToldExactly`, `Hooks.UnwrittenWitness`: a mark that could not be written, and no write of
  the record since, protects nobody.
- `Pause.PartedExactly`, `Pause.CleanupWitness`, `Pause.DeathWitness`: a cleanup recorded over a
  pause, or an editor that dies with a program still to signal, leaves the file saying one thing
  and the programs doing another, until the next pause or resume.
- `Pause.PauseCrossesExactly`, `Pause.CrossedPauseStalls`, `Pause.PauseCrossesWitness`: a pause in
  flight while its run ends and another takes the lock is recorded against the other, which then
  starts nothing until it is resumed, records another event or ends.
- `Bracket.AgreeExactly`, `Bracket.ExampleWitness`: a range that ends in a collating symbol, as
  in the standard's own example, is read as its parts.
- `Mirror.PlanAfterOverride`, `Mirror.OverrideWitness`: after an allowed large deletion, what was
  held back in use, or not reached, may be refused at the next pass.
- `VersionOrder.TieIffReadAlike`: numbers too wide for an int tie with one another, although
  the comment promises the order of `sort -V`.

Assumed throughout: kernel locks go with the last process that has the file open; a rename
replaces a name at once; listing a directory is one step; new file names, inodes and incident
generations are fresh; clocks do not go backwards. Incident senders finish within the claim's
lease or are dead (`Incident.Next`). Snapshot IDs hold no colon and revisions start at 1
(`InUse.Listing`).

## Model

| member | source | states |
|---|---|---|
| Registry.InvStep | internal/inuse/inuse.go:51-260 | the invariant behind every claim below is kept by each step of any reader or prune, file operation by file operation |
| Registry.NoRevisionInUseDeleted | internal/inuse/inuse.go:51-67 | a step deletes a revision that a live registration covers exactly when it is a forget clearing an ID that gained the revision after the forget listed it; no local prune or mirror pass ever does |
| Registry.Survives | internal/inuse/inuse.go:131-181 | over any run, a revision covered throughout and not in a forget's blind spot at the start is never deleted and never enters one |
| Registry.RegisteredRevisionSurvives | internal/inuse/inuse.go:237-260 | a revision present and covered while its reader holds the storage's shared gate is there for as long as the registration covers it |
| Registry.LiveEntryReadRight | internal/inuse/inuse.go:186-213 | a prune reading a live reader's entry finds the current file or a just superseded one that covers at least as much, never reports it gone and never removes it |
| Registry.RemoveSpares | internal/inuse/inuse.go:199-205 | the file a prune removes is never a live reader's |
| Registry.SeenIsLive | internal/inuse/inuse.go:186-213 | the rows a prune takes in at a step are those of a file that a live reader has open in that state; nothing else adds any |
| Registry.UncoveredMayGo | internal/inuse/inuse.go:154-181 | what no file a live reader had open covered at any moment since a prune began, the prune may delete, and deletes just that: a dead reader blocks nothing |
| Registry.DeadIsRemoved | internal/inuse/inuse.go:193-205 | a name whose file nobody alive had locked before a prune listed the directory is gone once that prune has read it |
| Registry.PruneGoesOn | internal/inuse/inuse.go:186-213 | a prune reading the directory always has a next step, short of a tenth file that changed under it |
| Registry.RegistersExactly | internal/inuse/inuse.go:51-120 | what a registration covers after any step: the rows of the file just linked or renamed to, nothing after release or death, else what it did |
| Registry.CopyNarrows | internal/copier/worker.go:471-509 | the copy worker's narrowing to what the target lacks covers nothing new on any storage, so it needs no gate |
| Registry.CopyRelists | internal/copier/worker.go:513-545 | its registration and re-registration of a listing name only the primary, whose gate it holds |
| Registry.ForgetWitness | internal/forget/forget.go:156-176 | the exception happens: forget lists an ID's one old revision, a newer one appears, and its removal deletes the newer, which a live copy is registered to read |
| InUse.Parse | internal/inuse/inuse.go:215-233 | keeps exactly the rows of the storage asked about, in order and as often as they are there, which cover on it what all the rows do |
| InUse.Set.Add | internal/inuse/inuse.go:167-179 | one more holding makes busy exactly what its rows on this storage cover |
| InUse.Set.Has | internal/inuse/inuse.go:131-152 | busy exactly when some holding names the ID and a row of it covers the revision, or names no such ID and a "*" row covers it |
| InUse.Split | internal/localprune/plan.go:36-48 | the deletions of one ID to make now and those that wait, as functions of what is busy |
| InUse.FreeAndHeld | internal/localprune/plan.go:36-48 | those two are the free and the busy ones, together all that was planned, none twice |
| InUse.ListedNewest | internal/copier/worker.go:526-534 | the newest listed revision of every listed ID and of no other |
| InUse.Revisions | internal/copier/worker.go:550-562 | the rows registered: each key, each listed ID from its newest plus one on, and "*" |
| InUse.RegisteredExactly | internal/copier/worker.go:547-562 | for every ID and revision: covered exactly when the copy can still read it (a key kept, a later revision of a listed ID, or any of an unlisted one) |
| InUse.NarrowShrinks | internal/copier/worker.go:504-507 | narrowing from all listed to the missing ones never covers anything new, "*" included, on any storage |
| InUse.OneStorage | internal/copier/worker.go:550-562 | a copy's rows cover nothing on another storage |
| InUse.NewestRowsNeeded | internal/copier/worker.go:547-549 | for any listing, without the newest-plus-one rows "*" would take in every listed revision of an ID the target lacks nothing of |
| Worker.Worker.constructor | internal/copier/worker.go:177-189 | a stop, a hold or a copy does not outlive the process; every counter starts at zero |
| Worker.Worker.Wake | internal/copier/worker.go:202-214 | counts the wake and hands back the running check, and only a check, to be ended |
| Worker.Worker.Send | internal/copier/worker.go:195-200 | a wake or a nudge leaves exactly one token, however many were sent; the step system sends by the same function |
| Worker.Worker.Stop | internal/copier/worker.go:835-866 | counts the stop at the current wakes, drops a queued token, ends a pause and thaws the program |
| Worker.Worker.MarkHeld | internal/copier/worker.go:434-442 | held, keeping a failure's status |
| Worker.Worker.Hold | internal/copier/worker.go:387-410 | a window close: nothing when stopped, otherwise a new stop count, and the program thawed but the pause kept |
| Worker.Worker.Pause | internal/copier/worker.go:869-881 | pauses once and freezes the current program |
| Worker.Worker.Resume | internal/copier/worker.go:884-898 | undoes a pause and thaws the current program |
| Worker.Worker.Dispatch | internal/copier/worker.go:331-341 | goes on from a stop only for a wake after it, and takes the counts the pass will compare |
| Worker.Worker.OutsideWindow | internal/copier/worker.go:413-430 | marks the worker held exactly when the window is closed |
| Worker.Worker.Start | internal/copier/worker.go:696-722 | starts a program exactly when no stop came since, no pause holds and, for a check, no wake came |
| Worker.Worker.Finish | internal/copier/worker.go:724-728 | reports a program stopped by a later stop or, for a check, a later wake |
| Worker.Worker.Settle | internal/copier/worker.go:735-752 | writes a pass's outcome only while no stop has come |
| Worker.Safety | internal/copier/worker.go:346-410 | in every reachable state: a program under an older stop count is being ended; a program not being ended is frozen exactly when the worker is paused; a check is being ended once a wake came; a wake after the pass and the stop has a token, a sender or a waking loop; without a window a stop lasts until a later wake |
| Worker.StartsClean | internal/copier/worker.go:697-731 | a program starts only under the newest stop count, not paused, a check with no later wake, and after a stop only for a later wake |
| Worker.PauseHolds | internal/copier/worker.go:869-881 | over any run from a pause without a resume or stop: the worker stays paused, nothing starts nor can, and a program nobody is ending is frozen |
| Worker.LiftedPause | internal/copier/worker.go:835-898 | after a resume or a stop the worker is not paused and no program is left frozen |
| Worker.StopEnds | internal/copier/worker.go:387-410 | a stop, or the window closing on a worker not stopped, has the current program ended, and over any run nothing starts before the loop is dispatched again; the closing window keeps a failure's status and a pause |
| Worker.WakeIsHeard | internal/copier/worker.go:202-218 | over any run from a wake without a stop, the wake stays in the channel, with its sender or with the loop until a dispatch, which makes a pass that counts it; a running check is being ended |
| Worker.PassCounts | internal/copier/worker.go:331-362 | over any run of a pass that no stop or closing window meets: what it reports is written, and it may start a program exactly when not paused and, for a check, when no wake came |
| Worker.OnlyInWindow | internal/copier/worker.go:412-430 | over any run a pass gets to start anything only after outsideWindow found the window open, or none configured, and then it always does |
| Worker.StopHolds | internal/copier/worker.go:303-343 | without a window no run of any length leaves a stop or starts a program before the next wake |
| Worker.StopHoldsElsewhere | internal/copier/worker.go:303-362 | window or not, a stop that does not come between a pass's check of its stops and outsideWindow lasts until the next wake, and nothing starts |
| Worker.StopForgottenExactly | internal/copier/worker.go:412-442 | with a window, the one step that forgets a stop no wake has ended is outsideWindow's mark while the window is closed |
| Worker.StopForgottenWitness | internal/copier/worker.go:412-442 | that step happens: a stop between the pass's check and outsideWindow leaves the worker held, to be dispatched without a wake |
| Worker.InvStep | internal/copier/worker.go:293-362 | the invariant behind these claims is kept by every section, send, signal and step of the loop |
| Outage.Tracker.constructor | internal/copier/worker.go:177-189 | a restart keeps the record of the failure and forgets the attempt count and a stop |
| Outage.Tracker.Fail | internal/copier/worker.go:773-806 | one failure's effect on the record, the delay and the status |
| Outage.Tracker.Recover | internal/copier/worker.go:742-750 | a caught-up pass clears the record |
| Outage.Tracker.Stop | internal/copier/worker.go:850-851 | a stop cancels the retry and keeps the record of the failure |
| Outage.RecordMeans | internal/copier/worker.go:779-805 | over any history of failures, recoveries, stops and restarts: failing since the first failure since caught up, down since the first of them at or past 30 minutes, never earlier |
| Outage.RetryInTime | internal/copier/worker.go:783-792 | every retry lies ahead and at most 30 minutes away, and before the mark none is scheduled past it |
| Outage.DownOnTheMark | internal/copier/worker.go:785-791 | a target retried on schedule and failing each time is reported down on the mark to the second |
| Outage.NextTry | internal/copier/worker.go:773-806 | over any history: the next try is 1, 5, 15 and then every 30 minutes after the failures in a row since a catch-up, stop or restart, or on the mark when that comes first |
| Outage.DownExactly | internal/copier/worker.go:793-806 | over any history: after a failure the status is Down exactly when one at or past the mark is recorded, else Retrying |
| Outage.NothingDue | internal/copier/worker.go:735-752 | caught up or stopped nothing is due; a stop and a restart keep the record |
| Mirror.ById | internal/copier/mirror.go:71-88 | every ID's revisions, ascending, each once |
| Mirror.Deletions | internal/copier/mirror.go:47-57 | exactly the target's revisions local lacks that are not the target's newest and lie below local's newest |
| Mirror.ProposedMeans | internal/copier/mirror.go:47-57 | the rule by the newest revisions is the rule by what is newer: proposed are the target revisions local lacks of which both sides have a newer one |
| Mirror.PlanMirror | internal/copier/mirror.go:36-68 | for every ID: deleted or refused exactly as the rule says, with the counts a refusal reports; nothing for another deployment's ID |
| Mirror.LeaveInUse | internal/copier/upkeep.go:345-364 | takes exactly the revisions in use out of the plan, and an ID left empty with them |
| Mirror.ApplyMirror | internal/copier/upkeep.go:210-263 | planned, freed of what is in use and deleted ID by ID until done or stopped, what went is only what a pass may delete; finished, what is left is exactly all but the revisions that local lacks, that local and the target both have a newer one of, and that nobody reads, of this deployment's IDs of which those are at most half, or any with the override |
| Mirror.PartIsPass | internal/copier/upkeep.go:247-263 | any part of what the plan leaves to delete, with the override or not, is a pass |
| Mirror.PartIsUnforced | internal/copier/upkeep.go:214-263 | without the override such a part takes nothing of a refused ID |
| Mirror.CarriedOut | internal/copier/upkeep.go:214-222 | the plan carried out in full without the override is, ID by ID, the rule's proposal less what is in use, unless refused |
| Mirror.FinishedPass | internal/copier/upkeep.go:214-263 | with the override or not, what a carried-out plan leaves is told revision by revision, without the plan |
| Mirror.PassKeeps | internal/copier/upkeep.go:210-263 | so a pass, finished or cut short, keeps every target revision local has, every one in use, each ID's newest, and every one local has nothing newer of: what the target lacked is what it lacks |
| Mirror.Replanned | internal/copier/mirror.go:36-68 | after any part of a proposal went, exactly the rest is proposed |
| Mirror.PlanAfterPass | internal/copier/upkeep.go:210-263 | for whole listings: the plan after a finished pass proposes of each ID exactly what the first planned and was held back in use, and refuses exactly what the first refused |
| Mirror.ReplanAfterPass | internal/copier/upkeep.go:210-263 | the same of one ID's revisions: never refused after a pass that was not, and empty once none was in use |
| Mirror.ReplanAfterOverride | internal/copier/upkeep.go:16-22 | of one ID's revisions: after an allowed large deletion the next plan is refused exactly when what was held back is more than half of what is left |
| Mirror.PlanAfterOverride | internal/copier/upkeep.go:210-263 | for whole listings: after an allowed pass, finished or cut short, the next plan without the override proposes of each ID what was planned and has not gone, or refuses it, exactly when that is over half of what the target is left with, reporting the counts; after a finished one that is what was held back |
| Mirror.OverrideWitness | internal/copier/upkeep.go:16-22 | such a refusal after an override happens |
| Mirror.ListingsConverge | internal/copier/upkeep.go:181-263 | for whole listings and any number of passes: an ID planned at first has lost everything planned but what was in use at every pass, which is all the last plan proposes; an ID refused or another deployment's has lost nothing |
| Mirror.PassesConverge | internal/copier/upkeep.go:181-263 | the same of one ID's revisions, with no pass refused |
| Mirror.AnyPassesConverge | internal/copier/upkeep.go:181-263 | one ID's revisions over any passes, each finished or cut short: none after an unrefused first is refused, and what is still proposed is what was at first and has not gone, with all that every pass held in it and nothing that some finished pass did not hold |
| Mirror.CutShortConverge | internal/copier/upkeep.go:181-263 | the same for whole listings and plans: the last plan refuses exactly the IDs the first refused, and only what the first planned has gone |
| Mirror.HeldWithin | internal/copier/upkeep.go:345-364 | what stays after them is exactly the revisions busy in each pass |
| Recount.Count | internal/copier/worker.go:257-262 | the number of local revisions the last listing missed or had not seen |
| Recount.PrimaryIsEnough | internal/copier/worker.go:222-228 | listing the primary alone counts what the target lacks, while a mirror pass deletes there |
| Recount.OneListingAtATime | internal/copier/worker.go:229-240 | however many wakes ask, one listing runs |
| Recount.CountsTheCurrentListing | internal/copier/worker.go:263-272 | a count is written only against the listing the worker still goes by |
| Recount.NoCallLost | internal/copier/worker.go:273-279 | a count that stops began its last listing after every wake, unless none could be made |
| Recount.CallIsAnswered | internal/copier/worker.go:229-246 | a wake while the target is busy and has been listed starts a listing of what the worker goes by, or is noted for another after the one under way |
| Recount.DueIsListed | internal/copier/worker.go:273-279 | a listing that ends with a wake noted is followed by another, after every wake so far |
| Incident.ReceivingNow | internal/notify/incident.go:170-178 | the destinations that take a kind, drill titles left out where asked |
| Incident.NewcomersOf | internal/notify/incident.go:138-146 | those of a list not in another, in order |
| Incident.Incidents.Raise | internal/notify/incident.go:57-91 | the edit a raise makes of one key: held off by a claim, a new incident, a repeat, what is still owed, or newcomers; other keys untouched; what the edit means is in the rows below |
| Incident.Incidents.Clear | internal/notify/incident.go:100-126 | the edit a clear makes: deferred behind an alert being sent, a recovery to those told, or the end of one owed to nobody |
| Incident.Incidents.Deliver | internal/notify/incident.go:196-227 | the edit after a delivery: told, still owed, a deferred recovery, the key's end; nothing when the incident moved on |
| Incident.NewAlertReachesAll | internal/notify/incident.go:66-69 | an unclaimed raise of a key with no open incident sends, to and owed to exactly those some configured destination of whose name receives its kind and title, told to nobody yet |
| Incident.OpenAlertGoesOn | internal/notify/incident.go:70-87 | an unclaimed raise of an open incident: once due, at the more serious kind and to exactly who receives that; else what is still owed; else exactly the newcomers; else nothing; nobody it went to or who was told is dropped |
| Incident.ClearTellsTheTold | internal/notify/incident.go:100-136 | a clear of an open incident is deferred while its alert is being sent, else sends a recovery to exactly those told |
| Incident.ClearSendsOn | internal/notify/incident.go:110-126 | a clear of a recovery leaves one being sent, ends one owed to nobody and sends on any other |
| Incident.DeliveryEnds | internal/notify/incident.go:182-227 | in any reachable state an alert's delivery that ends: told gains exactly those reached, owed are exactly those missed or not configured now, and a clear deferred meanwhile is sent at once to exactly those told by then |
| Incident.OneDeliveryAtATime | internal/notify/incident.go:94-158 | at most one live delivery per key; a recovery goes only to destinations that received an alert of that incident, and never beside it |
| Incident.DoneOnceNobodyIsOwed | internal/notify/incident.go:112-118 | a key goes exactly when its recovery is owed to nobody, after its delivery or at the next clear |
| Incident.ClaimHonouredExactly | internal/notify/incident.go:153-158 | a raise sees a live claim exactly when its clock is not older than the claim's second |
| Incident.OvertakeWitness | internal/notify/incident.go:57-65 | a raise that read its clock before another's claim, over a second's edge, sends beside it |
| Incident.AtLeastOnce | internal/notify/incident.go:49-228 | through raises, repeats, clears, failed sends and senders that die: an open incident is for exactly those who receive its kind and title, nobody it is for is forgotten, those told did receive it, and the next raise free to send goes to everyone owed |
| Incident.RecoveryAtLeastOnce | internal/notify/incident.go:94-228 | a recovery is for those who received the alert, each of them has received it or is still owed it, and its key goes only when all of them have |
| Incident.InvStep | internal/notify/incident.go:49-228 | the invariant behind these claims is kept by every edit, send and death |
| Grouping.Find | internal/pipeline/backup.go:492-498 | ends, returns the root, and compressing the path changes no root |
| Grouping.Union | internal/pipeline/backup.go:511 | merges two trees of the forest and changes no other root |
| Grouping.JoinAll | internal/pipeline/backup.go:499-516 | two directories have one root exactly when a chain of shared names or paths links them |
| Grouping.Collect | internal/pipeline/backup.go:517-529 | groups in order of first appearance, ascending, one per root |
| Grouping.GroupServices | internal/pipeline/backup.go:479-530 | the groups partition the indexes, ascending and in order of first appearance, two together exactly when linked; one group for a parallelism of at most 1 |
| Grouping.LinkedTransitive | internal/pipeline/backup.go:473-478 | links compose: being in one group is an equivalence |
| Grouping.RunScheduled | internal/pipeline/backup.go:382-411 | never more groups at work than slots, whatever starts, finishes, is skipped or stopped |
| Grouping.LinkedNeverTogether | internal/pipeline/backup.go:376-411 | however the groups interleave, two directories backing up at once are not linked |
| Grouping.EveryServiceOnce | internal/pipeline/backup.go:382-411 | however the groups interleave no service is taken twice, and once all groups are through without a stop every service has been |
| Hooks.Run.constructor | internal/resume/resume.go:61-67 | a run begun is recorded, unless the write failed |
| Hooks.Run.Replace | internal/resume/resume.go:70-79 | the whole record is replaced, and the file with it when the write works |
| Hooks.Run.Set | internal/resume/resume.go:82-93 | one stage changes; the answer says whether it is on disk |
| Hooks.Run.Forget | internal/resume/resume.go:96-104 | one service leaves the record |
| Hooks.Run.End | internal/resume/resume.go:115-126 | the file is gone |
| Hooks.RecordRun | internal/pipeline/backup.go:296-313 | a run starts with exactly its services unfinished |
| Hooks.UnfinishedFirst | internal/pipeline/backup.go:275-292 | the unfinished services of the interrupted run, then the others |
| Hooks.FirstComeFirst | internal/pipeline/backup.go:273-292 | that is the configured list reordered, nothing dropped or doubled, with every unfinished service before every other |
| Hooks.WhichSplits | internal/pipeline/backup.go:281-291 | the two halves are together the whole list |
| Hooks.BackupService | internal/pipeline/backup.go:597-679 | one service's backup takes one of six courses and leaves it pending or done, in memory and, write by write, on disk; it runs the backup, and ends as it did, exactly when the primary is up, no stop came and neither pre hook nor filters failed, and otherwise ends skipped after a failed pre hook, failed for the filters alone, and stopped for a stop |
| Hooks.CourseLeadsBack | internal/pipeline/backup.go:597-679 | every course is a path of the step system from before the service is taken to after |
| Hooks.HooksInOrder | internal/pipeline/backup.go:627-679 | in any steps the system allows a service, a pre hook that starts was recorded just before; then it ends, the backup runs or is refused unless the hook or its filters failed, then its post hook runs if it has one, and then the stage is recorded |
| Hooks.StepMovesLeg | internal/pipeline/backup.go:597-679 | in the step system a service moves only by its own steps, and by them as the courses say, until a run's end forgets where it was |
| Hooks.RunLeads | internal/pipeline/backup.go:597-679 | over any run, however its services interleave and wherever it crashes, the steps of one service since the last crash are a path of those courses and end where the service is |
| Hooks.HooksInOrderInRuns | internal/pipeline/backup.go:627-679 | so it is in every run, of one service's steps since the last crash |
| Hooks.NeverBackedUpAfterAFailedHook | internal/pipeline/backup.go:637-659 | in every run a backup directly follows a pre hook that passed with its filters read, or there was no pre hook |
| Hooks.PostHookIsTold | internal/pipeline/backup.go:661-671 | a post hook is told how the backup went, or why there was none: a stop, a failed pre hook or its filters |
| Hooks.StagedAsItWent | internal/pipeline/backup.go:672-679 | in every run a service is recorded pending after a stop and done however else it ended |
| Hooks.NothingNewOnceStopping | internal/pipeline/backup.go:385-397 | over any steps of a run that is stopping no service is taken and no pre hook recorded |
| Hooks.CrashedRunComesFirst | internal/pipeline/backup.go:273-313 | after a crash with the record on disk, each service of the run not yet settled is unfinished in it, and comes in the next run before all that are not |
| Hooks.RecoveryLeavesUnfinished | internal/pipeline/backup.go:244-269 | recovery settles nothing: what the record calls unfinished it leaves so, in memory and on disk |
| Hooks.FinishInterrupted | internal/pipeline/backup.go:221-271 | recovery takes the record's services sorted, runs the post hooks it asks for and leaves every such service pending, the file following each write that works |
| Hooks.MarkedUntilPassed | internal/pipeline/backup.go:265-268 | wherever recovery is cut short, a service it has not passed is still marked on disk |
| Hooks.MarkedExactly | internal/pipeline/backup.go:265-268 | and it is marked exactly until recovery has passed it and a write since has worked |
| Hooks.RerunExactly | internal/pipeline/backup.go:244-269 | each configured service left between its hooks has its post hook run once, and no other has |
| Hooks.InvStep | internal/pipeline/backup.go:118-215 | the invariant behind the claims below is kept by every step of a run, its recovery, stops, failed writes and crashes |
| Hooks.RecordedWhileOwed | internal/pipeline/backup.go:627-634 | a service whose pre hook started and whose post hook is still to come, and which recovery was told of, is recorded so in memory, and on disk when the two agree |
| Hooks.PreHookOwesNobodyElse | internal/pipeline/backup.go:194-212 | a pre hook starts only when every debt recovery was told of is of the current run |
| Hooks.RepaidBeforeAnyPreHook | internal/pipeline/backup.go:217-271 | before any pre hook after a crash, whatever more crashes or writes fail, every service marked on disk has had its post hook attempted or, recovery unable to act on it, been given up |
| Hooks.AttemptedBeforeAnyPreHook | internal/pipeline/backup.go:217-271 | with writes that work and services that stay configured, whatever a crash left between its hooks has its post hook attempted before any pre hook starts again |
| Hooks.EndsWithNobodyOwed | internal/pipeline/backup.go:1664-1671 | no run ends with a service it knows of left between its hooks; its record is kept as asked, else removed |
| Hooks.AnsweredBeforeTheEnd | internal/pipeline/backup.go:659-679 | a pre hook that started is answered before a run's record goes, unless a crash since then found its mark not on disk |
| Hooks.DebtLasts | internal/resume/resume.go:60-93 | over any run a debt ends only by an attempt of the post hook or by being given up |
| Hooks.NobodyLost | internal/resume/resume.go:135-147 | with writes that work and services that stay configured, every debt is on disk in every reachable state, and none is left when a run ends |
| Hooks.CrashLosesOnlyTheUnwritten | internal/pipeline/backup.go:627-634 | after a crash the next recovery is told of a debt exactly when its mark is on disk: of every one the run knew when the file was up to date |
| Hooks.ToldExactly | internal/pipeline/backup.go:627-634 | over any steps from a service's mark to a crash inside its hooks: the next recovery is told of it exactly when the write of the mark worked, or any later write of the record for any service did, or the file marked it before |
| Hooks.UnwrittenWitness | internal/pipeline/backup.go:629-634 | a mark that could not be written and a crash inside the pre hook: the next run owes the hook and is not told |
| Exclusion.InvStep | internal/runlock/runlock.go:40-81 | the invariant behind the claims below is kept by every step of backups, restores, their children and processes that die or reuse an ID |
| Exclusion.NeverBoth | internal/pipeline/backup.go:146-162 | no reachable state has a backup past its probe and a restore into a service directory, or a child of one, past its guard |
| Exclusion.OneOfEach | internal/runlock/runlock.go:302-315 | one backup past the lock and one restore past its lock at a time |
| Exclusion.FileNamesTheRun | internal/restore/restore.go:97-101 | while a backup runs the lock file names it, alive |
| Exclusion.NoLockOutlives | internal/runlock/runlock.go:1-4 | once every backup and restore is over, however it ended, neither kernel lock is held |
| Exclusion.FinishedLeavesNoFile | internal/runlock/runlock.go:228-235 | a backup that is over other than by dying leaves no lock file and no lock, so it blocks nobody |
| Exclusion.OnlyAReusedIdBlocks | internal/runlock/runlock.go:65-71 | with none in progress a new backup gets to work exactly when the stale file's process ID is not a live process's |
| Exclusion.RestoreGetsIn | internal/restore/restore.go:97-125 | with none in progress a restore gets into a service directory exactly when the file names no live process |
| Pause.LockFile.SetStage | internal/runlock/runlock.go:103-112 | changes the first line and keeps every event |
| Pause.LockFile.Append | internal/runlock/runlock.go:119-133 | adds one event at the end |
| Pause.LockFile.Pause | internal/runlock/runlock.go:137-154 | pauses exactly when neither paused nor cleaning up, recording it and freezing every program |
| Pause.LockFile.Resume | internal/runlock/runlock.go:195-209 | resumes exactly a paused run, thawing every program |
| Pause.LockFile.Unpaused | internal/runlock/runlock.go:159-173 | starts the program exactly when the run is not paused |
| Pause.InvStep | internal/runlock/runlock.go:87-100 | the invariant behind the claims below is kept by every part of every edit, by runs that end and begin and editors that die |
| Pause.PausedExactlyWhenFrozen | internal/runlock/runlock.go:135-209 | over every run in which no step parts them, between edits the last event is a pause exactly when the running programs are frozen |
| Pause.PartedExactly | internal/restore/drill.go:687-691 | of all steps, from any reachable state in step, exactly these part file and programs: a cleanup recorded over a pause with programs running, and an editor dying while some program's state is not what the file says |
| Pause.SignalsMend | internal/runlock/runlock.go:146-149 | parted or not, the next pause or resume that signals puts them in step again |
| Pause.CleanupWitness | internal/restore/drill.go:687-691 | a reachable run whose file no longer says paused while its program is frozen |
| Pause.DeathWitness | internal/runlock/runlock.go:146-149 | a reachable run whose file says paused while its program is not frozen |
| Pause.NothingStartsPaused | internal/runlock/runlock.go:156-173 | no program starts while the run is paused |
| Pause.CleanupIsNeverFrozen | internal/runlock/runlock.go:143-145 | a freeze that lands finds a pause recorded last, and the event after a cleanup is the running that ends it |
| Pause.EventsKept | internal/runlock/runlock.go:87-112 | within a run no edit, however interleaved, drops another's event |
| Pause.PauseLands | internal/runlock/runlock.go:135-154 | left alone, the parts of a pause come to what the whole edit does |
| Pause.ResumeLands | internal/runlock/runlock.go:195-209 | left alone, the parts of a resume thaw every program and record it |
| Pause.StageAndStartLand | internal/runlock/runlock.go:103-173 | left alone, a stage keeps the events, and a program is started, running, exactly in a run that is not paused |
| Pause.PauseCrossesExactly | internal/runlock/runlock.go:137-154 | a pause in flight finds another run than it read when it records exactly when a run takes the lock anew in between, after the first released it |
| Pause.LiftedExactly | internal/runlock/runlock.go:156-209 | a run paused with no program running stays so, and starts none, at every step but a resume's end, another event or the run's end, and at none of those |
| Pause.CrossedPauseStalls | internal/runlock/runlock.go:137-173 | a pause recorded against another run than it read freezes no program, and over any steps until that run is resumed, records another event or ends, its file says paused and no program starts |
| Pause.PauseCrossesWitness | internal/runlock/runlock.go:137-154 | a reachable pause that is recorded against the next run |
| Drill.Drills.Pick | internal/restore/drill.go:456-488 | what a run takes and what it leaves pending and in rotation |
| Drill.Drills.Tried | internal/restore/drill.go:285-287 | a service leaves pending exactly for a pass, or a skip with no incident open |
| Drill.AllTaken | internal/restore/drill.go:454-488 | a named drill, and one of all services with nothing pending, takes every service, owes them all and leaves the rotation |
| Drill.FreshIsDistinct | internal/restore/drill.go:473-481 | a fresh selection has as many services as asked, none twice |
| Drill.SelectedIff | internal/restore/drill.go:476-481 | which services the k-th fresh selection takes, counted from the saved rotation |
| Drill.RotationCovers | internal/restore/drill.go:456-488 | consecutive fresh selections reach every service exactly when together they take at least as many as there are |
| Drill.SelectedIsOwed | internal/restore/drill.go:266-270 | a selection that was saved is owed |
| Drill.OwedStep | internal/restore/drill.go:262-288 | one step ends what is owed a service exactly when it passes, is skipped with no incident open, or a drill that looks at the list no longer finds it there; a drill of one other service by hand does not |
| Drill.OwedUntilExcused | internal/restore/drill.go:262-288 | a service owed stays owed on disk, whatever is killed when, until one of those |
| Drill.OwedComesFirst | internal/restore/drill.go:463-471 | the next drill takes up every service still owed, and the rotation stays |
| Drill.NeverPassedOver | internal/restore/drill.go:456-488 | the rotation moves on only after every service of the last selection was excused |
| Drill.Cursor.Choose | internal/restore/drill.go:428-452 | an alternating drill's storage: the unfinished one wherever it is listed now, else the saved place, else the first |
| Drill.Cursor.Finish | internal/restore/drill.go:331-334 | a run not stopped, with nothing failed and nothing left pending on its storage, moves on one place round the list and has no storage unfinished; any other changes nothing |
| Drill.UnfinishedStorageStays | internal/restore/drill.go:437-451 | an unfinished storage is drilled again, however the list is reordered |
| Drill.ChangedListStartsOver | internal/restore/drill.go:428-440 | a list that changed, with no unfinished storage in it, is begun at its first place |
| Drill.RoundRobin | internal/restore/drill.go:331-334 | finished runs go round the storages one by one |
| Drill.EveryStorageHasItsTurn | internal/restore/drill.go:331-334 | each storage is reached within as many finished runs as there are storages |
| Glob.ClassMatch | internal/config/glob.go:179-233 | the loop returns the length and membership that the scan, read off the pattern alone, gives; what that scan means is the next six rows |
| Glob.ClassesOfTheCLocale | internal/config/glob.go:235-255 | the named classes hang together: five of them share out ASCII but the space, and the others are made of those |
| Bracket.WrittenOnce | internal/config/glob.go:175-178 | a pattern opens with at most one bracket expression, whatever stands inside: the grammar of members, ranges, classes and collating symbols is unambiguous |
| Bracket.AgreeExactly | internal/config/glob.go:175-233 | for every pattern: where no range ends in a collating symbol the scanner finds the members the grammar has there, or none when it has none; where one does, it never finds the same members, and the two agree only when both take the [ for a literal. Among expressions that are written, the exact condition a caller can check is the next row |
| Bracket.WrittenIsScanned | internal/config/glob.go:191-231 | a bracket expression is taken member by member as written exactly when no range in it ends in a collating symbol, and then its length and class are the grammar's |
| Bracket.UnclosedAgrees | internal/config/glob.go:191-232 | a range that begins at a collating symbol, after any members without one, in a pattern with no ] beyond it: the [ is a literal to scanner and grammar alike |
| Bracket.WrittenMatches | internal/config/glob.go:147-153 | such an expression matches one byte, one that some member contains or with ! or ^ none does, and the rest of the pattern the rest of the name |
| Bracket.UnwrittenMatches | internal/config/glob.go:155-159 | a [ that opens no bracket expression is a literal |
| Bracket.ExampleWitness | internal/config/glob.go:205-212 | the pattern [][.-.]-0] holds the dot by the standard and does not match it |
| Glob.MatchAt | internal/config/glob.go:126-173 | matches exactly when the tokens the pattern reads as match the name |
| Glob.MatchName | internal/config/glob.go:119-124 | the same, with the rule for a leading dot |
| Glob.Unescape | internal/config/glob.go:106-115 | drops each backslash that quotes a byte and keeps a last one |
| Glob.MatchesIffDenotes | internal/config/glob.go:126-173 | token matching from the left agrees with the language: the name cut into pieces, one in each token's language |
| Glob.MatchIffDenotes | internal/config/glob.go:117-124 | a pattern matches a name exactly when the name is in its language and, starting with a dot, meets a literal dot |
| Glob.StarStar | internal/config/glob.go:129-132 | a run of stars is one star |
| Glob.PlainPattern | internal/config/glob.go:103-124 | a pattern without *, ? or [ matches exactly the name it spells once unescaped |
| Glob.ReadWrite | internal/config/glob.go:179-233 | any tokens, written as a pattern, read back as themselves |
| Glob.EveryLanguageHasAPattern | internal/config/glob.go:126-233 | so every such language is what some pattern matches |
| VersionOrder.DigitRun | internal/config/settings.go:167-173 | the length of the maximal run of digits at the start |
| VersionOrder.VersionLess | internal/config/settings.go:147-165 | the loop is a lexicographic order on keys, one number per maximal digit run or byte |
| VersionOrder.StrictWeakOrder | internal/config/settings.go:147-165 | irreflexive, transitive, and ties transitive and compatible: a strict weak order on all names |
| VersionOrder.SmallerFirst | internal/config/settings.go:147-165 | between names that begin with different numbers, not both too wide, the smaller comes first, between different bytes, one not a digit, the smaller, and nothing before something |
| VersionOrder.CommonStart | internal/config/settings.go:147-165 | what two names have in common at the start does not matter unless it ends inside a number |
| VersionOrder.TieExactly | internal/config/settings.go:150-157 | names whose numbers fit an int tie exactly when they differ only in leading zeros |
| VersionOrder.TieIffReadAlike | internal/config/settings.go:147-165 | for every pair: they tie exactly when they read alike, numbers past the widest int being alike |
| VersionOrder.OversizeRunsTie | internal/config/settings.go:151-152 | any two numbers at or past the widest int tie |
| VersionOrder.NinesTieWitness | internal/config/settings.go:151-152 | nineteen and twenty nines tie |

## Left out

- The walk of the directory tree that expands a pattern (internal/config/glob.go:15-101): the model has the matcher it calls for each name.
- Holdings as an object: Hold, Narrow, Release and readOne are modelled on values, step by step, because it is their single system calls that interleave; the order of those calls is the model's, retries included, but not the reuse of a Go object.
- Acquire, Hold, guard and release are likewise steps on values in `Exclusion.dfy`, for the same reason; waiting five seconds for a run that is releasing is any number of steps.
- Collating symbols and equivalence classes of more than one character, such as [.hyphen.], which bash accepts: the grammar has one character in them, as the scanner does.
- The text of registrations, records and lock files: "id:revision" keys and registration lines are pairs and rows, and a file that does not parse is not modelled.
- Drill.Drills.Pick: the saved rotation is a natural number, as every drill saves it.
- Drill.RotationCovers: names are taken to be distinct; two service directories of one name would take two places in the list.
- Hooks.InvStep: a run's record that is there is taken to be readable, and its removal at the end to work; recovery gives a service up (Skip) when it is no longer configured or its hook cannot be looked up.
- Making a service's hook state directory, which may fail before its pre hook and skips the service.
- Recount.NoCallLost: a listing that fails ends the count with a wake still noted, as the code says in its warning.
- The words of messages, their formatting of times, and what is logged.
- Sending itself: a destination takes a notice or misses it. Retries within one send are part of it.
- Fallbacks that go on when a lock or state file cannot be opened (withIncidents without its lock, launch on a lock error): not modelled.
- The resume of a paused backup by runctl, which signals and appends outside one edit of the lock file (internal/runctl/runctl.go:118-121): pause and resume are modelled as drills use them, for programs started through the lock.
- The copy lock, contexts and timeouts around a pass, check-ins, metrics and the saved state file.
- Daylight saving in copy windows: a window opens and closes at any moment.
- Repeating an incident raised by a drill for a service not tried this run, drill results and summaries.
- Upkeep's schedule (due, slack, nextWake), download and upload rates, the recovery kit, and everything that runs other programs or parses their output.
