# Proofs for the gaveld judicial pipeline and the daemons around it

The models cover four parts of the fleet.

**The judicial pipeline of gaveld** (`Court*`, `Pending`, `Gaveld`, `Enforcement`, `Effects`, `TierRules`). Several threads
share a database, a verdict ring and a table of requests waiting for the user. `Court` is a transition system whose
steps are single database or table operations, so a crash can fall between any two of them: `resolve_entry` is four
steps (clear the slot, delete the row, log the verdict, enforce), `verdict_process` up to five. A state holds the
persistent tables, what is in memory, where the two threads stand, and a log of what has happened (which nothing
reads). The claims are about every run. `Gaveld` holds the daemon's own methods on a database object, a ring, the
pending table and the command runner; each is proved to take exactly the steps of the transition system, and the
commands it issued are exactly those of the enforcements in the log. `GaveldCalls` says what a whole call comes to. `ShellWords`, `CommandLines` and `Effects` say
what a shell makes of those commands.

**Scoring and decay** (`Scoring`, `Score*`, `SignalLog`, `Database`). `ScoreThreads` interleaves any number of scorer
calls and decay ticks between any two database calls; `ScoreRaces` says exactly what becomes of the recidivism counts,
and that no race makes one too high; `ScoreWindow` says exactly how late another call may start without its trim
spoiling a window answer. `ScoreHistory` runs whole calls under a clock that never
goes back and compares the daemon with one that never deletes a signal; `ScoreMeaning` says what a call adds from the history of
arrivals alone; `ScoreCalls` shows that these runs are runs of the interleaved machine.

**Framing many results into one text** (`Batch`, `Probe`, on `Text`): `bexec_batch` and shredderd's probe sections.
`BatchLine` and `ProbeLine` go from the line that is sent to the text that comes back, over what a shell prints for
commands separated by semicolons (`ShellLines`).

**The sinks and small buffers** (`Wire`, `Sewer`, `ShellQuote`, `JsonEscape`, `Baseline`, `Rings`,
`SnapshotWindow`): the APRIL line, splinterd's store, the two escapers, ratkingd's baselines, the rings.

## Assumptions

- A double is a real; no NaN or infinity. Database statements succeed and are atomic. Case ids are distinct.
- Texts hold no NUL. Names fit the fixed fields they are copied into.
- The sovereignty list does not change during a run.
- What stands behind a verdict, a request or an enforcement (a containment before a JAILED one, a permitted tier, a fresh
  signal, an approval, a log entry) is claimed for every run. Claims about where a case is, about latest replies and
  about enforcing once are about runs in which no row read back at start-up gets a second slot in the pending table
  (`Legal`). `ReadIsSafeExactly` shows that this is exactly what at-most-once enforcement needs: otherwise some
  continuation enforces a case twice. A schedule on which no request is stored before the rows are read back (`Prompt`)
  is always legal. Nothing in gaveld enforces that order: the consent thread reads the rows in its own time, while the
  scorer thread and the socket (`src/gaveld/gaveld.c:245-251`) do not wait for it before they bring new cases.
  `EnforcedTwice` is a run where that goes wrong.
- `RecidivismConserved` is about whole calls and decay ticks. Over interleavings the counts are never too high
  (`RacesOnlyForget`), `CountExactly` gives their error as a sum over the steps that write back a record loaded earlier,
  and `SplitCallForgetsAJail` is a run that loses a jail.
- A window answer is that of a log nobody prunes as long as no call that started more than a second later has trimmed.
  `AnswersFaithfulExactly` shows that this bound is sharp for every source and all times. The freshness floor needs no
  such condition.
- gaveld takes a source as it comes from the socket (`src/gaveld/gaveld.c:147-160`) and hands it to a shell unquoted. Only
  a plain word, with no blank, quote, operator or expansion in it, is read as the one source the command is about. The
  shell is a POSIX shell that also expands braces, as the one of Android behind rish and adb does; a brace counts as an
  expansion whatever stands around it. `BlankNamesADaemon` and `OneSourceTwoCommands` are sources that are not. Claims about which source is acted on, as
  opposed to which command is issued, are for plain words.
- The commands of a batch or a probe are texts that may be followed by a semicolon (`Whole`): quotes closed, not empty, no
  semicolon at the end, and none of the constructs the reading of lines leaves out (background jobs, groups,
  substitutions, compound commands, comments). No command ends the shell it runs in. `SemicolonSpoilsBatch` is what a
  trailing semicolon does.
- shredderd searches for a tag through a buffer of 64 characters. Claims about its sections are for tags under 60
  characters; `TagFitsExactly` shows that any longer one can be misread.
- Claims about decay need a table that `db_threat_all` returns whole (at most 512 sources); `ScoreDaemon.Tick` says
  what happens to a longer one.

## Where the code and its documentation differ

- `src/daemon/backend_exec.h:49-52` says that all results are NULL when `bexec_batch` fails. When the batch is refused
  (too many items, too long) the results are left as they were; they are NULL only when the execution failed.
- `src/gaveld/verdict.c:48-52` says that the JAILED floor also checks the criminal record. It only counts verdicts.

## Model

| member | source | states |
|---|---|---|
| CourtTheorems.InvKept | src/gaveld/verdict.c:117-218 | every legal step of any thread, crashes and restarts included, keeps the invariant that links rings, pending table, tables, threads and history |
| CourtTheorems.JailedIsEarned | src/gaveld/verdict.c:53-67 | in every reachable state, whatever the schedule, each JAILED verdict, and each JAILED request stored or in memory, has an earlier HOUSE_ARREST or QUARANTINED verdict for its source which the user approved, logged in the 24 hours before it was decided; in a legal run every answered verdict carries the latest reply to its case |
| CourtTheorems.EnforcedOnceAndJustified | src/gaveld/consent.c:132-157 | over every run no case is enforced twice, and each enforcement is a WARNED case or one whose latest reply was an approval, was logged first, and was judged on a signal less than 60 seconds old |
| CourtTheorems.NothingEnforcedUnapproved | src/gaveld/consent.c:132-157 | in every run, also one that enforces a case twice, each enforcement is WARNED or was approved by the user, has its log entry, and was judged on a signal less than 60 seconds old |
| CourtTheorems.TiersAreImmune | src/gaveld/verdict.c:129-152 | whatever the schedule, no own daemon is ever enforced against or asked about, and no sovereignty source is ever given HOUSE_ARREST or JAILED in a verdict, a row, the pending table or an enforcement |
| CourtTheorems.NoRequestLost | src/gaveld/consent.c:88-157 | every case ever put to the user is still stored or was answered; the pending table holds stored requests only, each in one slot |
| CourtTheorems.OnlyAnAnswerEndsARequest | src/gaveld/consent.c:139-140 | a row disappears only in the deleting step of resolve_entry, for a request whose latest reply is the answer being carried out |
| CourtTheorems.OnlyAReplyClearsASlot | src/gaveld/consent.c:196-244 | a slot is cleared only after a reply or by a crash, and the row is still there afterwards: no timeout or hard limit ends a request |
| CourtTheorems.FreshnessFloorExact | src/gaveld/verdict.c:73-76 | in every run, however late scorers note and prune, the freshness floor answers from the pruned table as from a log of every signal ever noted |
| CourtHolders.ReadRowsHeld | src/gaveld/consent.c:165-180 | reading the rows back leaves every request with a single holder exactly when none of the rows read gets a second slot |
| CourtDoubles.ReadIsSafeExactly | src/gaveld/consent.c:165-180 | after any legal run, every legal continuation of the start-up read enforces each case at most once exactly when no row it reads gets a second slot |
| CourtDoubles.ClashEnforcesTwice | src/gaveld/consent.c:132-180 | from any reachable state in which a row read back gets a second slot, there is a continuation that enforces its case twice |
| CourtSchedules.PromptRunsAreLegal | src/gaveld/consent.c:165-182 | a run that stores no request before the rows are read back is legal, whatever else happens in it |
| CourtSchedules.EnforcedTwice | src/gaveld/gaveld.c:239-251 | without that order there is a run in which one approved case is enforced twice |
| CourtReload.ReloadFills | src/gaveld/consent.c:88-114 | putting up to 32 rows back into an empty table gives each its own slot, unanswered, in order, and leaves the rest of the table blank |
| CourtReload.ReloadAmidOthers | src/gaveld/consent.c:165-182 | after a restart, whatever the other threads do in between, the rows read go back in order, each stays in the table unless the table is full, and polling starts with the last |
| CourtReload.ReloadsFill | src/gaveld/consent.c:165-182 | undisturbed, reloading leaves the table with exactly the rows read put into it and changes nothing else |
| CourtAccounts.EveryCaseAccounted | src/gaveld/cases.c:93-146 | conservation: the number of cases assembled is the number dismissed, dropped, suspended, in the ring, stored, closed by their one verdict row, in the hands of a thread, or lost in a crash; none is lost without a crash |
| CourtAccounts.OnlyACrashLoses | src/gaveld/consent.c:132-157 | a case is lost only in a crash, and only from the ring, the verdict thread or between the deleted row and the logged verdict |
| CourtAccounts.NeverUnexpected | src/gaveld/verdict.c:166-175 | the defensive branch for an unexpected state is never taken, whatever the schedule |
| CourtLabels.AssembleRoutes | src/gaveld/cases.c:93-146 | a case under 40 is dismissed at once, any other goes to the end of the ring, whose oldest is dropped exactly when 64 are queued |
| CourtLabels.JudgedExactly | src/gaveld/verdict.c:117-141 | lock, own daemon, and no signal in the last minute (of all ever noted) lead to suspension, IA_REFERRAL and DISMISSED_STALE in this order; otherwise the case is decided and nothing is logged yet |
| CourtLabels.LabelsTell | src/gaveld/verdict.c:80-218 | in every run IA_REFERRAL stands for exactly the own daemons, consent_required for exactly the containments and CONSENT_DENIED, consent_granted for exactly the containments and WARNED, and WARNED for cases routed as such |
| CourtLabels.VerdictsAppend | src/gaveld/verdict.c:80-113 | the verdict log grows by one entry at a time, under the current time, and never loses one, not even in a crash |
| CourtLabels.GrantedIsEnforced | src/gaveld/consent.c:143-149 | in a run without a crash every granted verdict has been enforced with its source and label or is the one a thread is about to enforce |
| CourtRecords.NoRecordMixedUp | src/gaveld/cases.c:93-146 | in every run each verdict, request and enforcement carries the source and score of its own case and a verdict no harsher than that score calls for, and each request the timeout of its verdict |
| CourtRecords.QueuedAsDecided | src/gaveld/verdict.c:186-205 | a stored request is queued under the time it was decided, whatever becomes of its slot |
| CourtCoverage.NoRequestForgotten | src/gaveld/consent.c:88-182 | in a legal run that never stores more than 32 requests each stored request is in the table, or being put in or taken out, once the rows have been read back |
| CourtSound.FinalIsAskable | src/gaveld/verdict.c:36-67 | cap and floor leave WARNED alone, turn every other routed state into one the source's tier permits, and yield JAILED only with an approved containment in the last day |
| CourtSound.FinalExactly | src/gaveld/verdict.c:36-67 | what cap and floor decide, as an if and only if for each state: JAILED is kept exactly for a JAILED case off the sovereignty list with an approved containment of either kind in the last 24 hours, and becomes HOUSE_ARREST without one; a listed source gets QUARANTINED |
| CourtSound.SoundKept | src/gaveld/verdict.c:36-152 | every step of any schedule keeps, behind each stored, waiting or held request and each verdict, the fresh signal, the permitted tier and (for JAILED) the containment it was decided on; no later case or restart overwrites them |
| CourtApprovals.ApprovalsKept | src/gaveld/consent.c:118-157 | every step of any schedule keeps an approval by the user behind each approved slot, thread and verdict |
| CourtPlaces.PlacesKept | src/gaveld/cases.c:21-50 | every step keeps the recorded place of each case in agreement with ring, threads, rows and verdict log, both ways |
| CourtAnswers.AnswersKept | src/gaveld/consent.c:118-157 | every step keeps each logged answer equal to the latest reply that reached its case |
| CourtAnswers.EnforcementKept | src/gaveld/consent.c:143-149 | every step keeps enforcements distinct, logged beforehand and justified |
| Pending.EnqueueKeepsOneEach | src/gaveld/consent.c:88-114 | enqueueing keeps one slot per case exactly when the case has none yet or the table is full |
| Pending.PendingTable.Enqueue | src/gaveld/consent.c:88-114 | the request takes the first free slot, unanswered and not yet notified; a full table is unchanged |
| Pending.PendingTable.Reply | src/gaveld/consent.c:118-128 | the slot found for the case gets the answer; an unknown case changes nothing |
| Pending.PendingTable.Remind | src/gaveld/consent.c:202-238 | the unanswered branch of the poll loop as one update of the slot |
| Pending.KeptExactly | src/gaveld/consent.c:202-238 | a poll starts the waiting anew exactly after more than 24 hours for JAILED, 30 minutes for HOUSE_ARREST and 10 for QUARANTINED, and notifies exactly then, the first time, and every 10 minutes |
| Gaveld.Daemon.VerdictProcess | src/gaveld/verdict.c:117-218 | from the lock to the enforcement or the pending table, the method takes the judging, deciding, storing, entering or enforcing steps of the transition system, and no others |
| GaveldCalls.ProcessedExactly | src/gaveld/verdict.c:117-218 | what a whole call comes to, branch by branch, in the tables, the log and the enforcements: suspended, referred, dismissed as stale, WARNED logged and enforced, or the decided request stored and entered; the thread is free again |
| Gaveld.Daemon.ResolveEntry | src/gaveld/consent.c:132-157 | an answered slot goes through release, row removal, logging and (if approved) enforcement, in that order |
| Gaveld.Daemon.PollOnce | src/gaveld/consent.c:203-244 | one pass handles the 32 slots in order, each resolved or reminded |
| GaveldCalls.PassExactly | src/gaveld/consent.c:203-244 | one pass clears exactly the answered slots and deletes their rows, logs them in slot order, under the verdict asked for or as CONSENT_DENIED, enforces the approved ones, and reminds the others |
| Gaveld.Daemon.Reload | src/gaveld/consent.c:165-182 | start-up reads the oldest rows and enters them one after the other, as the transition system does |
| Gaveld.Daemon.CasesAssemble | src/gaveld/cases.c:93-146 | a CLEAN or WATCHED case is dismissed, any other is pushed on the ring, which drops its oldest when full |
| Gaveld.Daemon.Dequeue | src/gaveld/cases.c:35-50 | the oldest queued case moves to the verdict thread |
| Gaveld.Daemon.ConsentReply | src/gaveld/consent.c:118-128 | a reply is recorded exactly when it reaches a waiting request |
| Gaveld.Daemon.VerdictEmit | src/gaveld/verdict.c:80-113 | one verdict row is appended and the case is finished |
| Gaveld.ProcessedKeeps | src/gaveld/verdict.c:117-218 | a whole verdict_process call keeps the pipeline's invariant |
| Gaveld.RoundsKeep | src/gaveld/consent.c:203-244 | a whole pass over the pending table keeps the pipeline's invariant |
| Gaveld.ReloadsKeep | src/gaveld/consent.c:165-182 | the start-up reload keeps the pipeline's invariant if none of the rows is in memory yet |
| Effects.OnlyApprovedJailsDisable | src/gaveld/enforce.c:39-118 | over every run, whatever its schedule, no command is issued about an own daemon; what the shell runs is one of the intended commands with the source as last word exactly when the source is a plain word, and then a package is disabled only for a source in no protected tier with an approved JAILED verdict that an approved containment preceded |
| Effects.LinesAreIssued | src/gaveld/enforce.c:39-61 | the lines the daemon hands to the shell are these commands, in order, each wrapped for the backend |
| Effects.RunsAsMeant | src/gaveld/enforce.c:39-61 | for every verdict and backend the line, read by the shell and by the one behind it, is the one intended command exactly when the source is a plain word |
| Effects.DisablesExactly | src/gaveld/enforce.c:97-110 | for a plain source the shell is made to disable the package exactly when the verdict is JAILED and the source is in no protected tier |
| Effects.BlankNamesADaemon | src/gaveld/enforce.c:86-88 | a trailing blank: the tier test does not know the name, the shell reads an own daemon's |
| Effects.SemicolonMakesTwo | src/gaveld/enforce.c:86-88 | a source made of a word, a semicolon and another command is read as two commands |
| Effects.OneSourceTwoCommands | src/gaveld/enforce.c:86-88 | one such source is in no tier, is WARNED by a single signal of weight 45, and names another's package to disable |
| CommandLines.HandedExactly | src/gaveld/enforce.c:43-47 | a command in single quotes reaches the other shell as intended exactly when its source is a plain word |
| Enforcement.CommandsFit | src/gaveld/enforce.c:39-61 | for every source the daemon can store, neither command buffer cuts the command |
| Enforcement.Enforcer.Init | src/gaveld/enforce.c:24-35 | the first backend whose probe answers is used, direct execution otherwise |
| Enforcement.Enforcer.Execute | src/gaveld/enforce.c:78-118 | the verdict's commands go out in order, wrapped for the backend; any other verdict issues nothing and returns -1 |
| TierRules.SovereignExactly | src/gaveld/tier.c:56-76 | a list written by its rules protects exactly the packages it names, whatever comments, notes and blanks it holds |
| TierRules.LastNewlineOptional | src/gaveld/tier.c:60-70 | such a list protects the same packages when its last line has no newline |
| TierRules.LongLineIsCut | src/gaveld/tier.c:60-61 | the rules need lines under 512 characters: the rest of a longer line is read as a line of its own |
| TierRules.IsSovereign | src/gaveld/tier.c:56-76 | the reading loop with its in-place trim answers membership in the parsed list |
| TierRules.OwnWherever | src/gaveld/tier.c:44-54 | a daemon is recognised by its base name in any directory, and nothing else is |
| TierRules.DampedIffProtected | src/gaveld/tier.c:87-105 | the score of a source is damped exactly when pm disable-user spares it |
| ScoreThreads.EveryRowIsGood | src/gaveld/scorer.c:91-139 | under every interleaving of scorer calls and decay ticks each stored row has a score in [0,100] and the label of its band, and each call's delta lies between 0 and its addition |
| ScoreRaces.CountExactly | src/gaveld/scorer.c:91-139 | over every interleaving prior_jails is off its meaning by exactly the sum of what the records written back were behind the rows they replaced, and prior_quarantines by that sum less the number of leaps from below 50 to 70 or more; each is exact exactly when its sum comes to nothing |
| ScoreRaces.RacesOnlyForget | src/gaveld/scorer.c:91-139 | under every interleaving prior_jails is at most the decays through 80 plus one while the score is up there, and prior_quarantines the same for 50: a race can lose a count but never add one |
| ScoreRaces.CountSurvivesStep | src/gaveld/scorer.c:116-139 | a count survives a step exactly when the step writes nothing back for the source or a record whose net count is still the row's |
| ScoreRaces.AlwaysCountedExactly | src/gaveld/decay.c:58-84 | the count is exact all along a run exactly when no stale record is ever written back |
| ScoreRaces.SplitCallForgetsAJail | src/gaveld/scorer.c:116-139 | an interleaving between load and store that breaks the count |
| ScoreWindow.LooksFaithful | src/gaveld/scorer.c:96-103 | over every interleaving a scorer's distinct signals and a decay tick's activity test are those of the unpruned log while no call that started more than a second later has trimmed |
| ScoreWindow.AnswersFaithfulExactly | src/gaveld/scorer.c:96-103 | for every source and any two start times, a call's distinct signals and a decay tick's activity test are those of the unpruned log in every run exactly when the call that trimmed last started at most a second later |
| ScoreWindow.LateTrimHidesASignal | src/gaveld/scorer.c:96-103 | for every source and all times more than a second apart, an interleaving in which the later call's trim hides a signal the earlier call should see |
| ScoreWindow.LateTrimHidesActivity | src/gaveld/decay.c:58-61 | the same for a decay tick: the trim of a call for another source makes an active source look quiet |
| ScoreCalls.HistoryIsASchedule | src/gaveld/scorer.c:79-168 | every history of whole calls and ticks is a run of the interleaved machine with the same rows, window and clock |
| ScoreHistory.PruningInvisible | src/gaveld/db.c:246-312 | after any run the rows, and every distinct-signal and active-signal answer about the last two minutes, are those of a daemon that never deletes a signal |
| ScoreHistory.RecidivismConserved | src/gaveld/scorer.c:116-139 | prior_jails equals the decays that took the source from 80 or more to below 80 plus one while it is at 80 or more; prior_quarantines exceeds those through 50 by at most one |
| ScoreHistory.QuietSourceDecays | src/gaveld/decay.c:47-85 | in any run a source without an active signal from which nothing more arrives has the score decayed once for each tick that reaches it, with its label, whatever else arrives, waits or is locked out; its rank never rises |
| ScoreHistory.QuietSourceClears | src/gaveld/decay.c:58-85 | forty-two ticks that reach such a source leave 0 and CLEAN |
| Scoring.TicksArePowers | src/gaveld/decay.c:65-66 | k ticks multiply by 0.88 to the k, with 0 in place of anything below a half |
| Scoring.FortyTwoTicksClean | src/gaveld/config.h:40 | forty-two ticks clear any score, forty-one do not clear 100 |
| Scoring.AdditionOrdered | src/gaveld/scorer.c:46-75 | every addition is positive, and more signals or a worse record never make it smaller |
| Scoring.RecidivismIsWorst | src/gaveld/scorer.c:28-33 | the recidivism factor is that of the worst standing the record has: 2.00 for two prior jails, 1.60 for one, 1.30 for a quarantine, 1.00 for none |
| Scoring.AdditionIs | src/gaveld/scorer.c:86-116 | an addition is the weight (10 when neither caller nor table gives one) times the strongest pattern, 1.2 from three different names on, the worst standing, and 0.40, 0.15, 0.60 or 1.00 for own daemons, sovereignty sources, system packages and others, in this order |
| Scoring.ScoredIs | src/gaveld/scorer.c:111-133 | the score rises by the addition and stops at 100; a prior count rises exactly when its band is entered |
| Labels.BandExactly | src/gaveld/scorer.c:14-21 | each score has exactly the state whose band it lies in |
| ScoreMeaning.ArrivalScores | src/gaveld/scorer.c:79-168 | after any history, what an arrival does to its source's row is told by the names that arrived in the last two minutes, itself included, by the record and by the tier, and no other row changes |
| ScoreMeaning.RepeatOffender | src/gaveld/scorer.c:28-33 | a source is a repeat offender exactly when the decays that took it below 80, plus one while it is up there, are at least two |
| ScoreMeaning.TickLowers | src/gaveld/decay.c:47-85 | a tick multiplies by 0.88 (0 under a half) exactly the scanned rows from whose source nothing arrived for two minutes, and under the lock none |
| ScoreDaemon.Process | src/gaveld/scorer.c:79-168 | the call, statement by statement on the database, leaves the rows and the window of one whole scorer step and reports the change |
| ScoreDaemon.Tick | src/gaveld/decay.c:38-92 | the loop decays the first 512 rows of the scan that have no active signal and leaves every other row alone; under the lock it does nothing |
| ScoreDaemon.WholeTableHandled | src/gaveld/decay.c:51-53 | a table of at most 512 sources is handled whole |
| Scoring.CovarianceIsStrongest | src/gaveld/scorer.c:50-75 | the multiplier is the largest among the patterns the signals show |
| ScoreDaemon.CovarianceOf | src/gaveld/scorer.c:46-75 | the chain of membership scans computes that multiplier and the stack bonus |
| SignalLog.PruneInvisibleDistinct | src/gaveld/db.c:265-295 | deleting signals never changes a distinct-signal answer about a later time |
| SignalLog.DistinctExactly | src/gaveld/db.c:265-295 | no name is listed twice, as many are listed as signals after the time bear, up to sixteen, and all of them if there are no more |
| SignalLog.PruneInvisibleActive | src/gaveld/db.c:297-312 | deleting signals never changes an active-signal answer about a later time |
| SignalLog.PruneInvisibleExactly | src/gaveld/db.c:246-312 | pruning leaves every table's answer to either question as it was exactly when the cutoff is at most a second after the time asked about |
| Database.FirstAreOldest | src/gaveld/db.c:546-574 | a scan in queue order cut at 32 rows holds the oldest requests and leaves out none older |
| Database.Db.ConsentPending | src/gaveld/db.c:546-574 | the copying loop returns the oldest requests, at most 32 |
| Batch.BexecBatch | src/daemon/backend_exec.c:604-675 | a refused batch changes nothing, a failed execution clears every result, and otherwise each result is its section of the raw text and the commands are untouched |
| Batch.BatchReadsBack | src/daemon/backend_exec.c:641-671 | if every output but the last is line-terminated and silent about the marker after it, each result is its command's output with the line ends around it removed |
| BatchLine.BatchAnswers | src/daemon/backend_exec.c:612-671 | the line that is sent, run by a shell, prints the frame of what its commands print on their own, so each result is its command's output, and what had come of it if the text breaks off |
| BatchLine.SemicolonSpoilsBatch | src/daemon/backend_exec.c:615-617 | a command that ends in a semicolon of its own makes the line unreadable |
| Batch.UnbatchCut | src/daemon/backend_exec.c:641-671 | if the text breaks off anywhere, an item whose next marker came is still exact, one whose own marker did not come is missing, and the one in between holds what had come |
| Batch.MarkersAreFamily | src/daemon/backend_exec.c:643-644 | the markers are visible one-line texts that never get shorter, which is all the cutting relies on |
| Batch.MarkersApart | src/daemon/backend_exec.c:643-644 | markers of different items differ, and none occurs inside another |
| Batch.MarkersMayOverlap | src/daemon/backend_exec.c:643-644 | two markers can share their underscores in a text, so an output must be ended by a newline |
| Probe.SectionRecovered | src/daemon/shredderd.c:161-193 | every section of a report with distinct tags under 60 characters and plain outputs, empty ones included, is read back as its command's output |
| Probe.TagFitsExactly | src/daemon/shredderd.c:161-166 | a tag's section is read back whatever its command prints exactly when the tag has fewer than 60 characters, because the marker is cut at 63 |
| Probe.ReportAppend | src/daemon/shredderd.c:203-230 | chunks appended one after the other are one report |
| Probe.ChunksReadBack | src/daemon/shredderd.c:161-230 | probes spread over any number of chunks that fit the buffer are each read back as their command's output, whichever chunk they were in |
| ProbeLine.ChunkPrints | src/daemon/shredderd.c:236-269 | a chunk of announced commands, run by a shell, prints the report of what its probes print on their own |
| ProbeLine.ProbesComeBack | src/daemon/shredderd.c:161-276 | the answers of the chunks, collected in the buffer, give every probe its own command's output back |
| Probe.ProbeLayer.LoadProbeData | src/daemon/shredderd.c:232-276 | the probes count as loaded exactly when all four chunks were answered, and the buffer then holds the four answers as far as there is room |
| Probe.ProbeLayer.AppendChunk | src/daemon/shredderd.c:203-230 | the answer is appended as far as the buffer has room; a failed chunk changes nothing |
| Probe.ProbeLayer.ReadSection | src/daemon/shredderd.c:161-193 | the scratch buffer holds the section, and the collected text is unchanged, so sections can be read in any order and again |
| Probe.ProbeLayer.Copy | src/daemon/shredderd.c:195-201 | the caller gets the leading bufsize - 1 characters of the section, NUL-terminated and in bounds |
| Wire.RoundTripExactly | src/core/splinterd.c:134-162 | reading and parsing the line of an event gives the event back, payload cut to 1023 characters and CR/LF blanked, exactly when both names are wire names and the payload is not empty |
| Wire.DeliveredExactly | src/daemon/splinter_protocol.h:47-61 | an emitted event arrives exactly when both names are wire names, the payload is not empty and the three together are under 2039 characters; what does not fit the sender's buffer is not sent |
| Wire.ParsedExactly | src/core/splinterd.c:134-162 | a line is accepted, and as which event, exactly when it is spelled as APRIL, two names and a payload with bars between; any other prefix is refused |
| Wire.FirstLineExactly | src/core/splinterd.c:177-195 | what is read is the stream up to the first newline, its end, or a full buffer |
| Wire.ParsedShape | src/core/splinterd.c:134-162 | whatever the parser accepts has well-formed names and a payload within bounds |
| Wire.SplinterEmit | src/daemon/splinter_protocol.h:29-61 | the clean-up loop and the printing give the event's line, or nothing when it does not fit |
| Wire.HandleConnection | src/core/splinterd.c:177-206 | the reader loop and the tokeniser record what the specification receives |
| Sewer.RepeatsAddUp | src/core/sewer_db.c:170-232 | for each source the repeat counts over all event types add up to total_emitted, the number of its emissions |
| Sewer.RepeatsCountPairs | src/core/sewer_db.c:170-200 | each row's repeat count is the number of emissions of its pair |
| Sewer.RowsWereFirstSeen | src/core/sewer_db.c:147-233 | the pair is a key, and the first_seen transitions ever made are as many as the rows |
| Sewer.ChangesPartitioned | src/core/sewer_db.c:96-145 | transitions ever made are 500 for each rollup plus those stored, which stay under 500; the stored ones are the latest and each rollup sums up its own 500 under the time of the last |
| Sewer.ChangeExactly | src/core/sewer_db.c:147-180 | from the history alone: an emission is a first_seen exactly when no earlier one has its pair, a resumed exactly when the latest earlier one is at least 1800 seconds back, and no change otherwise |
| Sewer.RowsTell | src/core/sewer_db.c:182-200 | a pair has a row exactly when it was emitted, with the times of its first and latest emission |
| Sewer.SewerDb.RecordEmit | src/core/sewer_db.c:147-233 | the statements of one emission give the recorded store |
| ShellQuote.NeverBroken | src/core/sewer_db.c:61-74 | whatever the input, the buffer holds one closed shell word that reads as a prefix of it, in bounds, as all of it exactly when there was room, and cut only when there was none |
| ShellQuote.ShellQuote | src/core/sewer_db.c:61-74 | the filling loop leaves that word, NUL-terminated, for any buffer of at least five bytes |
| JsonEscape.NeverBroken | src/daemon/ratkingd.c:150-175 | whatever the input, the buffer holds JSON string content that decodes to a prefix of the input minus the control bytes other than LF, CR and TAB, in bounds, complete exactly when it fits, and cut only where the next byte would not fit |
| JsonEscape.Utf8Exactly | src/daemon/ratkingd.c:150-175 | for valid UTF-8 the content is valid UTF-8 exactly when the cut falls between characters |
| JsonEscape.CutCharacter | src/daemon/ratkingd.c:150-175 | a buffer that cuts a two-byte character leaves content that is not UTF-8 |
| JsonEscape.JsonEscape | src/daemon/ratkingd.c:150-175 | the filling loop leaves that content, NUL-terminated; a buffer of size 0 is not touched |
| Baseline.LearnFaithful | src/daemon/ratkingd.c:214-251 | after any samples each of the first 128 names has its own record, with the exact mean and population variance of all its samples and their maximum |
| Baseline.StepDescribes | src/daemon/ratkingd.c:221-251 | one incremental step takes the batch statistics of the samples so far to those of one more |
| Baseline.DeviationNonNegative | src/daemon/ratkingd.c:221-251 | the argument of the square root is never negative |
| Baseline.Baselines.UpdateBaseline | src/daemon/ratkingd.c:221-251 | the record in the table is updated in place as one step of that history; a full table ignores a new name |
| Rings.RunOrderly | src/gaveld/ingest.c:27-58 | for a ring of any size, 256 or 64 in gaveld, and any run: the contents are the newest pushes, dequeues come out in order, and pushed = dequeued + dropped + depth |
| Rings.Ring.Push | src/gaveld/ingest.c:27-41 | head, tail and count move so that the contents gain the entry and lose the oldest when full |
| Rings.Ring.Depth | src/gaveld/ingest.c:60-65 | the count is the number of queued entries |
| SnapshotWindow.Window.Visits | src/daemon/overlordd.c:285-295 | the index the trend loop computes visits the last min(n, 10) snapshots, oldest first |
| SnapshotWindow.Window.TrendFalling | src/daemon/overlordd.c:285-302 | the loop answers whether at least the threshold of known drops occur, and never with fewer than three snapshots |
| SnapshotWindow.FallsCounts | src/daemon/overlordd.c:285-302 | what the loop counts are the snapshots whose value lies below a known value just before |

## Left out

- Sockets, FIFOs, notifications, process start and stop, PID files, logging, waiting on condition variables: a blocked
  dequeue is a step that is not enabled yet.
- `run_via_pty` and the other backends of `bexec`: execution is any function from a command line to an answer.
- The weight and MITRE tables: a weight is a parameter, a MITRE entry is not stored.
- `criminal_record`, the `cases` table, `scoring_log` and the audit thread: written, never read by the pipeline.
- SQLite itself, SQL text and indexes: statements are updates and questions on maps and sequences; the order of an
  unordered SELECT is a parameter. When a source has more than 16 distinct signals the first sixteen stand for the
  ones SQLite picks.
- Rounding: scores, means and deviations are reals, and the stored deviation is its square.
- Time strings and time zones: times are seconds.
- The text of a rollup summary beyond what it counts; a rollup is one step.
- `JsonEscape.EscapedDecodes`: the decoder does not read `\u` escapes, which the escaper never writes.
- `Pending.PollOnlyReminds`: one pass uses one time for all slots, as the code does; it does not model the time that
  passes while a slot is resolved.
- overlordd's detectors, the sensors' heuristics, the hex decoder of krangd and the sorts: single branches or textbook
  loops.
- What expansions, pipes and several commands in one line would do: the shell model stops at the first of them.
- tigerclawd's copy of the section reader, which lacks the test for an empty section.
