# CodeLima: verified models of its hard parts

CodeLima runs development nodes in virtual machines behind one long-lived daemon. This
project models, in Dafny, the parts of that daemon in which several functions must agree
over a whole run, and proves what they keep. `dafny verify dfyconfig.toml` checks it all.

Time is an integer clock, every step is taken atomically under the lock the code names,
and anything outside the daemon (a disk write, a process, a guest, the emulator) is a
parameter or a nondeterministic outcome. Code that changes fields becomes a class or a
method with loops, proved against functions on values; the theorems are about those
functions and about every run made of them.

## What is modelled

**Renderer journal** (`renderer_*.dfy`). A terminal's output and geometry are journaled
with increasing IDs. Resizes coalesce into spans, a byte budget trims from the front, and
a reset drops everything. The emulator is abstract: output draws any function of the whole
terminal, a resize only overwrites geometry, and a zero pixel size leaves pixels alone. The
full uncoalesced history is the reference. Against it stand the journal itself and what it
retains, the tail replayed onto a checkpoint, the cursor reader, the recovery bundle and what
accepting it is worth, the worker's initialization, the worker's reorder buffer, and a worker
restarted in the middle of a run.

**Daemon handoff** (`handoff_*.dfy`). One daemon replaces another live: quiesce, spawn,
manifest, descriptors, ready, commit, committed, or kill, reap and restore, with an error
or a death possible at every step. `handoff_protocol.dfy` has the two processes,
`handoff_safety.dfy` what each step keeps, `handoff_guarantees.dfy`, `handoff_readers.dfy` and
`handoff_progress.dfy` the theorems over runs and `handoff_witnesses.dfy` the runs that show what
is not guaranteed.

**Environment dependencies** (`shell_syntax.dfy`, `shell_execution.dfy`, `shell_locality.dfy`,
`command_meaning.dfy`, `dependency_*.dfy`). A must-analysis over shell syntax that warns when
curl is used before it is installed. It is proved sound, and exact, against an execution semantics in which every free
outcome is decided by an oracle (sections 2.8.1, 2.9.1 to 2.9.4 and 2.14 of the POSIX.1-2017
Shell Command Language). What a command does is said of its words in `command_meaning.dfy`,
without the analysis's parsers. `dependency_reference.dfy` and `dependency_soundness.dfy` carry the
proof: a reference analysis that follows every way a shell can go. `dependency_guarantees.dfy`,
`dependency_precision.dfy` and `dependency_exact.dfy` are about the analysis itself.

**Port forwarding** (`forwarding_*.dfy`). Routes, claims restored from disk, remembered
claims and pins evolve through inventory reads, scans, failures, pins and handoff freezes,
and are saved to a file that the next daemon must accept. `forwarding_seniority.dfy` says whose
route is the elder, `forwarding_failures.dfy` which routes answer.

**Node operations** (`node_*.dfy`). Admission, key exclusion, batches with their children,
cancellation, shutdown, crash and recovery, with a log of every execution started.
`node_lineage.dfy` follows which receipt belongs to which batch across crashes, and
`node_outcomes.dfy` says what a submission, a batch, a cancellation and a restart come to.

**Renderer supervisor** (`supervisor_*.dfy`). The rolling restart budget that health
resets, and the deadline accounting of a serial worker.

**Smaller pieces**. Ordered lock sets (`lock_*.dfy`), the shell quoter and its inverse
(`shell_quote.dfy`) compared with a shell's own reading (`shell_reading.dfy`), and the metrics
ring (`metrics_ring.dfy`). `wrappers.dfy` holds what several modules share.

## What the code does not do

Several promises turn out to need a condition. Each is proved as an equivalence, or with a
concrete failing case next to the condition.

- Raw replay at worker initialization sizes the terminal with the newest pixel size before
  the first event. It reproduces the live terminal for every emulator exactly when no output
  preceded the first pixel size (`RendererWorker.RawReplayIsLiveIff`).
- A successor serves clients before its predecessor has read `committed`. What it serves
  there is lost from the tabs, though not from session.json, when that message is lost
  (`HandoffWitnesses.ServedThenLost`, `HandoffGuarantees.SessionAfterRollback`); everything
  served survives exactly when no successor had served anything when it was killed
  (`HandoffGuarantees.ServedSurvivesIff`), which is never after that message was read
  (`HandoffGuarantees.LostIff`).
- When the renderer fails to start during a rollback nobody reads that terminal, and the next
  update waits for ever for a pump that was never started, with the update gate held
  (`HandoffWitnesses.SecondUpdateHangs`). It hangs exactly then
  (`HandoffGuarantees.QuiesceBlocksIff`), and only the daemon's death ends it
  (`HandoffGuarantees.StuckIsFinal`).
- The dependency analysis takes `sudo true` for a command that always succeeds, ignores
  redirections that fail, walks on after `exec`, `exit` and `eval`, and does not know `set -e`
  (`DependencyWitnesses.UnwarnedUse`, `DependencyWitnesses.RedirectedInstallMisleads`,
  `DependencyWitnesses.ExecSkipsTheRest`, `DependencyWitnesses.ExitSubshellMisleads`,
  `DependencyWitnesses.EvalSkipsTheInstall`, `DependencyWitnesses.StrictSubshellMisleads`). Its
  report is right about every execution of scripts that avoid these, `set -e` and `|| exit 1`
  at block level included (`DependencyGuarantees.ReportSound`), and exact where moreover no call
  always leaves the shell (`DependencyExact.InstalledIff`, `DependencyExact.WarnedIff`;
  `DependencyWitnesses.GuardIsNotFollowed` is why). `DependencyLimits.TameIff` is the exact guard
  for a simple command.
- A batch's receipt leads to its children's receipts only until the batch's ID is used again,
  which can happen while they are still retained: a batch interrupted by a crash is dated by
  its admission and expires before them (`NodeGuarantees.ReceiptNamedIff`,
  `NodeWitnesses.ReusedRootForgets`).
- A saved pin is dropped by the first inventory read when the file also claims the port for
  the same node under a former name, even if the node is present and ready under the current
  one (`RoutingPolicy.FirstSyncPin`, `RoutingPolicy.FormerNameDropsPin`). No chain of daemons
  that starts without a file ever writes one of that shape (`RoutingPolicy.OwnPinSurvives`,
  `RoutingPolicy.FormerNameIsForeign`).
- The restart budget holds in every run exactly when the healthy-reset period is at least the
  window (`SupervisorBudget.BudgetHoldsIff`). The comment on the tick promises that sustained
  health gives the journal-dropping restart back; it does so only if some charge fell within
  the window that ended at the last attempt (`SupervisorBudget.EscapeRegainedIff`, `SupervisorBudget.EscapeStaysSpent`).
- Lock paths are sorted by the raw node ID but named by the trimmed one. No number of
  processes deadlocks while trimming keeps the requested IDs in order, and any other request
  can deadlock, alone or with one ordinary request (`LockProcesses.NeverDeadlocked`,
  `LockProcesses.UntidyDeadlocks`).
- The inverse of the quoter is documented to refuse whatever a shell would interpret. It runs
  a leading unquoted `NAME=value` or reserved word as a program, and also, quoted or not, the
  name of a utility the shell runs itself, such as `exit`, `cd` or `eval`. It names the program
  the shell would start for every other command it accepts (`ShellReading.SameAsShellIff`;
  sections 2.4, 2.9.1, 2.10.2 and 2.14 of the POSIX.1-2017 Shell Command Language).

## Model

| member | source | states |
|---|---|---|
| RendererEvents.SpanApplies | internal/codelima/renderer_worker_server.go:411-427 | applying one retained event anywhere inside its span takes the terminal after the full history up to there to the terminal after the full history through the event's ID, coalesced resizes and sticky pixels included |
| RendererEvents.ChainReplays | internal/codelima/renderer_worker_server.go:411-427 | replaying any chain of truthful events from watermark k gives the terminal after the full history through the chain's last ID |
| RendererEvents.GeometryIff | internal/codelima/renderer_checkpoint.go:119-122 | a size is accepted if and only if neither side exceeds 65535 and it has at most 1048576 cells |
| RendererJournal.Journal.constructor | internal/codelima/renderer_journal.go:66-71 | a fresh journal is empty, with the default budget for a nonpositive one |
| RendererJournal.Journal.AppendOutput | internal/codelima/renderer_journal.go:73-82 | the returned event and the whole new state: one more ID, the event appended, its cost charged, the front trimmed |
| RendererJournal.Journal.AppendResizePixels | internal/codelima/renderer_journal.go:91-113 | the returned event and the whole new state: a resize that was last is replaced by one spanning both, the pixel size is sticky |
| RendererJournal.Journal.TrimToBudget | internal/codelima/renderer_journal.go:163-170 | the trimming loop computes the recursive trim |
| RendererJournal.TrimKeepsSuffix | internal/codelima/renderer_journal.go:163-170 | trimming leaves a truthful gapless suffix of the history within the budget, with exact accounting |
| RendererJournal.TrimDropsFront | internal/codelima/renderer_journal.go:163-170 | trimming drops only from the front and marks the journal partial exactly when it drops |
| RendererJournal.RunRepresents | internal/codelima/renderer_journal.go:73-170 | over every run the retained events are a truthful gapless suffix of the complete history, bytes are exact and within budget, geometry is the history's, and a journal not marked partial reaches back to the first command |
| RendererJournal.IssuedMatch | internal/codelima/renderer_journal.go:73-113 | one event per command, numbered in order, each a truthful summary of the history |
| RendererRetention.RetainedIsLongestFit | internal/codelima/renderer_journal.go:163-170 | in every run the retained events are exactly the longest tail, of the events an unlimited journal would hold since the last reset, that costs at most the budget: trimming stops as soon as the rest fits |
| RendererRetention.RetainedIff | internal/codelima/renderer_journal.go:73-170 | so an event is retained if and only if it was neither superseded nor reset and the output bytes and 64 for each resize from it onward are at most the budget asked for, or one mebibyte |
| RendererRetention.NeverTwoResizes | internal/codelima/renderer_journal.go:84-113 | in every run no two resizes are retained next to each other |
| RendererRetention.PartialIff | internal/codelima/renderer_journal.go:152-170 | in every run the journal is marked partial if and only if it does not reach back to the first command |
| RendererCheckpoint.TailAfter | internal/codelima/renderer_checkpoint.go:152-175 | on any snapshot at all, complete is reported exactly when the newer events form an unbroken chain from k to the last ID, and the tail is exactly those events with their exact cost |
| RendererCheckpoint.TailCompleteIff | internal/codelima/renderer_checkpoint.go:148-175 | for every run and every k, the tail is complete if and only if k is the last ID or the oldest retained span reaches back to k + 1 |
| RendererCheckpoint.TailCatchesUp | internal/codelima/renderer_checkpoint.go:148-175 | for every run and every k with a complete tail, replaying the tail on the state after the full history 1..k gives the state after the full history, spans straddling k and sticky pixels included |
| RendererOutput.ReadOutputAfter | internal/codelima/renderer_journal_output.go:7-41 | the loop computes the scan of the retained events |
| RendererOutput.ReadExact | internal/codelima/renderer_journal_output.go:7-41 | a read succeeds exactly when its cursor is covered and the first chunk fits, returns exactly the output bytes between the two cursors, advances unless it is at the end, and refuses with the cursor unchanged otherwise |
| RendererOutput.ReaderCollects | internal/codelima/renderer_journal_output.go:7-41 | under any interleaving of appends, resets and reads, what a reader has collected is exactly the output between its start and its cursor, each byte once and in order |
| RendererRecovery.ValidateRecoveryJournal | internal/codelima/renderer_checkpoint_handoff.go:104-137 | the loop accepts exactly the snapshots that are well formed throughout |
| RendererRecovery.ReachableAcceptedIff | internal/codelima/renderer_checkpoint_handoff.go:104-137 | a journal reached under the default budget by any run with valid geometries and an initial resize is accepted if and only if it retains at most 65536 events and its IDs stay below the input-event bit |
| RendererRecovery.AcceptedBounds | internal/codelima/renderer_checkpoint_handoff.go:104-137 | whatever is accepted keeps the bounds in numbers: 65536 events, IDs below the input-event bit, one mebibyte, 1048576 cells, pixels up to 4096 |
| RendererAccepted.AcceptedEvents | internal/codelima/renderer_checkpoint_handoff.go:113-126 | every event of an accepted bundle is an output with its own ID or a resize to a usable size |
| RendererAccepted.AcceptedTailIff | internal/codelima/renderer_checkpoint_handoff.go:104-137 | for every accepted bundle, whoever wrote it, the tail after k is complete if and only if k is the last ID or the oldest event reaches back to k + 1 |
| RendererAccepted.WholeIsComplete | internal/codelima/renderer_checkpoint_handoff.go:104-137 | so an accepted bundle that is not partial brings a renderer up to date from any watermark |
| RendererRecovery.JournalFromRecovery | internal/codelima/renderer_checkpoint_handoff.go:139-149 | the rebuilt journal has the snapshot's state under the default budget |
| RendererRecovery.RebuiltContinues | internal/codelima/renderer_checkpoint_handoff.go:139-149 | the rebuilt journal issues the same events and takes the same snapshots as the original under every later sequence of appends and resets |
| RendererWorker.Worker.ReplayAll | internal/codelima/renderer_worker_server.go:185-279 | the loop replays the events in order |
| RendererWorker.Worker.Init | internal/codelima/renderer_worker_server.go:185-279 | the choice between checkpoint and tail, and raw replay of the whole journal, and the terminal each gives |
| RendererWorker.RestoredIsLive | internal/codelima/renderer_worker_server.go:185-279 | a worker restored from a checkpoint at k and its complete tail holds the live terminal |
| RendererWorker.RawReplayIsLive | internal/codelima/renderer_worker_server.go:185-279 | for an emulator of any kind, raw replay of a complete journal reproduces the live terminal if no output preceded the first pixel size |
| RendererWorker.RawReplayIsLiveIff | internal/codelima/renderer_worker_server.go:185-279 | and that condition is needed: if output did precede it, there is an emulator that raw replay gets wrong, one that only remembers the pixel size at every draw |
| RendererOrder.Order.FindNext | internal/codelima/renderer_journal_order.go:24-87 | the scan of the pending map finds the applicable event with the least ID, if there is one |
| RendererOrder.Order.Drain | internal/codelima/renderer_journal_order.go:24-87 | the nested loop terminates and computes the drain: events in increasing ID order until none applies, covered ones dropped, bytes exact |
| RendererOrder.Order.Push | internal/codelima/renderer_journal_order.go:24-87 | the outcome, the events applied and the whole new buffer for every event: malformed, stale, duplicate, oversized, applied at once or held |
| RendererOrder.RefusedIff | internal/codelima/renderer_journal_order.go:24-87 | for every buffer and event, refusal if and only if the ID is out of range, the type or span makes no sense, or a new event asks for an unusable size or has to wait where 256 events wait or its bytes do not fit one mebibyte |
| RendererOrder.OrderIsIrrelevant | internal/codelima/renderer_journal_order.go:24-87 | two arrival orders, with any duplicates, of the same set of issued events leave the same watermark and the same buffer |
| RendererOrder.WorkerFollowsJournal | internal/codelima/renderer_journal_order.go:24-87 | at any time the worker's terminal is the live terminal at its watermark; applied IDs increase strictly and no output is skipped |
| RendererOrder.AllArrived | internal/codelima/renderer_journal_order.go:24-87 | once every event has arrived nothing is pending and the terminal is that of in-order replay |
| RendererOrder.DeliveryFits | internal/codelima/renderer_journal_order.go:24-87 | no arrival order overflows the buffer while the distinct events are at most 256 and within one journal budget |
| RendererOrder.WorkerConverges | internal/codelima/renderer_journal_order.go:24-87 | end to end: whatever a journal run issued, in whatever order and however often it arrives, a worker that received all of it holds the live terminal |
| RendererRestart.RestartedConverges | internal/codelima/renderer_worker_server.go:185-279 | a worker restarted at any point of a run, from a checkpoint whose tail is complete or, whatever checkpoint was refused, from a whole journal, and then sent the later events in any order and any number of times, holds the live terminal |
| HandoffTerminal.IsolatedTerminal.BeginHandoff | internal/codelima/daemon_terminal_isolated.go:791-881 | it succeeds exactly when every step succeeds and a pump runs to acknowledge the stop, and then the pump is stopped and a duplicate PTY held; a refused begin leaves the terminal running as before; without a pump it waits for ever, quiescing |
| HandoffGuarantees.AtMostOneReader | internal/codelima/daemon_host.go:1712-2205 | in every run, with an error or a death at any step, at most one daemon reads a given PTY |
| HandoffReaders.ActivatedReadsEveryTab | internal/codelima/daemon_host.go:2138-2145 | in every run a successor that has activated its terminals reads every one of its tabs |
| HandoffReaders.ExactlyOneReader | internal/codelima/daemon_host.go:2111-2173 | in every run, once handed over and while the successor lives, each tab it serves is read by it and by nobody else |
| HandoffReaders.GoneIsReleased | internal/codelima/daemon_host.go:1935-1950 | in every run a daemon that has gone has released each of its terminals and reads none |
| HandoffProgress.ReleasingProceeds | internal/codelima/daemon_host.go:1935-1950 | in every run each release takes the next terminal and releases it, and the daemon is gone after the last |
| HandoffProgress.RestoringProceeds | internal/codelima/daemon_host.go:1764-1790 | in every run each restore takes the next held terminal and brings it back to life, and the daemon is idle after the last |
| HandoffProgress.ActivatingProceeds | internal/codelima/daemon_host.go:2138-2145 | in every run each activation takes the successor's next terminal and starts reading it, and the tabs are saved after the last |
| HandoffProgress.ReplacedIff | internal/codelima/daemon_host.go:1769-1779 | in every run a daemon is replaced if and only if it read `committed` or could not resume its ownership |
| HandoffReaders.ResumesIff | internal/codelima/daemon_host.go:1764-1779 | in every run a rollback resumes ownership if and only if this update had prepared to give it up |
| HandoffWitnesses.UpdateSucceeds | internal/codelima/daemon_host.go:1712-1950 | a run in which an update succeeds: the predecessor is gone and refuses what it is asked, the successor owns and reads the tab |
| HandoffWitnesses.ServesThenDies | internal/codelima/daemon_host.go:602-618 | a run in which a daemon serves what it is asked and dies at once |
| HandoffGuarantees.RestartsOnlyAfterReap | internal/codelima/daemon_host.go:1712-1950 | the predecessor reads an existing PTY again only when the successor has been killed and reaped |
| HandoffGuarantees.ReleasesOnlyAfterSave | internal/codelima/daemon_host.go:1712-1950 | terminals are released only after the successor saved exactly the predecessor's tabs, each served mutation included |
| HandoffGuarantees.EveryMutationAccounted | internal/codelima/daemon_host.go:602-618 | in every run the mutations asked of the daemon are, in order, exactly those it served followed by those it refused; some were refused only once it was replaced; its tabs are the served ones applied to the first tabs, and at hand-over the successor has saved exactly those tabs |
| HandoffGuarantees.MutationFate | internal/codelima/daemon_host.go:602-618 | each single mutation: asked of a daemon that owns its tabs it is served and stays served at its place in the order for ever; asked of a replaced one it is refused, and no tab changes from then on |
| HandoffProtocol.MutatedOrder | internal/codelima/daemon_host.go:929-960 | for every list of tabs: a new tab comes last, a closed one leaves no gap, and a moved one changes places with the next tab on its target in the direction asked for, or stays if there is none |
| HandoffGuarantees.ReplacedIsFinal | internal/codelima/daemon_host.go:602-618 | once replaced, always replaced: tabs and served mutations never change again |
| HandoffGuarantees.ManifestCarriesAll | internal/codelima/daemon_host.go:1712-1950 | the manifest a successor is sent carries the effect of every mutation asked for until then, none of them refused |
| HandoffGuarantees.RollbackRestores | internal/codelima/daemon_host.go:1712-1950 | when an update is over and not committed, every terminal has its own PTY back and no successor is alive; a terminal is read again if and only if its renderer started |
| HandoffGuarantees.QuiesceBlocksIff | internal/codelima/daemon_terminal_isolated.go:836-846 | in every run, quiescing a terminal waits for ever if and only if nothing fails before the wait and the terminal's renderer did not start when it was last started |
| HandoffGuarantees.StuckIsFinal | internal/codelima/daemon_host.go:1712-1950 | from then on no mutation is served or even refused until the daemon dies |
| HandoffWitnesses.SecondUpdateHangs | internal/codelima/daemon_terminal_isolated.go:936-939 | a run from a fresh daemon with one tab in which a failed update leaves the tab unread and the next update never ends |
| HandoffGuarantees.SessionAfterRollback | internal/codelima/daemon_host.go:1191-1203 | session.json differs from the tabs exactly by what a killed successor had served |
| HandoffGuarantees.ServedSurvivesIff | internal/codelima/daemon_host.go:2111-2173 | the surviving daemon's tabs are the result of a history of mutations, and that history is everything any daemon served if and only if no successor had served anything when it was killed |
| HandoffGuarantees.LostIff | internal/codelima/daemon_host.go:2111-2173 | in every run, what successors served is exactly what is lost followed by what the present one served; work is lost exactly when a successor that has served is killed, which is never after `committed` was read; a daemon that goes on after a rollback has lost all of it |
| HandoffWitnesses.ServedThenLost | internal/codelima/daemon_host.go:2111-2173 | a run from a fresh daemon in which a tab opened with the successor is in session.json and not in the tabs of the daemon that goes on, because `committed` was never read |
| ShellSyntax.DependencyCommandArgs | internal/codelima/environment_dependency.go:259-287 | the loop strips exactly the prefixes the reference stripping names |
| ShellSyntax.LiteralAptCommand | internal/codelima/environment_dependency.go:289-319 | an apt command is recognized exactly when every word is understood and its positional words are an action and at least one package |
| ShellSyntax.ScanApt | internal/codelima/environment_dependency.go:289-319 | the word loop: the action and packages are the positional words in order, and giving up means some word is not understood or the first positional word is no action |
| CommandMeaning.StrippedIsProgram | internal/codelima/environment_dependency.go:259-287 | for every command, what the prefix parser leaves is the first word that is neither a prefix, one `--` behind it nor a flag of sudo, with the words behind it, and nothing if that word is an option; it runs under sudo or replaces the shell exactly as the prefixes say |
| CommandMeaning.AptFound | internal/codelima/environment_dependency.go:289-319 | an apt command is found wherever the words make one, with its action and packages |
| CommandMeaning.AptMissed | internal/codelima/environment_dependency.go:289-319 | and nowhere else |
| CommandMeaning.ClassifiedIff | internal/codelima/environment_dependency.go:189-243 | for every command, each classification holds if and only if the words mean it: success, failure, a use of curl, its removal by `remove`, `purge` or a trailing minus, its installation under any spelling, or another installation |
| CommandMeaning.EffectIsDeed | internal/codelima/environment_dependency.go:189-243 | so the analysis classifies every command by what its execution does |
| DependencyAnalysis.Report.Warn | internal/codelima/environment_dependency.go:245-257 | one warning per command block, with a fix only while all its uses agree on it |
| DependencyAnalysis.Analyze | internal/codelima/environment_dependency.go:40-68 | the loop over command blocks computes the flow of facts, the warnings and the blocks it could not analyse, within the byte budget |
| DependencyAnalysis.AnalysableIff | internal/codelima/environment_dependency.go:40-68 | for every list of blocks, one is analysed if and only if it parses, has at most 65536 bytes, and no block up to it is the 257th or exceeds what is left of 262144 bytes |
| DependencyAnalysis.UnavailableIff | internal/codelima/environment_dependency.go:40-68 | the blocks reported unavailable are exactly the first that exceeds those limits and, before it, the ones too long or unparsable |
| DependencyReference.MergeHolds | internal/codelima/environment_dependency.go:70-87 | merged facts hold wherever either input's facts hold |
| DependencyReference.EntailsIff | internal/codelima/environment_dependency.go:70-87 | entailment of facts is exact: it holds if and only if every trace that satisfies the one satisfies the other |
| DependencySoundness.HonestIff | internal/codelima/environment_dependency.go:245-257 | at a use of curl the analysis's treatment is honest against what is really known there if and only if, on every trace possible there, curl is present or the use is warned about with no fix but one on the way |
| DependencyGuarantees.CallBacked | internal/codelima/environment_dependency.go:189-243 | for a sober call, what the analysis claims of each outcome somebody goes by is backed by what is really known after every execution, and a use of curl is treated honestly |
| DependencyGuarantees.StmtBacked | internal/codelima/environment_dependency.go:97-114 | so it is for a sober statement, negated or redirected |
| DependencyGuarantees.ScriptBacked | internal/codelima/environment_dependency.go:89-95 | and for a sequence, where only the merged facts are carried on |
| DependencyGuarantees.AndBacked | internal/codelima/environment_dependency.go:124-129 | and for `&&` lists |
| DependencyGuarantees.OrBacked | internal/codelima/environment_dependency.go:130-132 | and for or-lists |
| DependencyGuarantees.IfBacked | internal/codelima/environment_dependency.go:138-149 | and for if, elif and else |
| DependencyGuarantees.SubshellBacked | internal/codelima/environment_dependency.go:122-123 | and for subshells, which nothing sober leaves early |
| DependencyGuarantees.CmdBacked | internal/codelima/environment_dependency.go:116-170 | and so for every sober command |
| DependencyGuarantees.ReportSound | internal/codelima/environment_dependency.go:40-68 | main result: over every execution of every list of sober blocks, a class read off the script alone, each analysed curl call reached without an install in force is warned about, a suggested fix was executed on every path to the use, and what the report claims of a completed bootstrap is true of it |
| DependencyPrecision.CmdAttains | internal/codelima/environment_dependency.go:116-170 | the other direction, for every command in which no call always leaves the shell: each outcome the analysis expects is the outcome of some execution, with curl there exactly if it claims so |
| DependencyPrecision.CmdWarns | internal/codelima/environment_dependency.go:116-170 | and whenever it warns, some execution uses curl without an install in force |
| DependencyExact.InstalledIff | internal/codelima/environment_dependency.go:40-68 | so on sober blocks of that kind that are all expected to be reached, the report claims curl if and only if every completed bootstrap has it |
| DependencyExact.WarnedIff | internal/codelima/environment_dependency.go:245-257 | and a block is warned about if and only if some execution uses curl there without an install in force |
| DependencyLimits.TameIff | internal/codelima/environment_dependency.go:189-243 | for a simple command, negated or redirected, what the analysis claims of each outcome holds in every execution if and only if it is no redirected `true` or install of other packages, and no `true` under sudo |
| DependencyLimits.UnobservedStatus | internal/codelima/environment_dependency.go:89-95 | a wrong claim about the outcome of `true > log`, `: > file` or `sudo true` does no harm in front of other statements: nobody looks at it |
| DependencyLimits.OptionsAreHarmless | internal/codelima/environment_dependency.go:89-95 | `set -e` and other options in front of a block without subshells change neither the claims, nor the uses the analysis is right about, nor what is known of a block that succeeds |
| DependencyWitnesses.OrExitIsRight | internal/codelima/environment_dependency.go:116-170 | a command with `exit 1` as its alternative in an or-list is within the theorem whenever the command is, and its claim of success is backed whenever the command's is |
| DependencyWitnesses.StrictInstallIsRight | internal/codelima/environment_dependency.go:40-68 | `set -e; apt-get update; apt-get install -y curl` claims an install, and rightly |
| DependencyWitnesses.CommonScriptIsSober | internal/codelima/environment_dependency.go:40-68 | `set -e`, an update, an install of curl guarded by `exit 1` and a use of curl make a sober block |
| DependencyWitnesses.ExecSkipsTheRest | internal/codelima/environment_dependency.go:259-287 | after `exec true` the analysis claims what only the code behind it would do |
| DependencyWitnesses.UnwarnedUse | internal/codelima/environment_dependency.go:189-243 | with `curl` as the alternative to `true > f` or to `sudo true` in an or-list, curl can run and nothing warns |
| DependencyWitnesses.StrictSubshellMisleads | internal/codelima/environment_dependency.go:116-123 | after `( set -e; apt-get update; apt-get install -y vim )` the warning about curl suggests a fix at an install that may have been skipped |
| DependencyWitnesses.ExitSubshellMisleads | internal/codelima/environment_dependency.go:116-123 | so it does after `( exit 1; apt-get install -y vim )` |
| DependencyWitnesses.RedirectedInstallMisleads | internal/codelima/environment_dependency.go:97-114 | and after `apt-get install -y vim > f` |
| DependencyWitnesses.EvalSkipsTheInstall | internal/codelima/environment_dependency.go:189-243 | `eval x; apt-get install -y curl` claims an install, and the block can succeed without it |
| DependencyWitnesses.GuardIsNotFollowed | internal/codelima/environment_dependency.go:189-243 | after an install of curl with `exit 1` as its alternative curl is always there, and the analysis does not claim it |
| DynamicForwarder.Forwarder.RemoveRoute | internal/codelima/dynamic_forwarding.go:1486-1496 | the route goes, its claim is remembered with the time, its pin goes |
| DynamicForwarder.Forwarder.RemoveNodeRoutes | internal/codelima/dynamic_forwarding.go:1544-1560 | whatever the map order, exactly the node's routes, restored claims and pins go |
| DynamicForwarder.Forwarder.RetireNode | internal/codelima/dynamic_forwarding.go:1526-1542 | the node is forgotten with its routes, claims and pins |
| DynamicForwarder.Forwarder.SettleRestored | internal/codelima/dynamic_forwarding.go:934-963 | whatever the map order, every restored claim is dropped with its pin, promoted to a lapsed route, or kept |
| DynamicForwarder.Forwarder.ReviewNodes | internal/codelima/dynamic_forwarding.go:970-996 | whatever the map order, every known node is updated, cleared or retired as the inventory says |
| DynamicForwarder.Forwarder.JoinRunning | internal/codelima/dynamic_forwarding.go:997-1002 | every running node becomes known, known ones keep their state |
| DynamicForwarder.Forwarder.PruneDiscoveryMemory | internal/codelima/dynamic_forwarding.go:1498-1505 | exactly the remembered claims older than the memory window go |
| DynamicForwarder.Forwarder.SyncMembership | internal/codelima/dynamic_forwarding.go:912-1010 | an inventory read edits the tables as the one-shot function of the old tables, and nothing during a handoff freeze |
| DynamicForwarder.Forwarder.OpenPort | internal/codelima/dynamic_forwarding.go:1418-1436 | an existing route is available again, a new one gets the claim's discovery time |
| DynamicForwarder.Forwarder.ApplyScanResult | internal/codelima/dynamic_forwarding.go:1402-1452 | whatever the map order and however often a port is listed, a scan edits the tables as the one-shot function of the old tables, for a node in the table or missing from it |
| DynamicForwarder.Forwarder.LapseNodeRoutes | internal/codelima/dynamic_forwarding.go:1509-1522 | exactly the node's routes are degraded, none removed |
| DynamicForwarder.Forwarder.RecordNodeFailure | internal/codelima/dynamic_forwarding.go:1167-1221 | failures are counted, and after two of them over the grace the node's routes degrade and its peer goes |
| DynamicForwarder.Forwarder.PinBarePort | internal/codelima/forwarding_policy.go:215-256 | a pin is taken exactly when the node has a route on a served port |
| ForwardingRoutes.SyncKeeps | internal/codelima/dynamic_forwarding.go:912-1010 | an inventory read keeps every pin backed by a claim, routes and restored claims disjoint, and claims well formed |
| ForwardingRoutes.ScanKeeps | internal/codelima/dynamic_forwarding.go:1402-1463 | so does a scan |
| ForwardingRoutes.NothingWaits | internal/codelima/dynamic_forwarding.go:934-996 | after any inventory read no restored claim is left |
| ForwardingRoutes.RunKeeps | internal/codelima/dynamic_forwarding.go:881-1560 | over every run of inventory reads, failures, scans, peers, pins and freezes the invariant holds |
| ForwardingRoutes.RouteLostIff | internal/codelima/dynamic_forwarding.go:668-1463 | a route leaves the table if and only if an inventory read lacks its node, shows it not ready, or confirms a stop held for the whole grace with no transport or lapsed routes, or a scan of its node lacks its port; every failure leaves the key set unchanged |
| ForwardingRoutes.StoppedForTheGrace | internal/codelima/dynamic_forwarding.go:668-673 | in every run, a ready node whose routes go as stopped was read as not running at least the grace ago, and no read since contradicted it |
| ForwardingFailures.LapsesIff | internal/codelima/dynamic_forwarding.go:1167-1221 | in every run a failure degrades exactly the routes of its node, exactly when it is the first to come fifteen seconds or more behind the first failure since the node became known or was last scanned; it changes nothing else of any route |
| ForwardingFailures.AnswersIff | internal/codelima/dynamic_forwarding.go:1400-1457 | in every run in which nodes keep the names they were created with, a route answers if and only if its node was scanned since it became known and has not been degraded since; a claim restored from disk answers nothing before |
| ForwardingSeniority.RememberedIff | internal/codelima/dynamic_forwarding.go:1498-1505 | after an inventory read the remembered keys are exactly those it removed and those removed within two minutes |
| ForwardingSeniority.RouteKeepsTime | internal/codelima/dynamic_forwarding.go:1418-1436 | a route that stays keeps its discovery time |
| ForwardingSeniority.SeniorityReturns | internal/codelima/dynamic_forwarding.go:1465-1496 | a route that went and is opened again for the same node within two minutes has its first discovery time again, whatever else happened meanwhile; only the Codex login port follows the newest listener |
| ForwardingClaimant.SelectClaimant | internal/codelima/dynamic_forwarding.go:1665-1684 | whatever the map order, the route preferred to every other by discovery time and then name, none exactly when there is no candidate |
| ForwardingClaimant.PreferredClaimant | internal/codelima/dynamic_forwarding.go:1648-1663 | the pinned node's route, else the best available one, else the best lapsed one |
| ForwardingClaimant.PreferredIff | internal/codelima/dynamic_forwarding.go:1648-1684 | for every table, a bare port goes to the node it is pinned to if that has a route there, else to the first route in one order: answering before degraded, elder before younger (the reverse on port 1455), lesser name first; and to nobody exactly when there is no route |
| ForwardingClaimant.RunKeepsOneName | internal/codelima/dynamic_forwarding.go:912-1463 | in every run all routes of a node stand under one name |
| ForwardingClaimant.PreferredIsUnique | internal/codelima/dynamic_forwarding.go:1648-1684 | in every reachable state the preferred claimant of a port is one name, whatever the map order |
| RoutingPolicy.ValidateRoutingPolicy | internal/codelima/forwarding_policy.go:82-109 | the loops accept exactly the files with well-formed claims under distinct keys and one pin a port, each with an active claim |
| RoutingPolicy.RoutingPolicySnapshot | internal/codelima/forwarding_policy.go:113-145 | the file holds exactly the tables' claims and pins, sorted; none after a failed load |
| RoutingPolicy.FileIsDetermined | internal/codelima/forwarding_policy.go:113-145 | the file is a function of the tables, map order never shows |
| RoutingPolicy.LoadRoutingPolicy | internal/codelima/forwarding_policy.go:37-80 | a file is loaded exactly when it is acceptable; a refused one leaves the tables empty |
| RoutingPolicy.EverySnapshotAccepted | internal/codelima/forwarding_policy.go:82-145 | whatever runs after loading any acceptable file, the snapshot is a file the loader accepts |
| RoutingPolicy.PortsInRange | internal/codelima/forwarding_policy.go:82-109 | after any run from any accepted file, every route and claim stands on a port from 1024 to 65535, under a name, for a node and with a time |
| RoutingPolicy.RoundTrip | internal/codelima/forwarding_policy.go:63-145 | saving and reloading keeps the pins, every active claim, and every removed claim not since replaced |
| RoutingPolicy.ResavesTheSame | internal/codelima/forwarding_policy.go:63-145 | a second save writes the same file |
| RoutingPolicy.FirstSyncPin | internal/codelima/dynamic_forwarding.go:934-996 | a loaded pin survives the first inventory read if and only if its node is present and ready and no active claim for it on the port is under another name |
| RoutingPolicy.FirstSyncClaimant | internal/codelima/dynamic_forwarding.go:1648-1663 | and then the bare port belongs to that node |
| RoutingPolicy.FormerNameDropsPin | internal/codelima/dynamic_forwarding.go:936-943 | a concrete acceptable file whose pin is lost although its node is present, ready and correctly named |
| RoutingPolicy.WrittenOwn | internal/codelima/forwarding_policy.go:82-145 | in any chain of daemons, each loading the file the one before it wrote, every file is acceptable and holds the active claims of a node under one name |
| RoutingPolicy.OwnPinSurvives | internal/codelima/forwarding_policy.go:113-145 | so a pin held by any daemon of the chain survives the next one's first inventory read if and only if its node is present, ready and not renamed |
| RoutingPolicy.FormerNameIsForeign | internal/codelima/forwarding_policy.go:113-145 | and no daemon of any chain writes the file that loses its pin |
| NodeBatch.Recount | internal/codelima/node_batch.go:44-62 | each counter is the number of members in its states, and the six sum to the total |
| NodeBatch.PrepareBatch | internal/codelima/node_batch.go:68-101 | admitted exactly when 1 to 64 targets are all as reviewed and no node repeats; then one queued member and both keys per target |
| NodeManager.Manager.ExecutingCount | internal/codelima/node_batch.go:192-200 | the number of live operations that are not batch roots |
| NodeManager.Manager.ScanLive | internal/codelima/node_operations.go:314-326 | a conflict is reported exactly when a live operation shares a key, else the number of live operations that are no batch's child |
| NodeManager.Manager.Prune | internal/codelima/node_operations.go:385-396 | exactly the expired records removed so far are gone from memory and disk |
| NodeManager.Manager.SubmitRequest | internal/codelima/node_operations.go:301-356 | the whole new state of a submission: repeated, pruned, conflicting, over a limit, unsaved or admitted |
| NodeManager.Manager.CancelOperation | internal/codelima/node_operations.go:713-738 | the whole new state of a cancellation, children included |
| NodeManager.Manager.CloseAll | internal/codelima/node_operations.go:740-758 | the whole new state of a shutdown |
| NodeManager.Manager.SyncMembers | internal/codelima/node_batch.go:113-126 | every member follows its operation, or ends with the batch's context |
| NodeManager.Manager.LaunchMembers | internal/codelima/node_batch.go:128-153 | the launching loop computes the step-by-step launch under both limits |
| NodeManager.Manager.BatchTick | internal/codelima/node_batch.go:106-190 | the whole new state of one turn of the batch loop |
| NodeOutcomes.BatchEndsIff | internal/codelima/node_batch.go:155-180 | in every run a tick ends a batch exactly when no member is queued or busy; it ends as succeeded if and only if it was neither canceled nor closed, every member succeeded and the receipt was written, and as canceled, interrupted or failed if and only if the matching condition holds |
| NodeOutcomes.SuccessIsTrue | internal/codelima/node_batch.go:155-225 | in every run, crashes included, a batch that is said to have succeeded shows only members that did |
| NodeOutcomes.WaitsOnlyWhenFull | internal/codelima/node_batch.go:128-153 | in every run a tick of a batch nobody has ended leaves a member queued only if four of its members are busy or sixteen operations execute |
| NodeOutcomes.MembersFollow | internal/codelima/node_batch.go:113-126 | in every run, after a tick each member with an operation shows what that operation says |
| NodeOutcomes.UnstartedMembersEnd | internal/codelima/node_batch.go:113-126 | and one that never had an operation ends with the context of its batch |
| NodeOutcomes.CompletedIff | internal/codelima/node_operations.go:398-545 | an operation ends as interrupted, canceled, succeeded or failed if and only if the matching condition on its cause, its work, its stop and its receipt holds |
| NodeOutcomes.CancelReaches | internal/codelima/node_operations.go:713-738 | canceling leaves neither the operation nor any of its live children going, keeps earlier causes, and touches nothing else |
| NodeOutcomes.CloseReaches | internal/codelima/node_operations.go:740-758 | closing ends every live operation, keeps earlier causes, and nothing is admitted from then on |
| NodeOutcomes.SubmittedIff | internal/codelima/node_operations.go:301-356 | in every run a submission is executed if and only if the daemon is up and not closing, its ID has no busy or retained record, pruning and the receipt were written, no live operation shares a key, and the limits of sixteen leave room |
| NodeOutcomes.AdmittedIs | internal/codelima/node_operations.go:301-356 | an admission adds one live operation that holds its keys, with its receipt on disk, and changes nothing else but what was pruned |
| NodeOutcomes.RootsWithinLimit | internal/codelima/node_operations.go:301-356 | in every run at most sixteen live operations are no batch's child |
| NodeOutcomes.BoundHolds | internal/codelima/node_operations.go:358-370 | binding a created node records it and holds its key, so that no request for the node is admissible from then on |
| NodeOutcomes.RestartIs | internal/codelima/node_operations.go:117-156 | a restart keeps exactly the receipts that are busy or not older than seven days; busy ones become interrupted, and nothing is live or held |
| NodeManager.Manager.RecoverBatches | internal/codelima/node_batch.go:205-225 | every interrupted batch is reprojected from its children's receipts, whatever the map order |
| NodeManager.Manager.Restart | internal/codelima/node_operations.go:117-156 | the whole state after loading the receipts |
| NodeSafety.BindKeeps | internal/codelima/node_operations.go:358-370 | the name reserved at admission already excludes every operation on the node that is then created |
| NodeSafety.TickKeeps | internal/codelima/node_batch.go:106-190 | a batch tick keeps limits, exclusion and the tie between batch and children |
| NodeGuarantees.RunKeeps | internal/codelima/node_operations.go:117-758 | every run, crashes and half-finished recoveries included, keeps the invariant |
| NodeGuarantees.WithinLimits | internal/codelima/node_batch.go:128-153 | at most 16 operations execute and at most 4 children of any batch are live |
| NodeGuarantees.ExclusiveWork | internal/codelima/node_operations.go:314-326 | no two live operations work on one node, except a batch and its own child |
| NodeGuarantees.NoOutsideAdmission | internal/codelima/node_operations.go:314-326 | while a child of a batch is live, no request for any node of the batch, or for the name of one, is admissible |
| NodeGuarantees.NeverTwice | internal/codelima/node_operations.go:372-383 | across crashes, one ID never executes twice within the retention, and no batch launches a member twice |
| NodeGuarantees.RecoveryLeavesNothingOpen | internal/codelima/node_operations.go:117-156 | after a restart nothing is live, and every member of every batch is settled |
| NodeGuarantees.ReceiptNamedIff | internal/codelima/node_batch.go:103-105 | in every run, crashes included, a child's receipt is named with its node by its batch's receipt if and only if the batch's ID has not been executed again since the child's launch |
| NodeGuarantees.RecoveryKeepsOutcomes | internal/codelima/node_batch.go:205-225 | after any run, for every retained receipt of a child launched by the batch now interrupted, exactly one member of the recovered batch names it and shows its recorded outcome, interrupted if it had none, and the receipt stays |
| NodeLineage.TickLineage | internal/codelima/node_batch.go:106-190 | a batch tick keeps every child receipt named by its root's receipt, for whatever receipts could be written |
| NodeWitnesses.ReusedRootForgets | internal/codelima/node_operations.go:372-396 | a run without any failed write in which an interrupted batch expires before its child, its ID is used again, and the child's retained receipt is named by nothing |
| SupervisorBudget.Supervisor.PlanRestart | internal/codelima/renderer_supervisor.go:846-889 | the pruning loop and the decision, for every combination of flags |
| SupervisorBudget.Supervisor.Restart | internal/codelima/renderer_supervisor.go:891-921 | the whole new state of an attempt |
| SupervisorBudget.BudgetHolds | internal/codelima/renderer_supervisor.go:780-916 | with a healthy-reset period of at least the window, no run charges more than the maximum in any window |
| SupervisorBudget.BudgetHoldsIff | internal/codelima/renderer_supervisor.go:780-916 | no window of any run holds more charges than the maximum, if and only if the healthy-reset period is at least the window |
| SupervisorBudget.DecisionSeesTheWindow | internal/codelima/renderer_supervisor.go:846-854 | the list the decision counts is exactly the charges of the last window, although health clears it |
| SupervisorBudget.AttemptsAreLimited | internal/codelima/renderer_supervisor.go:846-916 | in every run no window holds more attempts that are neither forced nor the escape than the policy allows |
| SupervisorBudget.AnswerIff | internal/codelima/renderer_supervisor.go:846-889 | in every run, by what happened in it: exactly when an attempt is refused, when it drops the journal, and when it is charged |
| SupervisorBudget.ServingIff | internal/codelima/renderer_supervisor.go:780-800 | in every run the renderer is taken for serving exactly while it is, since the time it was installed |
| SupervisorBudget.DegradedIff | internal/codelima/renderer_supervisor.go:846-889 | in every run the renderer is reported degraded if and only if its last attempt was refused and it was not installed since |
| SupervisorBudget.OneCleanPerReset | internal/codelima/renderer_supervisor.go:876-882 | between two journal-dropping restarts there is a reset by sustained health |
| SupervisorBudget.EscapeRegainedIff | internal/codelima/renderer_supervisor.go:792-799 | in every run, a tick of a renderer that has served for the whole healthy period gives the journal-dropping restart back if and only if some charge lies within the window that ended at the last attempt |
| SupervisorBudget.EscapeStaysSpent | internal/codelima/renderer_supervisor.go:792-799 | a run after which it stays spent however long the renderer is healthy |
| SupervisorLink.Link.EnqueueDeadline | internal/codelima/renderer_supervisor.go:1315-1373 | the whole new table: probes dropped behind an outstanding request, budgets by method, nothing admitted to a full queue |
| SupervisorLink.Link.ActivePending | internal/codelima/renderer_supervisor.go:1478-1487 | whatever the map order, the dispatched request with the least order, none exactly when nothing is dispatched |
| SupervisorLink.Link.MarkDispatched | internal/codelima/renderer_supervisor.go:1462-1476 | the whole new table |
| SupervisorLink.Link.CompletePending | internal/codelima/renderer_supervisor.go:1489-1503 | the whole new table, with the next request rebased exactly when the active one was answered |
| SupervisorLink.Link.HealthError | internal/codelima/renderer_supervisor.go:1435-1458 | with a dispatched request only the active one is ever blamed, exactly when its deadline has passed; without one, some admitted request exactly when its deadline has passed |
| SupervisorLink.ActiveIsFirst | internal/codelima/renderer_supervisor.go:1460-1487 | the active request is the first unanswered one on the wire |
| SupervisorLink.BlameIsExact | internal/codelima/renderer_supervisor.go:1435-1503 | in every run the active request is overdue if and only if its whole budget has passed since it became first on the wire |
| SupervisorLink.BlameByMethod | internal/codelima/renderer_supervisor.go:1315-1503 | and that budget is its method's: four timeouts for a read, checkpoint or interact, what was left of the caller's deadline for an init, else one timeout |
| SupervisorLink.QueuedDeadline | internal/codelima/renderer_supervisor.go:1334-1352 | in every run a request nobody has dispatched is held to its own deadline, the caller's for an init |
| SupervisorLink.AdmittedIff | internal/codelima/renderer_supervisor.go:1328-1373 | in every run a request is admitted if and only if there is room and it is no probe behind another request |
| SupervisorLink.DeadlineStays | internal/codelima/renderer_supervisor.go:1460-1503 | nothing but its own answer moves the active request or its deadline |
| LockOrder.LockPaths | internal/codelima/locks.go:100-146 | refused exactly when some node ID is unusable as a name, else the sorted domains and then the trimmed names of the sorted IDs |
| LockOrder.TrimIs | internal/codelima/locks.go:140-146 | trimming takes white space from both ends, all of it and nothing else |
| LockOrder.PathsInOrderIff | internal/codelima/locks.go:100-134 | the files are taken in the documented order if and only if trimming keeps the requested IDs in order |
| LockProcesses.NeverDeadlocked | internal/codelima/locks.go:53-95 | for any number of processes, nesting a node set in a held global set allowed, no reachable state is deadlocked while requests trim in order |
| LockProcesses.UntidyDeadlocks | internal/codelima/locks.go:100-146 | every other acceptable request deadlocks in some run with at most one further ordinary request |
| ShellQuote.ShellArgsFragment | internal/codelima/runtime.go:142-152 | the loop joins the quoted arguments with one blank |
| ShellQuote.ReadingIsUnique | internal/codelima/lima.go:238-277 | a plain command is spelled by one list of pieces only |
| ShellReading.LiteralIff | internal/codelima/lima.go:228-277 | an unquoted character of a plain command is no blank, no quote and none that a shell acts on |
| ShellReading.SegmentIff | internal/codelima/lima.go:228-277 | a quoted part of a plain command does not hold its own quote, nor, in double quotes, anything a shell expands there |
| ShellQuote.ArgvFromQuotedCommand | internal/codelima/lima.go:238-277 | success exactly on plain commands that name a program, with exactly their words; no plain reading names a program otherwise |
| ShellQuote.RoundTrip | internal/codelima/runtime.go:142-152 | the parser's answer to quoted arguments is the arguments, whatever they hold, if and only if the first one exists and is nonempty |
| ShellReading.SameAsShellIff | internal/codelima/lima.go:226-277 | for every shell, the parser's answer to a plain command is the program that shell would start if and only if the first word is no unquoted assignment, no unquoted reserved word and, quoted or not, no utility the shell runs itself |
| ShellReading.QuotedIsSameAsShellIff | internal/codelima/runtime.go:142-152 | for quoted arguments with a program name it is, if and only if the name is not one of those utilities |
| ShellReading.AssignmentIsRun | internal/codelima/lima.go:226-236 | `A=` is run as a program although a shell would run nothing |
| ShellReading.KeywordIsRun | internal/codelima/lima.go:226-236 | `if` is run as a program although a shell would take it for syntax |
| ShellReading.BuiltinIsRun | internal/codelima/lima.go:226-236 | `'exit' '3'` is run as a program although a shell would end with status 3 |
| MetricsRing.History.AppendPoint | internal/codelima/metrics_history.go:42-64 | the ring's contents after an append are the bounded list's |
| MetricsRing.History.Latest | internal/codelima/metrics_history.go:66-71 | the time of the newest point, zero for none |
| MetricsRing.History.After | internal/codelima/metrics_history.go:73-83 | the query is the plain filter of the contents |
| MetricsRing.History.RecentCpu | internal/codelima/metrics_cpu_trend.go:14-28 | the early-stopping backward scan is the last 60 of the plain filter of the last minute, in order |
| MetricsRing.AcceptedTimes | internal/codelima/metrics_history.go:42-64 | the history is in strictly increasing time order and ends at the latest time that arrived |
| MetricsRing.KeptIff | internal/codelima/metrics_history.go:42-64 | it holds exactly the arrivals that were in time and not replaced by one of the same time |
| MetricsRing.RingIsRecentHistory | internal/codelima/metrics_history.go:54-63 | after any appends the ring holds the last 3600 points of the unbounded history |

## Left out

- JSON encoding, SHA-256 digests, frame I/O, sockets, descriptor passing, SSH, the HTTP proxy, limactl and the native terminal: external; their results are parameters.
- Real reflow on resize: the model takes the code's rule that only the newest geometry of a resize run matters.
- Journals with more than 65536 retained events: trimming bounds bytes only, so RendererRecovery.ReachableAcceptedIff has that bound as part of its condition.
- The direct overwrite of the partial flag in replay-only adoption (internal/codelima/daemon_terminal_isolated.go:996-998).
- HandoffProtocol: the update and import sequences are steps on values, not on the host object; a terminal whose process exits by itself, session writes outside the update barrier (resize, terminal exit) and output consumed by a successor that is later killed are not modelled.
- DependencyGuarantees.ReportSound: requires sober scripts; each exclusion has its failing script in `dependency_witnesses.dfy` or follows from TameIff, but some excluded scripts are harmless where no use of curl depends on the wrong claim.
- DependencyExact.WarnedIff: says which blocks are warned about, not which fix is suggested; the analysis keeps one site at a time.
- Pipelines, loops, case, background jobs, substitutions and function calls in the dependency analysis: the code calls itself advisory there. Commands redefined by functions or aliases, signals, and what unseen code installs or removes are not modelled; `exit` without a status may end with any.
- CommandMeaning: `apt-get remove curl+`, which apt itself reads as an install, is taken for a removal, as in the code.
- Applying a suggested dependency fix to the command text, and the parsing of shell words.
- ForwardingRoutes: names are compared as ranks in byte order, inventories are assumed to have distinct, valid, lower-cased sandbox names, and runs scan only known nodes, as the reconcile loop does (a scan of a node missing from the table is modelled as one call); host listeners, TCP mappings, backoff and log throttling are not modelled.
- RoutingPolicy.RoundTrip: a removed claim under the key of an active one is not kept, as in the code.
- NodeOperations: renames of a node during an operation, environment-test recovery, operation phases and output; a failed receipt write is taken to leave the file as it was.
- NodeSafety.BindKeeps: assumes that a node's name does not change while operations are live.
- Operation listing, paging and retention of output.
- SupervisorBudget: backoff delays and the degraded cooldown are arbitrary passage of time.
- SupervisorLink: queue priorities only decide the dispatch order, which is arbitrary here; waiters are not modelled.
- LockOrder: lock waiting is an enabled step, not a poll.
- MetricsRing: points are values; retention of whole histories per node is not modelled.
- Key bindings, credential import, diagnostics, CLI, settings, TUI hints, telemetry parsing, log rotation and the remaining commands: plumbing that would only add easy members.
