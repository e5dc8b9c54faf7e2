# cs-plane: models and proofs

This project models the parts of cs-plane where correctness is hardest to see from the code, and proves what every run
or every input of them satisfies.

- **Sessions** (`Session*.dfy`, `Capability*.dfy`, `*Laws.dfy`, `*Runs.dfy`, `StoreRefinement.dfy`, `Reconciliation.dfy`,
  `RunHistory.dfy`, `Retirement.dfy`, `Persistence.dfy`). Define, Start, Attach, Stop, Delete, AdoptRuns, Link and reconciliation are processes that
  alternate short atomic cycles on the store with slow work outside. `SessionProtocol` is the transition system: its state
  is the stored sessions, the run history, the capability files, the link registry, every launch, stop, link and
  reconcile in flight, and the jobs a nondeterministic scheduler took. The proofs go over all finite runs.
- **SSH keys and hosts** (`KeyNames.dfy`, `Host*.dfy`, `Ssh*.dfy`). Staged puts, tombstoned deletions, rendered configs
  and rows, with a crash possible after every single step, also while recovering.
- **Control masters** (`Control*.dfy`). Locks and processes pass between attempts, the owned masters and the shutdown.
- **Two small protocols**: the Dev Tunnels device-code broker (`DeviceBroker.dfy`, `LinkBroker.dfy`; section 3.5 of
  RFC 8628) and the OIDC key cache (`OidcCache.dfy`).
- **Text and buffers**: framed sections, status merging, shell quoting and the submit program (sections 2.2.2, 2.2.3, 2.5.1
  and 2.7.4 of the POSIX.1-2017 Shell Command Language), and the bounded log tail.

Two kinds of result stand beside the invariants. Laws say what many steps make of a record in terms of what was answered,
not of how it is computed (`PassLaws`, `StopLaws`, `HistoryLaws`, `DeviceLaws`, `ControlReuse`, `OidcCache`). Whole
operations (`LaunchRuns`, `PassRuns`, `SshRuns`) say what a caller gets from a launch, a stop, a pass, a link, a deletion or
a mutation that nothing disturbs, from every reachable state, and that a failed one leaves nothing behind.

Where the source updates things in place, a class with the same fields and methods (`SessionStore.Store`,
`Persistence.Tables`, `SshService.Service`, `ControlManager.Manager`, `LinkBroker.Broker`, `OidcCache.Oidc`,
`LogTail.Buffer`) is proved against the functions the protocols are made of.

## How to read the protocols

A step of a protocol is a total function: one that is not enabled leaves the state as it is, so every sequence of steps
is a run. Outcomes of disks, databases, schedulers, clocks and clients are parameters of the steps.

Assumptions. In the session protocol the clock `utcNow` never repeats, which the code relies on when it uses `UpdatedAt`
as a version; it may step backwards. The broker and the key cache are modelled with a clock that does not run backwards. A locked
cycle with its save is atomic, and a failed save rolls back. In the SSH store, rename, removal, replacement and commit
are atomic and files do not fail; the digest of a key's metadata is any function to 64 hexadecimal characters. It need
not be injective: at most one staged file is pending at any time, which the proofs establish. A control lock is a file
lock that one descriptor holds at a time. Handles of the device-code broker are random and never repeat. Job ids that
sbatch returns are new.

Bookkeeping. Some fields exist only to state properties: `Session.life` numbers the Define that created a record, so that
properties can be stated per life of an id that is deleted and defined again, and `Job.life` says for which life a job was
submitted; `Core.hist` collects every stored version; `World.returned`, `kept`, `cancelled`, `stopFirst` and `lost` record
what happened and only grow, also across a restart; `forgotten` are the jobs the scheduler stopped reporting;
`Store.committed` holds the bytes of the put that committed; `ended`, `slowDowns`, `linked` and `unknownStarts` do the same
for the small protocols. No step decides anything by them, except that numbers of attempts, refreshes and lives, handles,
and job ids are taken to be new. `Core.taken` and `Core.stamped` are not bookkeeping: they are the times the clock has
given, and those among them that a Define has read but not yet stored.

Results that are not what one might expect:

- "Every active run has its capability file" is false in general, for two reasons that have nothing to do with faults.
  In `ReusedIdStrandsARun` the late cleanup of a deleted session removes the file of a new session under the same id that
  is already active; in `ReusedIdIsBornStranded` it removes the file before the new session becomes active, and the
  session is then stored as active without one. `NeverStrandedExactly` is the exact condition over every run whatsoever:
  the property holds at every moment if and only if no step of the run takes the file of a serving run (by one of three
  guards) and no step makes a record active whose file is missing (by the guard of that step); `StrandedExactlyBy` is the
  same for one step. `ActiveRunsHaveTheirCapability` gives a condition on the environment alone under which neither
  happens: an id is defined again only when no process that may still touch its files, and no job that the scheduler still
  reports, is left of its earlier life; the scheduler reports only jobs it accepted; and no reconcile save fails right after
  freezing removed a file.
- A submission script whose first line is the terminator is accepted but sbatch then reads an empty script
  (`DelimiterFirst`, `DelimiterAlone`). `ProgramRoundTrip` shows this to be the only exception.
- Not every host entry can be written as an ssh command. `CommandsSpellExactly` says which can: the host name, or else the
  user, must be able to start a target.
- `stagedSSHName` trims the staging prefix without requiring it. `KeyNames` follows the code; key and tombstone names are
  still never taken for staged ones, because key names have at most 64 characters and do not start with a dot.

## Model

| member | source | states |
|---|---|---|
| `SessionTheorems.NoLostUpdate` | subsystems/session/reconcile.go:104-116 | in every interleaving, a reconcile or stop merge or a submit intent that passes its version check is applied to exactly the record it was computed from |
| `SessionTheorems.VersionsAreUnique` | subsystems/session/lifecycle.go:176-191 | in every run, two stored versions of a session with equal UpdatedAt and State are the same record |
| `SessionTheorems.StopIsSticky` | subsystems/session/reconcile.go:79-243 | between any two moments of any run, within one life and seq a stopping or ended run stays so and Submitting is not re-entered; lives and seqs only grow and the owner stays |
| `SessionTheorems.SeqDiscipline` | subsystems/session/lifecycle.go:144-191 | what one step can do to a record: same seq with a settled run staying settled, one more from a terminal record by the holder of the launch lock, or from 0 to the number of adopted runs; only storing an intent and adopting change a seq |
| `SessionTheorems.LaunchFindsItsRun` | subsystems/session/lifecycle.go:69-142 | from its stored intent to its job record a launch finds its own seq, no record, or a settled record of a later life; every version of a later life was settled, so none was launched, and it is the only launch of its id |
| `SessionTheorems.ReturnedJobsAreSettled` | subsystems/session/lifecycle.go:109-142 | every job id that sbatch ever returned was stored on a Queued record of the id, life and seq it was submitted for, or had scancel issued, or is carried by its launch, or was carried by its launch when the service died; one whose stop had been stored before had scancel issued, is being cancelled, or was carried when the service died |
| `SessionTheorems.FatesAreKept` | subsystems/session/lifecycle.go:109-142 | between any two moments of any run, across restarts, a returned job stays returned to the same intent and its fate stays recorded |
| `SessionTheorems.HistoryOverRuns` | subsystems/session/telemetry.go:452-525 | over every run at most 200 records with distinct (session, seq) and seq at least 1; the history gains in front, loses only from the oldest end when full, and stats arrive once |
| `SessionTheorems.RunsAreSafe` | subsystems/session/lifecycle.go:55-533 | the protocol's invariant holds in every reachable state: versions are unique by stamp and phase, the stored record is the latest, launch locks are exclusive, and every process's snapshot is a stored version |
| `SessionSafety.StepSafe` | subsystems/session/lifecycle.go:55-533 | each step of each operation keeps the invariant and moves records only in the allowed ways |
| `SessionCapability.CapStep` | subsystems/session/tunnel.go:194-237 | each fair step keeps the capability file of every record that is active or could become active |
| `CapabilityTheorems.ActiveRunsHaveTheirCapability` | subsystems/session/tunnel.go:194-237 | each Queued, Starting or Ready record has the capability file of its current seq in every run whose scheduler reports only jobs it accepted, which defines an id again only when nothing of its earlier life is pending, and in which no reconcile save fails after freezing; ids may be reused |
| `CapabilityTheorems.StrandedExactlyBy` | subsystems/session/telemetry.go:493-506 | from every reachable state in which an id is not an active record without its file, a step makes it one if and only if it removes the file of the serving run (a cleanup of an earlier life with the same seq, the release of a launch that gave up, a reconcile save that failed after freezing) or it stores an active record whose file is missing |
| `CapabilityTheorems.NeverStrandedExactly` | subsystems/session/tunnel.go:194-237 | over every run: no moment has an active record without its file if and only if no step of the run meets one of these guards |
| `CapabilityReuse.ReusedIdStrandsARun` | subsystems/session/lifecycle.go:428-449 | a run without any fault in which the deletion of a session removes the file of a new, active session under the same id |
| `CapabilityReuse.ReusedIdIsBornStranded` | subsystems/session/lifecycle.go:428-449 | a run without any fault in which the deletion removes the file first, and the new session is then stored as active without it |
| `CapabilityCleanup.NoFileOutlivesItsRun` | subsystems/session/telemetry.go:480-506 | over every run a capability file is that of the current seq of a record that is not over, or of a launch that has written it and not stored its intent, or its removal failed or was cut short by a restart and it was not removed since; seq 0 never has one |
| `CapabilityCleanup.EndedRunsHaveNoFile` | subsystems/session/telemetry.go:493-506 | a run that is over has no file, unless its removal failed or a launch of the id is writing one |
| `CapabilityCleanup.FilesAppearExactly` | subsystems/session/tunnel.go:194-223 | a file appears in a step if and only if a launch that claimed the record issues the capability of its next seq and it reaches the disk |
| `StopLaws.StopBegins` | subsystems/session/lifecycle.go:338-357 | a stop stores Stopping without error on a run that is not over and changes nothing else of it; it is refused to everyone but the owner |
| `StopLaws.StopEnds` | subsystems/session/lifecycle.go:381-413 | over every run, what the last cycle of a stop leaves: on the record it was computed from the computed phase, job, node and start; the tunnel is gone exactly when its release had no fault; a fault is the error; a failed cleanup shows on an ended run; any other record and any other session is left alone |
| `StopLaws.UndisturbedStop` | subsystems/session/lifecycle.go:329-380 | a stop that nothing disturbs: Stopping at once, capability file and link gone, and the scheduler's answer applied without a link |
| `StopLaws.AbandonedLaunchIsMarked` | subsystems/session/lifecycle.go:451-469 | over every run a launch that gave up marks its record Failed exactly when no stop of that run was ever stored, and Stopped otherwise; every other record is left alone |
| `LaunchRuns.UndisturbedLaunch` | subsystems/session/lifecycle.go:144-191 | a launch by the owner of a session that is over: the run before is recorded, its file gone and the next seq's there, and the record is the next seq with nothing left of the run before but its owner and creation |
| `LaunchRuns.OnlyOwnersOperate` | subsystems/session/lifecycle.go:144-159 | over every run only the owner of a stored session can begin to stop, launch, delete or adopt it; launching and deleting need a run that is over |
| `LaunchRuns.LaunchesStayWithTheirOwner` | subsystems/session/lifecycle.go:144-159 | over every run a launch claims a record of the owner it was begun for, also when the id was defined again since |
| `LaunchRuns.LaunchesEndEarly` | subsystems/session/lifecycle.go:260-276 | a launch that cannot release, clean up or record the run before, or finds the session launched, deleted or someone else's, ends without touching a record |
| `LaunchRuns.FailedIssueIsTakenBack` | subsystems/session/lifecycle.go:161-191 | a launch whose capability could not be issued or whose intent was not stored takes its file back and touches no record |
| `LaunchRuns.UndisturbedSubmission` | subsystems/session/lifecycle.go:100-142 | an accepted submission: the record is Queued with its job, which the scheduler has under the run's name |
| `LaunchRuns.FailedLaunchIsCompensated` | subsystems/session/lifecycle.go:104-118 | a launch whose preparation fails or whose job is refused releases its file and leaves the record Failed with the reason |
| `LaunchRuns.AmbiguousSubmissionIsLeft` | subsystems/session/lifecycle.go:111-114 | a submission of unknown outcome leaves record and file for reconciliation |
| `LaunchRuns.SupersededJobIsCancelled` | subsystems/session/lifecycle.go:120-142 | a job that came back after its run was stopped is stored, cancelled, and the outcome noted |
| `LaunchRuns.ForeignJobIsNotNoted` | subsystems/session/lifecycle.go:237-258 | the outcome of a cancellation is noted only on a record that has that very job and is not Queued |
| `PassRuns.UndisturbedPass` | subsystems/session/reconcile.go:184-270 | a pass over a session that nothing disturbs stores what the laws of passes say of its answer, with a link exactly when the registry has one for the run's own seq; a pass cut short stores nothing |
| `PassRuns.LinkedIsConnected` | subsystems/session/link.go:51-56 | over every run, a run is taken for linked only while a connection of its own id and seq is up |
| `PassRuns.UndisturbedLink` | subsystems/session/link.go:84-111 | a link of a run that is not over replaces the id's link and makes a queued or starting run Ready, keeping an earlier start; other runs are left alone |
| `PassRuns.ClosedLinkIsDropped` | subsystems/session/link.go:112-113 | the end of a connection drops its own link and never a later one |
| `PassRuns.StaleLinkChangesNothing` | subsystems/session/link.go:102-111 | a link that is ready while another seq is stored, or a settled run, leaves the record alone |
| `Retirement.RetiredExactlyWhenOverdue` | subsystems/session/reconcile.go:184-270 | over every sequence of such passes, the session is stopped exactly when some pass came past the window of the record it found, and at most one pass rewrites the record before |
| `Retirement.RetiredInTime` | subsystems/session/reconcile.go:245-270 | with passes that merge within a given lag, a pass later than two windows and one lag leaves the session stopped |
| `Retirement.OverExactlyWhenReported` | subsystems/session/reconcile.go:143-182 | over every sequence of passes that see the job, the run is over exactly when one of them reported an end, Failed exactly when the first of these reported a failure, and a stop in progress stays one until then |
| `PassLaws.PhaseFollowsReports` | subsystems/session/reconcile.go:79-182 | over every sequence of passes that see the job alive, a run that is not being stopped is Ready exactly when it was seen serving (linked, or output in the log while it runs) since it last waited unlinked; otherwise Queued when the last known state was Pending, Starting when it was Running, and unchanged when none was known |
| `PassLaws.UnlinkedRunsFollowTheScheduler` | subsystems/session/reconcile.go:79-95 | without link and log output the phase is Queued exactly when the last known state was Pending, and Starting exactly when it was Running |
| `PassLaws.FieldsFollowReports` | subsystems/session/reconcile.go:143-182 | over every sequence of reports up to the end: the job id is the first one reported, the node the last one, the start that of the first report that it runs, the error that of the last known state; nothing else of the record changes |
| `PassLaws.AbsenceLeavesTheRest` | subsystems/session/reconcile.go:64-77 | passes that find no job change phase and error only: Stopped without error once overdue; before that a stop in progress says why, and output in the log still counts |
| `PassLaws.FailuresEndOnlyTheOutlived` | subsystems/session/reconcile.go:43-62 | over every sequence of passes that cannot reach the scheduler, a run is stopped exactly when one of them came past its walltime and ten minutes; otherwise its phase is kept and the error is the last failure |
| `PassLaws.ClientRunsFollowTheirTunnel` | subsystems/session/reconcile.go:189-196 | over every sequence of passes a client's stop is over after the first, its queued run with a tunnel is Ready with the first healthy answer, which is its start, and every other is left alone |
| `Persistence.Tables.Save` | subsystems/session/persistence.go:60-86 | succeeds exactly when the state meets both primary keys and the commit succeeds, then stores exactly the state; otherwise the tables are unchanged |
| `Persistence.Tables.Load` | subsystems/session/persistence.go:30-58 | succeeds exactly when every payload decodes to its own row, and returns the stored state, runs in their order, from whatever listing the database gives |
| `Persistence.ReachableStatesAreSavable` | subsystems/session/persistence.go:60-86 | no reachable state of the protocol violates a primary key |
| `Persistence.ListingIsUnique` | subsystems/session/query.sql:4-5 | two listings ordered by position with the same rows are equal |
| `RunHistory.RecordRunKeeps` | subsystems/session/telemetry.go:452-463 | recording keeps the history well formed, changes it only by evicting the oldest, and leaves the pair recorded |
| `RunHistory.AttachStatsKeeps` | subsystems/session/telemetry.go:513-525 | late statistics change no record except by filling absent stats |
| `RunHistory.AttachStatsFirst` | subsystems/session/telemetry.go:513-525 | exactly the first record of the pair without stats changes |
| `HistoryLaws.HistoryTellsTheTruth` | subsystems/session/telemetry.go:452-478 | over every run each record of the history tells exactly how a stored version of its session ended - state, error, start, end, launcher, spec, owner - or is a run of an adopted history as it was given |
| `HistoryLaws.EndsAreRecorded` | subsystems/session/telemetry.go:493-506 | over every run the step in which a run ends puts it into the history, unless it is a launch that gave up |
| `HistoryLaws.AdoptionIsWhole` | subsystems/session/lifecycle.go:501-533 | an adoption happens exactly when the owner gives 1 to 50 ended runs for a session that never ran; the record then shows the last of them and the history holds all, the last in front |
| `HistoryLaws.DefinitionIsFresh` | subsystems/session/lifecycle.go:471-499 | a Define creates a session that never ran, of a new life, exactly when the id is free, and otherwise changes nothing |
| `HistoryLaws.DeletionIsWhole` | subsystems/session/lifecycle.go:428-449 | a deletion by the owner of a session that is over removes its record and its file and nothing else; any other is refused |
| `SessionStore.Store.ClaimLaunch` | subsystems/session/lifecycle.go:144-159 | answers the record exactly when it exists, is owned by the caller and is terminal, and which error otherwise |
| `SessionStore.Store.PersistSubmitIntent` | subsystems/session/lifecycle.go:176-191 | stores the intent exactly when stamp, state and owner are those of the claimed record and the save works |
| `SessionStore.Store.RecordSubmittedJob` | subsystems/session/lifecycle.go:207-228 | the stored record and whether the job is superseded; a failed save changes nothing |
| `SessionStore.Store.NoteSupersededCancel` | subsystems/session/lifecycle.go:237-258 | notes the outcome only on a record that still has the job and is not Queued; fails exactly when the save of such a note fails, and then changes nothing |
| `SessionStore.Store.AbandonSubmitIntent` | subsystems/session/lifecycle.go:451-469 | marks only the submitting or stopping record of the same seq and name without a job; fails exactly when that save fails, and then changes nothing |
| `SessionStore.Store.BeginStop` | subsystems/session/lifecycle.go:338-357 | stores Stopping unless the record is terminal, which needs no save; a failed save changes nothing |
| `SessionStore.Store.FinishStop` | subsystems/session/lifecycle.go:381-413 | the merged, released and frozen record and the history; fails exactly when there is something to save and the save fails, and then changes nothing |
| `SessionStore.Store.FreezeIfTerminal` | subsystems/session/telemetry.go:493-506 | a terminal record is recorded, or goes back to Stopping when its capability could not be removed; it reports a change exactly when the record or the history changed |
| `SessionStore.Store.FreezeRun` | subsystems/session/telemetry.go:480-491 | the history gains the run unless a save was needed and failed, and which error is reported |
| `SessionStore.Store.Delete` | subsystems/session/lifecycle.go:428-449 | removes exactly a terminal record of the owner, if the save works |
| `SessionStore.Store.Define` | subsystems/session/lifecycle.go:471-499 | a new record at seq 0 if the save works, or a replay that changes nothing and saves nothing |
| `SessionStore.Store.AdoptRuns` | subsystems/session/lifecycle.go:501-533 | the loop records every run; refused unless the history is valid, the session never ran and the save works |
| `SessionStore.Store.LinkReady` | subsystems/session/link.go:102-111 | a Queued or Starting record of the link's seq becomes Ready, any other stays; fails exactly when that save fails, and then changes nothing |
| `SessionStore.Store.MergePass` | subsystems/session/reconcile.go:254-269 | the loop over the read sessions is the fold of the single merges, and keeps the store valid; it fails exactly when some merge applied and the save failed, and then changes nothing |
| `StoreRefinement.PassRefines` | subsystems/session/reconcile.go:245-270 | from every reachable state of the protocol, the store after a pass is the store after the merge steps of the processes that watched the sessions, all saved or none |
| `SessionStore.Store.AttachRunStats` | subsystems/session/telemetry.go:513-525 | the loop fills the first record of the pair that has no stats; fails exactly when there is one and the save fails, and then changes nothing |
| `KeyNames.NamesAreDisjoint` | subsystems/ssh/keys.go:62-75 | target, staged and tombstone names never coincide, within and between keys |
| `KeyNames.StageDecodes` | subsystems/ssh/keys.go:67-75 | a staged name decodes to its own key name |
| `KeyNames.TombstoneDecodes` | subsystems/ssh/keys.go:106-112 | a tombstone decodes to its own key name and never reads as a staged file |
| `SshSafety.RecoveryNeverRefuses` | subsystems/ssh/keys.go:77-156 | over every run with crashes anywhere, recovery never meets a reason to refuse |
| `SshSafety.IdleAgrees` | subsystems/ssh/keys.go:158-225 | whenever the service is idle: a key row exists exactly when its file exists, the file holds the committed bytes, nothing staged and no tombstone is left, and host entries refer to stored keys of their own principal or to none |
| `SshSafety.IdleConfigs` | subsystems/ssh/persistence.go:64-70 | whenever the service is idle, each config is the rendering of the stored entries and the Runner's scan accepts exactly the stored aliases |
| `SshSafety.CommittedBytesWerePut` | subsystems/ssh/keys.go:158-190 | what is committed for a key are bytes that a put of that key brought |
| `SshSafety.StepKeeps` | subsystems/ssh/persistence.go:124-172 | each step of each operation, of recovery and of rendering keeps the store recoverable |
| `SshSafety.RecoverStep` | subsystems/ssh/keys.go:102-147 | recovery of one entry never fails, and what is pending afterwards is still to be visited |
| `SshService.Service.PutKey` | subsystems/ssh/keys.go:158-190 | stores row and file, or changes nothing; which of the three outcomes it is |
| `SshService.Service.DeleteKey` | subsystems/ssh/persistence.go:229-256 | removes row, file and references and rerenders exactly when the key is stored and the transaction gets through, and otherwise leaves everything as it was |
| `SshService.Service.MutateHosts` | subsystems/ssh/persistence.go:124-227 | succeeds exactly when what it names is stored, or for a new entry is free up to case, its key is empty or stored, and the transaction gets through; entries and config then change together as the caller expects, and otherwise not at all |
| `SshService.Service.ClearReferences` | subsystems/ssh/persistence.go:240-247 | the loop empties exactly the references to the key |
| `SshService.Service.RecoverChanges` | subsystems/ssh/keys.go:77-156 | from any state a crash can leave, the loop ends with exactly the committed files |
| `SshService.Service.ReconcileConfigs` | subsystems/ssh/persistence.go:90-122 | afterwards every config is the rendering of the stored entries |
| `SshService.Service.Restart` | subsystems/ssh/ssh.go:43-48 | recovery and rendering settle the service after any crash |
| `SshEffects.MutationEffect` | subsystems/ssh/persistence.go:186-256 | a committed mutation leaves exactly the entries the caller expects, and other principals untouched |
| `SshEffects.MutationSucceedsExactly` | subsystems/ssh/persistence.go:174-256 | removing and updating succeed if and only if an entry of that name is stored, adding if and only if none is up to case, both with a key only if it is stored; deleting a key if and only if it is stored |
| `SshRuns.PutCompletes` | subsystems/ssh/keys.go:158-190 | from every idle state of every run, an uninterrupted put stores row and file, or changes nothing when the key exists or the insertion fails |
| `SshRuns.MutationCompletes` | subsystems/ssh/persistence.go:124-172 | from every idle state of every run, an uninterrupted mutation has its whole effect if and only if it is granted and the transaction gets through, and otherwise leaves rows, files and configs as they were |
| `SshRuns.AliasesStayApart` | subsystems/ssh/schema.sql:8-9 | over every run with crashes, no two entries of a principal have aliases that differ by case only |
| `SshRuns.IdleConfigsReadBack` | subsystems/ssh/persistence.go:64-70 | whenever the service is idle, the config file read back line by line gives under each stored alias exactly what its entry says, and nothing under any other |
| `HostMeaning.StanzaSays` | subsystems/ssh/config.go:21-48 | for every key, the settings of a stanza give exactly the values the entry says, a key overriding identity options, with keys in order |
| `HostReading.RenderedReadsBack` | subsystems/ssh/config.go:21-48 | reading the rendered text of all entries back line by line gives, under each entry's alias and for every key, exactly the values that entry says, and nothing under any other alias |
| `HostMeaning.StanzasInOrder` | subsystems/ssh/persistence.go:64-70 | rendering takes every entry once, in the order of the aliases |
| `HostConfig.ScanAcceptsExactly` | internal/ssh/exec.go:234-240 | the scan of a rendered config accepts an alias if and only if an entry has it |
| `HostCommand.ParseCommand` | subsystems/ssh/config.go:91-169 | the walk over the fields computes the parse |
| `HostCommand.ParsedIsWellFormed` | subsystems/ssh/config.go:50-169 | whatever is accepted is well formed, keeps the alias and names no key |
| `HostCommand.CommandRoundTrip` | subsystems/ssh/config.go:91-169 | every well-formed entry without a key whose host name can stand alone or behind its user comes back from the command that spells it out |
| `HostCommand.CommandsSpellExactly` | subsystems/ssh/config.go:91-169 | some command gives an entry if and only if it is one of these |
| `HostCommand.AttachedValueIsTheSame` | subsystems/ssh/config.go:112-130 | a value attached to its flag is parsed as one that follows it |
| `HostCommand.JumpIsAnOption` | subsystems/ssh/config.go:131-150 | `-J host` is `-o ProxyJump=host` |
| `HostCommand.CaseOfOptionsIsIgnored` | subsystems/ssh/config.go:138-152 | an option spelled in any case gives the directive in its canonical spelling |
| `HostCommand.ProgramMayBeAPath` | subsystems/ssh/config.go:95-98 | the program named by a path is recognised by its last element |
| `HostCommand.TargetStandsAnywhere` | subsystems/ssh/config.go:100-130 | the target may stand before or after a flag |
| `HostCommand.WhatIsRefused` | subsystems/ssh/config.go:100-130 | a second target is a remote command and refused, as is every other flag; `--` is skipped; no target is refused |
| `HostEntry.OptionsArePlain` | subsystems/ssh/config.go:52-70 | no allowed option reads as a Host line, and no two differ by case only |
| `ControlSafety.OwnershipIsLinear` | internal/ssh/control.go:227-334 | over every run: one active attempt per path, every held descriptor really holds its lock, no lock or process is in two places, none is forgotten |
| `ControlSafety.OwnedIsNeverOverwritten` | internal/ssh/control.go:262-286 | an owned master stays as it is until it is taken out |
| `ControlReuse.MastersLeaveExactly` | internal/ssh/control.go:288-319 | over every run a master is taken out in a step if and only if the closing call sweeps, or an attempt of its own alias finds that its process has exited or its socket does not answer |
| `ControlReuse.ReclaimLeadsTo` | internal/ssh/control.go:288-319 | a live master of the alias that answers is reused: owned masters, processes and locks stay and the attempt ends; another alias fails the attempt; an expired one is to be closed; without one the attempt goes on |
| `ControlReuse.ExpiredIsClosed` | internal/ssh/control.go:300-319 | closing an expired master ends exactly its process and frees exactly its lock |
| `ControlReuse.OwnedMasterRunsOn` | internal/ssh/control.go:262-286 | while a master is owned its lock is held, and its process runs until it exits by itself |
| `ControlReuse.AcquireLeadsTo` | internal/ssh/control.go:321-334 | a healthy answer ends the attempt, an unhealthy one takes the lock if it is free and waits otherwise; no process is started |
| `ControlReuse.OverIsOver` | internal/ssh/control.go:336-449 | an attempt that reused a master or failed never gets a process again |
| `ControlReuse.ProcessesStartExactly` | internal/ssh/control.go:336-449 | a process is started exactly by an attempt that holds the lock of its path, and is new and its own |
| `ControlReuse.FailedAttemptsLeaveNothing` | internal/ssh/control.go:262-286 | an attempt that fails while it prepares, waits for the lock, holds it or runs its process finishes without process, lock or place in `active`, and touches nothing else |
| `ControlReuse.ReusingAttemptsLeaveNothing` | internal/ssh/control.go:262-286 | so does an attempt that found a healthy master |
| `ControlReuse.ChecksPassExactly` | internal/ssh/control.go:227-240 | a call passes the first check exactly when the manager is open and no attempt for its alias and configuration is active |
| `ControlSafety.CounterIsExact` | internal/ssh/control.go:255-286 | the wait group counts exactly the admitted attempts that were not counted off |
| `ControlSafety.RetiredOnce` | internal/ssh/control.go:336-449 | an attempt that was counted off never comes back |
| `ControlSafety.AfterCloseNothingIsLeft` | internal/ssh/control.go:451-487 | once the closing call returned, then and later: no attempt, no master, no process, no lock of ours |
| `ControlSafety.StepKeeps` | internal/ssh/control.go:227-487 | every step keeps ownership linear and the books right |
| `ControlManager.Manager.InProgress` | internal/ssh/control.go:233-238 | the scan finds an attempt with the same alias and configuration exactly when there is one |
| `ControlManager.Manager.Admit` | internal/ssh/control.go:245-259 | admits exactly when open and the path is free |
| `ControlManager.Manager.ReclaimExpired` | internal/ssh/control.go:288-319 | reuses exactly a running master of the alias that answers, fails exactly on another alias, and takes out exactly an expired master of the alias |
| `ControlManager.Manager.Handover` | internal/ssh/control.go:262-286 | hands the master over exactly when open, onto a free path |
| `ControlManager.Manager.SweepMasters` | internal/ssh/control.go:476-486 | the loop reaps and unlocks every master |
| `DeviceBroker.BrokerIsBounded` | subsystems/tunnel/tunnel.go:147-161 | at most 256 entries; the interval is the first one plus 5 seconds per slow_down up to 60; no handle is linked twice |
| `DeviceBroker.PollsAreSpaced` | subsystems/tunnel/tunnel.go:243-285 | a poll goes upstream only for the handle's principal, and the time the poll itself read is at least the current interval after the last answer |
| `DeviceBroker.AnswersAreCounted` | subsystems/tunnel/tunnel.go:263-272 | answers are timed and slow_down answers counted, and nothing else is |
| `DeviceLaws.AuthorizationsLiveExactly` | subsystems/tunnel/tunnel.go:127-161 | over every run an authorization is dropped in a step if and only if it has expired by the time of a start or of its poll, is granted or fails, or the broker is closed |
| `DeviceLaws.PollsGoUpstreamExactly` | subsystems/tunnel/tunnel.go:243-262 | a poll asks the provider exactly when its handle is its principal's, has not expired and is due by the time it read; an expired one is dropped, any other poll just ends |
| `DeviceLaws.UndisturbedStart` | subsystems/tunnel/tunnel.go:188-230 | a start is granted exactly when the principal's last one is a second ago and fewer than 256 authorizations live; the new one expires and is first due as the provider said |
| `DeviceLaws.StartsAreSpaced` | subsystems/tunnel/tunnel.go:192-204 | over every run two starts of a principal are granted at least a second apart, unless the broker was closed between |
| `DeviceLaws.LinkedCredentialsWereGranted` | subsystems/tunnel/tunnel.go:263-285 | over every run the credential a principal is linked with was granted by the provider to a poll of that principal |
| `DeviceLaws.GrantedPollLinks` | subsystems/tunnel/tunnel.go:273-285 | a poll that is granted and saved links exactly that credential and uses the authorization up |
| `DeviceLaws.UnlinkForgets` | subsystems/tunnel/tunnel.go:312-322 | unlinking forgets the credential and waits for a poll of the principal |
| `LinkBroker.Broker.BeginStart` | subsystems/tunnel/tunnel.go:192-204 | cleans up, then admits exactly when the principal may start again and there is room |
| `LinkBroker.Broker.Cleanup` | subsystems/tunnel/tunnel.go:127-138 | exactly the live entries and start times are left |
| `LinkBroker.Broker.FinishPoll` | subsystems/tunnel/tunnel.go:147-161 | removes the entry or sets its interval and next poll time |
| `OidcCache.CacheIsDisciplined` | internal/identity/oidc.go:187-238 | one refresh at a time; refreshes for unknown key ids at least 30 seconds apart; a waiter answered without error has the keys of the refresh it joined or a later one |
| `OidcCache.AnsweredAtOnceExactly` | internal/identity/oidc.go:187-208 | over every run a call is answered at once if and only if it names no key and the last successful refresh is less than 5 minutes old, or its key came with that refresh, or a refresh for an unknown key started less than 30 seconds ago and none runs; it then has the keys of that refresh, and otherwise it waits for the one running refresh |
| `OidcCache.WokenExactly` | internal/identity/oidc.go:209-219 | a call that waited is answered when the refresh it joined ended, not before: with that refresh's or later keys exactly if it succeeded, with an error if it failed |
| `OidcCache.AnswersStay` | internal/identity/oidc.go:195-219 | an answer once given never changes over the rest of the run |
| `OidcCache.KeysAreTheLastFetched` | internal/identity/oidc.go:222-238 | over every run the keys are those of the last refresh that succeeded, with its expiry, and there are none before the first; nothing else changes them |
| `OidcCache.Oidc.Enter` | internal/identity/oidc.go:187-208 | who is answered from the cache, who joins and who starts a refresh |
| `OidcCache.Oidc.EndRefresh` | internal/identity/oidc.go:228-237 | the cache after a refresh |
| `FramedSections.Sections` | internal/ssh/framed.go:12-41 | succeeds exactly when the prefixed lines are the names in order, with the lines between markers as contents |
| `FramedSections.PrintThenParse` | internal/ssh/framed.go:12-41 | printing a banner and prefix-free contents and parsing them gives each content back |
| `StatusMerge.MergeRows` | internal/slurm/slurm.go:414-436 | the loops place the first accounting row of each id, then every queue row |
| `StatusMerge.QueueRowWins` | internal/slurm/slurm.go:429-434 | an id gets its last queue row, when there is one |
| `StatusMerge.AccountingRowOtherwise` | internal/slurm/slurm.go:429-434 | otherwise the first accounting row, unchanged |
| `StatusMerge.QueueKeepsElapsed` | internal/slurm/slurm.go:430-432 | queue rows without elapsed time keep the accounting one |
| `StatusMerge.FoundExactly` | internal/slurm/slurm.go:437-445 | an id is found if and only if one of the listings mentions it |
| `StatusMerge.PlacedByName` | internal/slurm/slurm.go:433-440 | a name is found if and only if a row that took effect has it, and gets the last such row |
| `StatusMerge.AnswersFollowListings` | subsystems/session/reconcile.go:272-294 | a session is missing exactly when its job id, or before it has one its name, is in no listing; it is seen as its own job; a cancel error is heard only about a job to be cancelled |
| `StatusMerge.AnswersTellTheirRow` | subsystems/session/reconcile.go:272-294 | what is heard about a job is its row's id, state, usable node and elapsed time: the last queue row of its id, else the first accounting row, or without an id the last row of its name; and its own cancel message |
| `StatusMerge.Statuses` | internal/slurm/slurm.go:437-450 | each job is looked up by its id, or by its name when it has none |
| `ShellQuoting.ArgumentsRoundTrip` | internal/ssh/exec.go:170 | reading the joined quoted arguments by the shell's rules returns exactly the NUL-free arguments |
| `ShellQuoting.QuoteArguments` | internal/ssh/exec.go:363-373 | the loop quotes and joins every argument |
| `SubmitProgram.Submission` | internal/slurm/slurm.go:305-315 | which scripts are accepted, and the program |
| `SubmitProgram.ProgramRoundTrip` | internal/slurm/slurm.go:303-323 | reading the quoted command line and then the program by the shell's rules, the remote shell exports exactly the environment and becomes exactly sbatch with the job's name and its fixed options; it feeds sbatch exactly the script if and only if the first line is not the terminator |
| `SubmitProgram.AcceptedBody` | internal/slurm/slurm.go:306-313 | for an accepted script the here-document is the script if and only if the first line is not the terminator |
| `SubmitProgram.DelimiterFirst` | internal/slurm/slurm.go:306-313 | an accepted script that begins with the terminator is read as empty |
| `SubmitProgram.DelimiterAlone` | internal/slurm/slurm.go:306-313 | the terminator on a line of its own is such a script: it is accepted and read as empty |
| `LogTail.EvictedIsLongest` | subsystems/session/telemetry.go:186-191 | evicting from the front leaves the longest suffix of at most 100 lines and 64 KiB |
| `LogTail.EvictedStepwise` | subsystems/session/telemetry.go:181-192 | evicting after each line gives the same tail as evicting from the whole history |
| `LogTail.NewestSurvives` | subsystems/session/telemetry.go:128-193 | the newest line is always kept |
| `LogTail.Buffer.Append` | subsystems/session/telemetry.go:170-193 | the buffer is the tail of the whole adjacent-deduplicated history, with an exact byte counter |

## Left out

- HTTP routing, WebSocket framing, yamux, PTY pumping, the Jupyter proxy, CLI flags and service wiring: plumbing over libraries.
- Cryptography, random tokens and hashes: values without structure.
- What remote programs print, apart from framing and status rows: arbitrary answers of the environment.
- Files that fail in the SSH store: a tombstone that could not be removed, followed by a new put of the same name, makes recovery refuse; the fault model excludes it.
- Permissions, links and ownership of files: only atomic replace, rename, remove and exclusive locks are kept.
- Status narration, log collection, metrics and usage figures: cosmetic. Error texts are not truncated in the model.
- The launch lock has one slot per session id in the model; in the source several ids may share a slot, which only removes interleavings.
- A reconcile pass is one process per session in the protocol, so that its merges may also interleave with other cycles; `PassRefines` covers the pass of the source, whose merges share one cycle.
- The Dev Tunnel of a session is only its id; whether the tunnel service deleted it is not modelled.
- An adopted run carries the plane's launcher instead of the empty one; nothing compares it to anything but the client's.
- Unlocked reads are the stored state at one moment.
- Status rows and JSON payloads are taken as parsed values; splitting rows into fields and JSON syntax are not modelled.
- Letters outside ASCII are not case-folded when an ssh option or the program name is compared.
- The listing order of host rows, which rendering sorts again, and the map behind a stanza, which is an association list kept in key order.
- Redaction, terminal sequences and UTF-8 truncation of log lines: any cleaning that keeps lines within 4 KiB.
