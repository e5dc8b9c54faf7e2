/**
 The record each locked cycle of the session subsystem computes from the record it found
 (subsystems/session/lifecycle.go, link.go, telemetry.go). The store methods and the protocol both use these.
 */
module SessionCycles {
  import opened SessionTypes
  import opened Reconciliation
  import opened RunHistory

  /** One run of an adopted history. */
  datatype FinishedRun = FinishedRun(finalPhase: Phase, error: string, startedAt: Option<int>, endedAt: Option<int>,
                                     stats: Option<RunStats>, samples: nat, trace: string)

  const MAX_SAMPLES := 20

  /** The state a locked cycle loads and saves. */
  datatype Db = Db(sessions: map<Id, Session>, runs: seq<RunRecord>)

  function Defined(id: Id, life: nat, owner: Principal, spec: Spec, createdAt: int, now: int): Session {
    Session(id, life, owner, 0, Stopped, Plane, spec, "", createdAt, None, now, "", "", Unnamed, "")
  }

  predicate AdoptableRuns(history: seq<FinishedRun>) {
    1 <= |history| <= 50 &&
    forall i :: 0 <= i < |history| ==>
                  Terminal(history[i].finalPhase) && history[i].endedAt.Some? && history[i].samples <= MAX_SAMPLES
  }

  function Adopted(s: Session, history: seq<FinishedRun>, createdAt: Option<int>, now: int): Session
    requires AdoptableRuns(history)
  {
    var last := history[|history| - 1];
    s.(seqNo := |history|, phase := last.finalPhase, error := last.error, startedAt := last.startedAt,
       createdAt := (if createdAt.Some? then createdAt.value else s.createdAt), updatedAt := now)
  }

  /** An adopted record carries no launcher; like `Plane`, that keeps it apart from a client's run. */
  function AdoptedRun(s: Session, run: FinishedRun, seqNo: nat): RunRecord
    requires run.endedAt.Some?
  {
    RunRecord(s.id, seqNo, s.owner, Plane, s.spec, run.finalPhase, run.error, run.startedAt, run.endedAt.value,
              run.stats, run.trace)
  }

  function AdoptedRuns(s: Session, history: seq<FinishedRun>): seq<RunRecord>
    requires AdoptableRuns(history)
  {
    seq(|history|, i requires 0 <= i < |history| => AdoptedRun(s, history[i], i + 1))
  }

  /** The intent of a launch: the seq after `previous`, in the same life, under the stamp taken before issuing. */
  function Intent(launcher: Launcher, spec: Spec, previous: Session, tunnel: string, stamp: int): Session {
    Session(previous.id, previous.life, previous.owner, previous.seqNo + 1,
            if launcher == Plane then Submitting else Queued, launcher, spec, "", previous.createdAt, None, stamp,
            tunnel, "", JobName(previous.id, previous.seqNo + 1), "")
  }

  /** The check that guards the submit intent. */
  predicate IntentApplies(existing: Session, previous: Session) {
    existing.updatedAt == previous.updatedAt && existing.phase == previous.phase && existing.owner == previous.owner
  }

  function SubmittedJob(s: Session, jobId: string, now: int): Session {
    s.(jobId := jobId, phase := if s.phase == Submitting then Queued else s.phase, updatedAt := now)
  }

  /** A returned job is superseded unless its record is now Queued. */
  predicate Superseded(recorded: Session) { recorded.phase != Queued }

  predicate CancelNoteApplies(s: Session, jobId: string) { s.jobId == jobId && s.phase != Queued }

  function CancelNoted(s: Session, diagnostic: string, now: int): Session {
    s.(error := diagnostic, updatedAt := now)
  }

  predicate AbandonApplies(s: Session, intent: Session) {
    s.seqNo == intent.seqNo && s.jobName == intent.jobName && s.jobId == "" && (s.phase == Submitting || s.phase == Stopping)
  }

  function AbandonedIntent(s: Session, fault: string, now: int): Session {
    s.(phase := if s.phase == Submitting then Failed else Stopped, tunnel := "", error := fault, updatedAt := now)
  }

  function StopStored(s: Session, now: int): Session {
    s.(phase := Stopping, error := "", updatedAt := now)
  }

  /** The last cycle of a stop, before freezing: merge the candidate, then note the tunnel's release or its fault. */
  function StopMerged(s: Session, snapshot: Session, candidate: Session, fault: string, now: int): Session {
    var merged := Merge(s, snapshot, candidate, now);
    if merged.seqNo == snapshot.seqNo && merged.tunnel == snapshot.tunnel then
      if fault != "" then merged.(error := fault, updatedAt := now)
      else if snapshot.tunnel != "" then merged.(tunnel := "", updatedAt := now)
      else merged
    else merged
  }

  predicate StopStamps(s: Session, snapshot: Session, candidate: Session, fault: string) {
    MergeApplies(s, snapshot, candidate) ||
    (s.seqNo == snapshot.seqNo && s.tunnel == snapshot.tunnel && (fault != "" || snapshot.tunnel != ""))
  }

  predicate LinkApplies(s: Session, seqNo: nat) {
    s.seqNo == seqNo && (s.phase == Queued || s.phase == Starting)
  }

  function LinkedReady(s: Session, now: int): Session {
    s.(phase := Ready, error := "", updatedAt := now, startedAt := OrTime(s.startedAt, now))
  }

  // ----- freezing: the run of a terminal record is written to the history and its capability removed

  function RunOf(s: Session, trace: string): RunRecord {
    RunRecord(s.id, s.seqNo, s.owner, s.launcher, s.spec, s.phase, s.error, s.startedAt, s.updatedAt, None, trace)
  }

  function CleanupPending(s: Session, fault: string): Session {
    s.(phase := Stopping, error := "session cleanup pending: " + fault)
  }

  /** Seq 0 never has a capability file, so removing it cannot fail. */
  predicate RemovalFails(s: Session, removed: bool) { s.seqNo != 0 && !removed }

  /** The record after freezing; `removed` says whether the capability file could be removed. */
  function Frozen(s: Session, removed: bool, fault: string): Session {
    if Terminal(s.phase) && RemovalFails(s, removed) then CleanupPending(s, fault) else s
  }

  function FrozenRuns(runs: seq<RunRecord>, s: Session, removed: bool, trace: string): seq<RunRecord> {
    if Terminal(s.phase) && !RemovalFails(s, removed) then RecordRun(runs, RunOf(s, trace)) else runs
  }

  /** One session's share of a reconciliation pass: what was read, what was computed, and the faults of freezing. */
  datatype Watch = Watch(snapshot: Session, candidate: Session, now: int, removed: bool, fault: string, trace: string)

  function MergeOne(db: Db, w: Watch): Db {
    if w.snapshot.id !in db.sessions then db
    else
      var current := db.sessions[w.snapshot.id];
      if !MergeApplies(current, w.snapshot, w.candidate) then db
      else
        var merged := Merge(current, w.snapshot, w.candidate, w.now);
        Db(db.sessions[w.snapshot.id := Frozen(merged, w.removed, w.fault)],
           FrozenRuns(db.runs, merged, w.removed, w.trace))
  }

  function MergeAll(db: Db, ws: seq<Watch>): Db {
    if ws == [] then db else MergeOne(MergeAll(db, ws[..|ws| - 1]), ws[|ws| - 1])
  }

  predicate MergesOne(db: Db, w: Watch) {
    w.snapshot.id in db.sessions && MergeApplies(db.sessions[w.snapshot.id], w.snapshot, w.candidate)
  }

  /** Some merge of the pass applies, so that the pass is saved. */
  predicate MergesSome(db: Db, ws: seq<Watch>) {
    ws != [] && (MergesSome(db, ws[..|ws| - 1]) || MergesOne(MergeAll(db, ws[..|ws| - 1]), ws[|ws| - 1]))
  }

  lemma {:induction false} NothingMerged(db: Db, ws: seq<Watch>)
    requires !MergesSome(db, ws)
    ensures MergeAll(db, ws) == db
  {
    if ws != [] { NothingMerged(db, ws[..|ws| - 1]); }
  }

  /** Freezing has something to save exactly when it changes the record or the history. */
  predicate FreezeChanges(runs: seq<RunRecord>, s: Session, removed: bool) {
    Terminal(s.phase) && (RemovalFails(s, removed) || (s.seqNo != 0 && !Recorded(runs, s.id, s.seqNo)))
  }

  lemma FreezeChangesExactly(runs: seq<RunRecord>, s: Session, removed: bool, fault: string, trace: string)
    ensures FreezeChanges(runs, s, removed) <==> Frozen(s, removed, fault) != s || FrozenRuns(runs, s, removed, trace) != runs
  {
    var r := RunOf(s, trace);
    if FreezeChanges(runs, s, removed) && !RemovalFails(s, removed) {
      assert RecordRun(runs, r)[0] == r;
      assert runs != [] ==> !Records(runs[0], s.id, s.seqNo);
    }
  }

  /** Every way of freezing keeps the history well formed. */
  lemma FreezeKeepsHistory(runs: seq<RunRecord>, s: Session, removed: bool, trace: string)
    requires WellFormed(runs)
    ensures WellFormed(FrozenRuns(runs, s, removed, trace)) && Evolves(runs, FrozenRuns(runs, s, removed, trace))
  {
    RecordRunKeeps(runs, RunOf(s, trace));
    assert EvolvesBy(runs, runs, 0);
  }
}
