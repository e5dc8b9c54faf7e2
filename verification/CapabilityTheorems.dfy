/**
 Which runs of the session protocol keep the capability file of every active run, and which single steps lose one.
 */
module CapabilityTheorems {
  import opened SessionTypes
  import opened Reconciliation
  import opened SessionCycles
  import opened SessionProtocol
  import opened SessionInvariant
  import opened SessionSafety
  import opened SessionCapability
  import opened SessionTheorems

  ghost predicate FairRun(steps: seq<Step>) {
    forall i :: 0 <= i < |steps| ==> Fair(Run(steps[..i]), steps[i])
  }

  lemma {:induction false} FairRunsKeepCapabilities(steps: seq<Step>)
    requires FairRun(steps)
    ensures CapInv(Run(steps))
  {
    if steps != [] {
      var before := steps[..|steps| - 1];
      forall i | 0 <= i < |before| ensures Fair(Run(before[..i]), before[i]) {
        assert before[..i] == steps[..i];
        assert Fair(Run(steps[..i]), steps[i]);
      }
      FairRunsKeepCapabilities(before);
      RunsAreSafe(before);
      assert Fair(Run(steps[..|steps| - 1]), steps[|steps| - 1]);
      CapStep(Run(before), steps[|steps| - 1]);
    }
  }

  /** In every fair run each active record has the capability file of its current seq. */
  lemma ActiveRunsHaveTheirCapability(steps: seq<Step>, id: Id)
    requires FairRun(steps) && id in Run(steps).core.sessions && Active(Run(steps).core.sessions[id].phase)
    ensures (id, Run(steps).core.sessions[id].seqNo) in Run(steps).caps
  {
    FairRunsKeepCapabilities(steps);
    RunsAreSafe(steps);
    assert RecordCap(Run(steps), Run(steps).core.sessions[id]);
  }

  // ----- the steps that lose a capability

  /** A cleanup that removes the file of `snap`, which belongs to an earlier life of the id but has the same seq. */
  predicate LateCleanup(c: Core, snap: Session, id: Id) {
    id in c.sessions && snap.id == id && snap.life < c.sessions[id].life && snap.seqNo == c.sessions[id].seqNo
  }

  predicate RecordEndangers(w: World, step: RecordStep, id: Id) {
    step.DeleteCapability? && step.removed && At(w, step.pid) && w.core.procs[step.pid].Deleting? &&
    LateCleanup(w.core, w.core.procs[step.pid].snap, id)
  }

  predicate StopEndangers(w: World, step: StopStep, id: Id) {
    step.StopRelease? && step.removed && At(w, step.pid) && w.core.procs[step.pid].StopReleasing? &&
    LateCleanup(w.core, w.core.procs[step.pid].snap, id)
  }

  predicate ClaimEndangers(w: World, step: ClaimStep, id: Id) {
    (step.RetireRelease? || step.FreezeRun?) && step.removed && At(w, step.pid) &&
    var q := w.core.procs[step.pid];
    (if step.RetireRelease? then q.Retiring? && q.snap.tunnel != "" else q.Freezing?) && LateCleanup(w.core, q.snap, id)
  }

  /**
   The launch gives up, yet its record became active: the scheduler reported a job that is not of this run. It may be one
   it never took, or one of an earlier life of the id, which carries the same name.
   */
  predicate SubmitEndangers(w: World, step: SubmitStep, id: Id) {
    step.AbandonRelease? && step.removed && At(w, step.pid) && w.core.procs[step.pid].Abandoning? &&
    w.core.procs[step.pid].intent.id == id
  }

  predicate WatchEndangers(w: World, step: WatchStep, id: Id) {
    FailedFreeze(w, step) && w.core.procs[step.pid].snap.id == id
  }

  predicate Endangers(w: World, step: Step, id: Id) {
    match step
    case OnRecord(s) => RecordEndangers(w, s, id)
    case OnStop(s) => StopEndangers(w, s, id)
    case OnClaim(s) => ClaimEndangers(w, s, id)
    case OnSubmit(s) => SubmitEndangers(w, s, id)
    case OnWatch(s) => WatchEndangers(w, s, id)
    case _ => false
  }

  predicate Serving(w: World, id: Id) {
    id in w.core.sessions && Active(w.core.sessions[id].phase) && (id, w.core.sessions[id].seqNo) in w.caps
  }

  predicate Stranded(w: World, id: Id) {
    id in w.core.sessions && Active(w.core.sessions[id].phase) && (id, w.core.sessions[id].seqNo) !in w.caps
  }

  /** A settled version that shares id and seq with an active record is of an earlier life. */
  lemma SettledIsOlder(c: Core, v: Session, id: Id)
    requires Inv(c) && id in c.sessions && Active(c.sessions[id].phase)
    requires v in c.hist && v.id == id && Settled(v.phase) && v.seqNo == c.sessions[id].seqNo
    ensures v.life < c.sessions[id].life
  {
    assert Latest(c.hist, c.sessions[id]);
    assert Precedes(v, c.sessions[id]);
  }

  lemma ActiveHasRun(c: Core, id: Id)
    requires Inv(c) && id in c.sessions && Active(c.sessions[id].phase)
    ensures c.sessions[id].id == id && c.sessions[id] in c.hist && c.sessions[id].seqNo >= 1
  {
    assert Latest(c.hist, c.sessions[id]);
  }

  /** No step takes an active record away or changes its seq. */
  lemma ActiveStays(w: World, step: Step, id: Id)
    requires Inv(w.core) && id in w.core.sessions && Active(w.core.sessions[id].phase)
    ensures var d := Apply(w, step).core; id in d.sessions && d.sessions[id].seqNo == w.core.sessions[id].seqNo
  {
    ActiveHasRun(w.core, id);
    StepSafe(w, step);
    var d := Apply(w, step).core;
    assert id in d.sessions ==> RecordMoves(w.core, w.core.sessions[id], d.sessions[id]);
  }

  lemma RecordStrands(w: World, step: RecordStep, id: Id)
    requires Inv(w.core) && Serving(w, id)
    requires var d := ApplyRecord(w, step).core; id in d.sessions && d.sessions[id].seqNo == w.core.sessions[id].seqNo
    ensures Stranded(ApplyRecord(w, step), id) <==> RecordEndangers(w, step, id)
  {
    if step.DeleteCapability? { DeleteStrands(w, step, id); } else { RecordFiles(w, step); }
  }

  lemma DeleteStrands(w: World, step: RecordStep, id: Id)
    requires Inv(w.core) && Serving(w, id) && step.DeleteCapability?
    ensures Stranded(ApplyRecord(w, step), id) <==> RecordEndangers(w, step, id)
  {
    if At(w, step.pid) && w.core.procs[step.pid].Deleting? {
      assert ProcOk(w.core, w.core.procs[step.pid]);
      if step.removed {} else {}
    }
  }

  lemma RecordFiles(w: World, step: RecordStep)
    requires !step.DeleteCapability?
    ensures ApplyRecord(w, step).caps == w.caps
  {
  }

  lemma ReleaseStrands(w: World, step: StopStep, id: Id)
    requires Inv(w.core) && Serving(w, id) && step.StopRelease?
    ensures Stranded(ApplyStop(w, step), id) <==> StopEndangers(w, step, id)
  {
    if At(w, step.pid) && w.core.procs[step.pid].StopReleasing? {
      var s := w.core.procs[step.pid].snap;
      assert ProcOk(w.core, w.core.procs[step.pid]);
      if s.id == id && s.seqNo == w.core.sessions[id].seqNo { SettledIsOlder(w.core, s, id); }
    }
  }

  /** A stop's snapshot is settled, so what it merges onto a record that is not leaves the phase alone. */
  lemma StopLeavesActive(c: Core, snap: Session, cand: Session, note: string, now: int)
    requires Inv(c) && snap.id in c.sessions && Settled(snap.phase)
    ensures var s := c.sessions[snap.id]; var m := StopMerged(s, snap, cand, note, now);
            m.id == snap.id && (!Settled(s.phase) ==> m.phase == s.phase)
  {
  }

  lemma FreezeKeepsFile(w: World, m: Session, removed: bool, id: Id)
    requires Serving(w, id) && (m.id == id ==> !Terminal(m.phase))
    ensures (id, w.core.sessions[id].seqNo) in FreezeCapability(w, m, removed).caps
  {
  }

  lemma StopFinishFiles(w: World, pid: Pid, now: int, removed: bool, cleanup: string, trace: string, saved: bool)
    requires now !in w.core.taken && At(w, pid) && w.core.procs[pid].StopFinishing?
    ensures var q := w.core.procs[pid];
            DoStopFinish(w, pid, now, removed, cleanup, trace, saved).caps ==
            (if q.snap.id !in w.core.sessions then w.caps
             else FreezeCapability(w, StopMerged(w.core.sessions[q.snap.id], q.snap, q.cand, q.note, now), removed).caps)
  {
    if saved {} else {}
  }

  lemma StopFinishKeepsFile(w: World, pid: Pid, now: int, removed: bool, cleanup: string, trace: string, saved: bool, id: Id)
    requires Inv(w.core) && Serving(w, id)
    ensures (id, w.core.sessions[id].seqNo) in DoStopFinish(w, pid, now, removed, cleanup, trace, saved).caps
  {
    if now !in w.core.taken && At(w, pid) && w.core.procs[pid].StopFinishing? {
      var q := w.core.procs[pid];
      assert ProcOk(w.core, q);
      StopFinishFiles(w, pid, now, removed, cleanup, trace, saved);
      if q.snap.id in w.core.sessions {
        StopLeavesActive(w.core, q.snap, q.cand, q.note, now);
        FreezeKeepsFile(w, StopMerged(w.core.sessions[q.snap.id], q.snap, q.cand, q.note, now), removed, id);
      }
    }
  }

  lemma StopStrands(w: World, step: StopStep, id: Id)
    requires Inv(w.core) && Serving(w, id)
    requires var d := ApplyStop(w, step).core; id in d.sessions && d.sessions[id].seqNo == w.core.sessions[id].seqNo
    ensures Stranded(ApplyStop(w, step), id) <==> StopEndangers(w, step, id)
  {
    match step
    case StopRelease(_, _, _) => ReleaseStrands(w, step, id);
    case StopFinish(pid, now, removed, note, trace, saved) => StopFinishKeepsFile(w, pid, now, removed, note, trace, saved, id);
    case _ =>
  }

  lemma CleanupStrands(w: World, step: ClaimStep, id: Id)
    requires Inv(w.core) && Serving(w, id)
    requires step.RetireRelease? || step.FreezeRun?
    ensures Stranded(ApplyClaim(w, step), id) <==> ClaimEndangers(w, step, id)
  {
    ActiveHasRun(w.core, id);
    if At(w, step.pid) && (w.core.procs[step.pid].Retiring? || w.core.procs[step.pid].Freezing?) {
      var s := w.core.procs[step.pid].snap;
      assert ProcOk(w.core, w.core.procs[step.pid]);
      if s.id == id && s.seqNo == w.core.sessions[id].seqNo { SettledIsOlder(w.core, s, id); }
    }
  }

  /** A launch that was refused removes its file while no run of the id is active. */
  lemma UnissueKeepsFile(w: World, pid: Pid, removed: bool, id: Id)
    requires Inv(w.core) && Serving(w, id)
    ensures (id, w.core.sessions[id].seqNo) in DoUnissue(w, pid, removed).caps
  {
    if At(w, pid) { assert ProcOk(w.core, w.core.procs[pid]); }
  }

  lemma ClaimStrands(w: World, step: ClaimStep, id: Id)
    requires Inv(w.core) && Serving(w, id)
    requires var d := ApplyClaim(w, step).core; id in d.sessions && d.sessions[id].seqNo == w.core.sessions[id].seqNo
    ensures Stranded(ApplyClaim(w, step), id) <==> ClaimEndangers(w, step, id)
  {
    match step
    case RetireRelease(_, _, _) => CleanupStrands(w, step, id);
    case FreezeRun(_, _, _, _) => CleanupStrands(w, step, id);
    case Unissue(pid, removed) => UnissueKeepsFile(w, pid, removed, id);
    case Persist(pid, saved) => PersistFiles(w, pid, saved);
    case _ =>
  }

  lemma PersistFiles(w: World, pid: Pid, saved: bool)
    ensures DoPersist(w, pid, saved).caps == w.caps
  {
  }

  lemma AbandonStrands(w: World, step: SubmitStep, id: Id)
    requires Inv(w.core) && Serving(w, id) && step.AbandonRelease?
    ensures Stranded(ApplySubmit(w, step), id) <==> SubmitEndangers(w, step, id)
  {
    if At(w, step.pid) && w.core.procs[step.pid].Abandoning? {
      assert ProcOk(w.core, w.core.procs[step.pid]);
      assert OwnRun(w.core.sessions, w.core.procs[step.pid].intent);
    }
  }

  lemma SubmitFiles(w: World, step: SubmitStep)
    requires !step.AbandonRelease?
    ensures ApplySubmit(w, step).caps == w.caps
  {
  }

  lemma SubmitStrands(w: World, step: SubmitStep, id: Id)
    requires Inv(w.core) && Serving(w, id)
    requires var d := ApplySubmit(w, step).core; id in d.sessions && d.sessions[id].seqNo == w.core.sessions[id].seqNo
    ensures Stranded(ApplySubmit(w, step), id) <==> SubmitEndangers(w, step, id)
  {
    if step.AbandonRelease? { AbandonStrands(w, step, id); } else { SubmitFiles(w, step); }
  }

  /** What a merge that applies does to the record and to the files. */
  lemma MergeShape(w: World, step: WatchStep, id: Id)
    requires Inv(w.core) && step.MergeWatched? && step.now !in w.core.taken
    requires At(w, step.pid) && w.core.procs[step.pid].Watched? && w.core.procs[step.pid].snap.id == id
    requires var q := w.core.procs[step.pid]; id in w.core.sessions && MergeApplies(w.core.sessions[id], q.snap, q.cand)
    ensures var q := w.core.procs[step.pid];
            var d := ApplyWatch(w, step);
            var m := Merge(q.snap, q.snap, q.cand, step.now);
            && w.core.sessions[id] == q.snap && m.id == id && m.seqNo == q.snap.seqNo && m.phase == q.cand.phase
            && d.caps == FreezeCapability(w, m, step.removed).caps
            && d.core.sessions == (if step.saved then w.core.sessions[id := Frozen(m, step.removed, step.note)] else w.core.sessions)
  {
    var q := w.core.procs[step.pid];
    assert ProcOk(w.core, q);
    SnapshotIsCurrent(w.core, q.snap);
    if step.saved {} else {}
  }

  /** A saved freeze leaves no active record behind, an unsaved one leaves the record as it was. */
  lemma FreezeStrands(w: World, d: World, m: Session, removed: bool, note: string, saved: bool, id: Id)
    requires Serving(w, id) && m.id in w.core.sessions && m.seqNo == w.core.sessions[m.id].seqNo && w.core.sessions[id].seqNo != 0
    requires d.caps == FreezeCapability(w, m, removed).caps
    requires d.core.sessions == (if saved then w.core.sessions[m.id := Frozen(m, removed, note)] else w.core.sessions)
    ensures Stranded(d, id) <==> m.id == id && !saved && removed && Terminal(m.phase)
  {
    if m.id != id {} else if saved {} else {}
  }

  lemma MergeStrands(w: World, step: WatchStep, id: Id)
    requires Inv(w.core) && Serving(w, id) && step.MergeWatched? && step.now !in w.core.taken
    requires At(w, step.pid) && w.core.procs[step.pid].Watched?
    requires var q := w.core.procs[step.pid];
             q.snap.id in w.core.sessions && MergeApplies(w.core.sessions[q.snap.id], q.snap, q.cand)
    ensures Stranded(ApplyWatch(w, step), id) <==> WatchEndangers(w, step, id)
  {
    ActiveHasRun(w.core, id);
    var q := w.core.procs[step.pid];
    MergeShape(w, step, q.snap.id);
    FreezeStrands(w, ApplyWatch(w, step), Merge(q.snap, q.snap, q.cand, step.now), step.removed, step.note, step.saved, id);
  }

  lemma WatchStrands(w: World, step: WatchStep, id: Id)
    requires Inv(w.core) && Serving(w, id)
    requires var d := ApplyWatch(w, step).core; id in d.sessions && d.sessions[id].seqNo == w.core.sessions[id].seqNo
    ensures Stranded(ApplyWatch(w, step), id) <==> WatchEndangers(w, step, id)
  {
    if step.MergeWatched? && step.now !in w.core.taken && At(w, step.pid) && w.core.procs[step.pid].Watched? {
      var q := w.core.procs[step.pid];
      if q.snap.id in w.core.sessions && MergeApplies(w.core.sessions[q.snap.id], q.snap, q.cand) {
        MergeStrands(w, step, id);
      }
    }
  }

  lemma LinkFiles(w: World, step: LinkStep)
    ensures ApplyLink(w, step).caps == w.caps
  {
  }

  lemma StepStrands(w: World, step: Step, id: Id)
    requires Inv(w.core) && Serving(w, id)
    ensures Stranded(Apply(w, step), id) <==> Endangers(w, step, id)
  {
    ActiveStays(w, step, id);
    match step
    case OnRecord(s) => RecordStrands(w, s, id);
    case OnStop(s) => StopStrands(w, s, id);
    case OnClaim(s) => ClaimStrands(w, s, id);
    case OnSubmit(s) => SubmitStrands(w, s, id);
    case OnWatch(s) => WatchStrands(w, s, id);
    case OnLink(s) => LinkFiles(w, s);
    case _ =>
  }

  // ----- the steps that make a record active without its file

  predicate ActiveAt(w: World, id: Id) { id in w.core.sessions && Active(w.core.sessions[id].phase) }

  /** A client's intent is stored as Queued. */
  predicate ClaimActivates(w: World, step: ClaimStep, id: Id) {
    step.Persist? && step.saved && At(w, step.pid) && w.core.procs[step.pid].Issued? &&
    var q := w.core.procs[step.pid];
    q.launcher == Client && q.intent.id == id && q.prev.id in w.core.sessions && IntentApplies(w.core.sessions[q.prev.id], q.prev)
  }

  /** A submitting record gets its job and becomes Queued. */
  predicate SubmitActivates(w: World, step: SubmitStep, id: Id) {
    step.Record? && step.saved && step.now !in w.core.taken && At(w, step.pid) && w.core.procs[step.pid].Returned? &&
    w.core.procs[step.pid].intent.id == id && id in w.core.sessions && w.core.sessions[id].phase == Submitting
  }

  /** A pass that saw the job of a submitting record stores what it computed. */
  predicate WatchActivates(w: World, step: WatchStep, id: Id) {
    step.MergeWatched? && step.saved && step.now !in w.core.taken && At(w, step.pid) && w.core.procs[step.pid].Watched? &&
    var q := w.core.procs[step.pid];
    q.snap.id == id && id in w.core.sessions && MergeApplies(w.core.sessions[id], q.snap, q.cand) &&
    w.core.sessions[id].phase == Submitting && Active(q.cand.phase)
  }

  /** The guard of the step that makes the record of an id active, while the file of the run is missing. */
  predicate BornWithoutFile(w: World, step: Step, id: Id) {
    match step
    case OnClaim(s) => ClaimActivates(w, s, id) && (id, w.core.procs[s.pid].intent.seqNo) !in w.caps
    case OnSubmit(s) => SubmitActivates(w, s, id) && (id, w.core.sessions[id].seqNo) !in w.caps
    case OnWatch(s) => WatchActivates(w, s, id) && (id, w.core.sessions[id].seqNo) !in w.caps
    case _ => false
  }

  lemma RecordStepsActivateNone(w: World, step: RecordStep, id: Id)
    requires !ActiveAt(w, id)
    ensures !ActiveAt(ApplyRecord(w, step), id)
  {
  }

  lemma StopMergedActivatesNone(c: Core, snap: Session, cand: Session, note: string, now: int, removed: bool, cleanup: string)
    requires Inv(c) && snap in c.hist && snap.id in c.sessions && Settled(snap.phase) && Computed(snap, cand)
    ensures var s := c.sessions[snap.id]; var r := Frozen(StopMerged(s, snap, cand, note, now), removed, cleanup);
            r.id == snap.id && (!Active(s.phase) ==> !Active(r.phase))
  {
    StopMergedFollows(c, snap, cand, note, now);
    StopLeavesActive(c, snap, cand, note, now);
  }

  lemma StopFinishActivatesNone(w: World, pid: Pid, now: int, removed: bool, cleanup: string, trace: string, saved: bool, id: Id)
    requires Inv(w.core) && !ActiveAt(w, id)
    ensures !ActiveAt(DoStopFinish(w, pid, now, removed, cleanup, trace, saved), id)
  {
    if now !in w.core.taken && At(w, pid) && w.core.procs[pid].StopFinishing? {
      var q := w.core.procs[pid];
      assert ProcOk(w.core, q);
      if q.snap.id !in w.core.sessions {
      } else if saved {
        StopMergedActivatesNone(w.core, q.snap, q.cand, q.note, now, removed, cleanup);
      } else {
      }
    }
  }

  lemma StopStepsActivateNone(w: World, step: StopStep, id: Id)
    requires Inv(w.core) && !ActiveAt(w, id)
    ensures !ActiveAt(ApplyStop(w, step), id)
  {
    match step
    case StopFinish(pid, now, removed, note, trace, saved) => StopFinishActivatesNone(w, pid, now, removed, note, trace, saved, id);
    case _ =>
  }

  lemma PersistActivates(w: World, pid: Pid, saved: bool, id: Id)
    requires Inv(w.core) && !ActiveAt(w, id)
    ensures ActiveAt(DoPersist(w, pid, saved), id) <==> ClaimActivates(w, Persist(pid, saved), id)
    ensures ClaimActivates(w, Persist(pid, saved), id) ==>
              DoPersist(w, pid, saved).core.sessions[id].seqNo == w.core.procs[pid].intent.seqNo
  {
    if At(w, pid) && w.core.procs[pid].Issued? {
      var q := w.core.procs[pid];
      assert ProcOk(w.core, q);
      if saved && q.prev.id in w.core.sessions && IntentApplies(w.core.sessions[q.prev.id], q.prev) {
        if q.launcher == Plane {} else {}
      } else {
      }
    }
  }

  lemma ClaimStepsActivate(w: World, step: ClaimStep, id: Id)
    requires Inv(w.core) && !ActiveAt(w, id)
    ensures Stranded(ApplyClaim(w, step), id) <==> BornWithoutFile(w, OnClaim(step), id)
  {
    match step
    case Persist(pid, saved) => PersistActivates(w, pid, saved, id); PersistFiles(w, pid, saved);
    case _ => ClaimStepsLeaveSessions(w, step);
  }

  lemma ClaimStepsLeaveSessions(w: World, step: ClaimStep)
    requires !step.Persist?
    ensures ApplyClaim(w, step).core.sessions == w.core.sessions
  {
    match step
    case Retire(pid, _, id, _) =>
    case RetireRelease(pid, _, _) => if At(w, pid) && w.core.procs[pid].Retiring? {}
    case FreezeRun(pid, _, _, _) => if At(w, pid) && w.core.procs[pid].Freezing? {}
    case Lock(pid) =>
    case Claim(pid) =>
    case Issue(pid, _, _, now, _, _) => if now !in w.core.taken && At(w, pid) && w.core.procs[pid].Claimed? {}
    case Unissue(pid, _) =>
  }

  lemma SubmitStepsActivate(w: World, step: SubmitStep, id: Id)
    requires Inv(w.core) && !ActiveAt(w, id)
    ensures Stranded(ApplySubmit(w, step), id) <==> BornWithoutFile(w, OnSubmit(step), id)
  {
    match step
    case Record(pid, now, saved) => RecordActivates(w, pid, now, saved, id);
    case Abandon(pid, now, saved) => AbandonActivatesNone(w, pid, now, saved, id);
    case Note(pid, now, saved) => NoteActivatesNone(w, pid, now, saved, id);
    case _ => SubmitStepsLeaveSessions(w, step);
  }

  lemma SubmitStepsLeaveSessions(w: World, step: SubmitStep)
    requires step.Provision? || step.Submit? || step.AbandonRelease? || step.Scancel?
    ensures ApplySubmit(w, step).core.sessions == w.core.sessions
  {
  }

  lemma RecordActivates(w: World, pid: Pid, now: int, saved: bool, id: Id)
    requires Inv(w.core) && !ActiveAt(w, id)
    ensures Stranded(DoRecord(w, pid, now, saved), id) <==> BornWithoutFile(w, OnSubmit(Record(pid, now, saved)), id)
  {
    if now !in w.core.taken && At(w, pid) && w.core.procs[pid].Returned? {
      RecordShape(w, pid, now, saved);
      var q := w.core.procs[pid];
      if saved && q.intent.id in w.core.sessions {
        assert w.core.sessions[q.intent.id].id == q.intent.id;
        if Superseded(SubmittedJob(w.core.sessions[q.intent.id], q.jobId, now)) {} else {}
      } else {
      }
    }
  }

  lemma AbandonActivatesNone(w: World, pid: Pid, now: int, saved: bool, id: Id)
    requires Inv(w.core) && !ActiveAt(w, id)
    ensures !ActiveAt(DoAbandon(w, pid, now, saved), id)
  {
    if now !in w.core.taken && At(w, pid) && w.core.procs[pid].Abandoned? {
      var q := w.core.procs[pid];
      if saved && q.intent.id in w.core.sessions && AbandonApplies(w.core.sessions[q.intent.id], q.intent) {
        assert w.core.sessions[q.intent.id].id == q.intent.id;
      } else {
      }
    }
  }

  lemma NoteActivatesNone(w: World, pid: Pid, now: int, saved: bool, id: Id)
    requires Inv(w.core) && !ActiveAt(w, id)
    ensures !ActiveAt(DoNote(w, pid, now, saved), id)
  {
    if now !in w.core.taken && At(w, pid) && w.core.procs[pid].Noting? {
      var q := w.core.procs[pid];
      if saved && q.intent.id in w.core.sessions && CancelNoteApplies(w.core.sessions[q.intent.id], q.jobId) {
        assert w.core.sessions[q.intent.id].id == q.intent.id;
      } else {
      }
    }
  }

  lemma FreezeActivates(w: World, d: World, m: Session, removed: bool, note: string, saved: bool, id: Id)
    requires !ActiveAt(w, id) && m.id in w.core.sessions && m.seqNo == w.core.sessions[m.id].seqNo
    requires Settled(w.core.sessions[m.id].phase) ==> Settled(m.phase)
    requires d.caps == FreezeCapability(w, m, removed).caps
    requires d.core.sessions == (if saved then w.core.sessions[m.id := Frozen(m, removed, note)] else w.core.sessions)
    ensures Stranded(d, id) <==>
            m.id == id && saved && w.core.sessions[id].phase == Submitting && Active(m.phase) && (id, m.seqNo) !in w.caps
  {
    if m.id != id {} else if saved {} else {}
  }

  /** What a merge computes for a record: settled stays settled. */
  lemma MergedStaysSettled(c: Core, pid: Pid)
    requires Inv(c) && pid in c.procs && c.procs[pid].Watched?
    ensures var q := c.procs[pid]; Settled(q.snap.phase) ==> Settled(q.cand.phase)
  {
    assert ProcOk(c, c.procs[pid]);
  }

  lemma MergeActivates(w: World, step: WatchStep, id: Id)
    requires Inv(w.core) && !ActiveAt(w, id) && step.MergeWatched? && step.now !in w.core.taken
    requires At(w, step.pid) && w.core.procs[step.pid].Watched?
    requires var q := w.core.procs[step.pid];
             q.snap.id in w.core.sessions && MergeApplies(w.core.sessions[q.snap.id], q.snap, q.cand)
    ensures Stranded(ApplyWatch(w, step), id) <==> BornWithoutFile(w, OnWatch(step), id)
  {
    var q := w.core.procs[step.pid];
    MergedStaysSettled(w.core, step.pid);
    MergeShape(w, step, q.snap.id);
    FreezeActivates(w, ApplyWatch(w, step), Merge(q.snap, q.snap, q.cand, step.now), step.removed, step.note, step.saved, id);
  }

  lemma WatchStepsActivate(w: World, step: WatchStep, id: Id)
    requires Inv(w.core) && !ActiveAt(w, id)
    ensures Stranded(ApplyWatch(w, step), id) <==> BornWithoutFile(w, OnWatch(step), id)
  {
    match step
    case Watch(pid, _) =>
    case Observe(pid, _, _, _, _) => if At(w, pid) && w.core.procs[pid].Watching? {}
    case MergeWatched(pid, now, _, _, _, _) =>
      if now !in w.core.taken && At(w, pid) && w.core.procs[pid].Watched? {
        var q := w.core.procs[pid];
        if q.snap.id in w.core.sessions && MergeApplies(w.core.sessions[q.snap.id], q.snap, q.cand) { MergeActivates(w, step, id); }
      }
  }

  lemma LinkStepsActivateNone(w: World, step: LinkStep, id: Id)
    requires Inv(w.core) && !ActiveAt(w, id)
    ensures !ActiveAt(ApplyLink(w, step), id)
  {
    match step
    case LinkReady(pid, now, saved) =>
      if now !in w.core.taken && At(w, pid) && w.core.procs[pid].Registered? {
        var s := w.core.procs[pid].snap;
        if saved && s.id in w.core.sessions && LinkApplies(w.core.sessions[s.id], s.seqNo) {
          assert w.core.sessions[s.id].id == s.id;
        } else {
        }
      }
    case _ =>
  }

  lemma StepActivates(w: World, step: Step, id: Id)
    requires Inv(w.core) && !ActiveAt(w, id)
    ensures Stranded(Apply(w, step), id) <==> BornWithoutFile(w, step, id)
  {
    match step
    case OnRecord(s) => RecordStepsActivateNone(w, s, id);
    case OnStop(s) => StopStepsActivateNone(w, s, id);
    case OnClaim(s) => ClaimStepsActivate(w, s, id);
    case OnSubmit(s) => SubmitStepsActivate(w, s, id);
    case OnWatch(s) => WatchStepsActivate(w, s, id);
    case OnLink(s) => LinkStepsActivateNone(w, s, id);
    case _ =>
  }

  /** A record that is already active is not made active. */
  lemma ActiveIsNotBorn(w: World, step: Step, id: Id)
    requires Inv(w.core) && ActiveAt(w, id)
    ensures !BornWithoutFile(w, step, id)
  {
    if step.OnClaim? && step.claim.Persist? && At(w, step.claim.pid) && w.core.procs[step.claim.pid].Issued? {
      assert ProcOk(w.core, w.core.procs[step.claim.pid]);
    }
  }

  // ----- exactly which steps, exactly which runs

  /**
   The step takes the file of a serving run - by a late cleanup of an earlier life of its id, by the release of a launch
   that gave up while the scheduler claimed to hold its job, or by a reconcile cycle whose save failed after freezing -
   or it makes a record active whose file is already gone.
   */
  predicate Strands(w: World, step: Step, id: Id) {
    (Serving(w, id) && Endangers(w, step, id)) || BornWithoutFile(w, step, id)
  }

  /** One step, from any reachable state in which the id is not stranded. */
  lemma StrandedExactlyBy(steps: seq<Step>, step: Step, id: Id)
    requires !Stranded(Run(steps), id)
    ensures Stranded(Run(steps + [step]), id) <==> Strands(Run(steps), step, id)
  {
    RunsAreSafe(steps);
    assert (steps + [step])[..|steps|] == steps;
    StrandedStep(Run(steps), step, id);
  }

  lemma StrandedStep(w: World, step: Step, id: Id)
    requires Inv(w.core) && !Stranded(w, id)
    ensures Stranded(Apply(w, step), id) <==> Strands(w, step, id)
  {
    if ActiveAt(w, id) {
      StepStrands(w, step, id);
      ActiveIsNotBorn(w, step, id);
    } else {
      StepActivates(w, step, id);
    }
  }

  lemma PrefixStep(steps: seq<Step>, i: nat)
    requires i < |steps|
    ensures Run(steps[..i + 1]) == Apply(Run(steps[..i]), steps[i])
  {
    assert steps[..i + 1][..i] == steps[..i];
  }

  lemma {:induction false} NotStrandedUpTo(steps: seq<Step>, id: Id, i: nat)
    requires i <= |steps| && forall k :: 0 <= k < |steps| ==> !Strands(Run(steps[..k]), steps[k], id)
    ensures !Stranded(Run(steps[..i]), id)
  {
    if i == 0 {
      assert steps[..0] == [];
    } else {
      NotStrandedUpTo(steps, id, i - 1);
      RunsAreSafe(steps[..i - 1]);
      PrefixStep(steps, i - 1);
      StrandedStep(Run(steps[..i - 1]), steps[i - 1], id);
    }
  }

  /** Every run whatsoever keeps an id from being stranded at every moment if and only if none of its steps strands it. */
  lemma NeverStrandedExactly(steps: seq<Step>, id: Id)
    ensures (forall i :: 0 <= i <= |steps| ==> !Stranded(Run(steps[..i]), id)) <==>
            (forall i :: 0 <= i < |steps| ==> !Strands(Run(steps[..i]), steps[i], id))
  {
    if forall i :: 0 <= i < |steps| ==> !Strands(Run(steps[..i]), steps[i], id) {
      forall i | 0 <= i <= |steps| ensures !Stranded(Run(steps[..i]), id) { NotStrandedUpTo(steps, id, i); }
    }
    if forall i :: 0 <= i <= |steps| ==> !Stranded(Run(steps[..i]), id) {
      forall i | 0 <= i < |steps| ensures !Strands(Run(steps[..i]), steps[i], id) {
        assert !Stranded(Run(steps[..i]), id) && !Stranded(Run(steps[..i + 1]), id);
        RunsAreSafe(steps[..i]);
        PrefixStep(steps, i);
        StrandedStep(Run(steps[..i]), steps[i], id);
      }
    }
  }
}
