/**
 Capability files. A run that may be serving (Queued, Starting or Ready) has its capability file, in every run of the
 protocol whose scheduler reports only jobs it accepted, in which an id is defined again only when nothing of its earlier
 life is left, and in which no save fails after freezing removed a file.
 */
module SessionCapability {
  import opened SessionTypes
  import opened Reconciliation
  import opened SessionCycles
  import opened SessionProtocol
  import opened SessionInvariant
  import opened SessionSafety

  function JobOf(s: Session): Job { Job(s.jobName, s.life) }

  predicate Named(accepted: map<string, Job>, job: Job) {
    exists j :: j in accepted && accepted[j] == job
  }

  /** What is known about a stored version: the job id of a submitting one is an accepted job of its own run. */
  predicate VersionCap(w: World, v: Session) {
    (v.jobName.Unnamed? || (v.seqNo >= 1 && v.jobName == JobName(v.id, v.seqNo))) &&
    (v.phase == Submitting && v.jobId != "" ==> v.jobId in w.accepted && w.accepted[v.jobId] == JobOf(v))
  }

  /** A record that is active, or could become active because the scheduler took its job, has its capability. */
  predicate RecordCap(w: World, s: Session) {
    Active(s.phase) || (s.phase == Submitting && Named(w.accepted, JobOf(s))) ==> (s.id, s.seqNo) in w.caps
  }

  /** Between its intent and sbatch a launch's job is unknown to the scheduler, so its record cannot be active. */
  predicate JobUnknown(w: World, intent: Session) {
    && intent.jobName == JobName(intent.id, intent.seqNo) && !Named(w.accepted, JobOf(intent))
    && (intent.id in w.core.sessions && w.core.sessions[intent.id].life == intent.life ==>
          w.core.sessions[intent.id].jobName == intent.jobName && !Active(w.core.sessions[intent.id].phase))
  }

  /** The record under the id of `s`, if there is one, is of the same life. */
  predicate SameLife(w: World, s: Session) { s.id in w.core.sessions ==> w.core.sessions[s.id].life == s.life }

  predicate Current(w: World, s: Session) { s.id in w.core.sessions && w.core.sessions[s.id] == s }

  predicate ProcCap(w: World, q: Proc) {
    match q
    case Retiring(_, snap) => SameLife(w, snap)
    case Freezing(_, snap) => SameLife(w, snap)
    case StopReleasing(snap) => SameLife(w, snap)
    case Deleting(snap) => SameLife(w, snap)
    case Issued(_, prev, intent) => Current(w, prev) ==> (intent.id, intent.seqNo) in w.caps
    case Submitted(intent) => SameLife(w, intent) && JobUnknown(w, intent) && FileInPlace(w, intent)
    case Provisioned(intent) => SameLife(w, intent) && JobUnknown(w, intent) && FileInPlace(w, intent)
    case Abandoning(intent) => JobUnknown(w, intent)
    case Abandoned(intent, _) => JobUnknown(w, intent)
    case Returned(intent, jobId) =>
      && jobId in w.accepted && w.accepted[jobId] == JobOf(intent)
      && (intent.id in w.core.sessions && w.core.sessions[intent.id].life == intent.life ==>
            w.core.sessions[intent.id].jobName == intent.jobName)
    case Watched(snap, cand) =>
      Current(w, snap) ==>
        && (snap.phase == Submitting && Active(cand.phase) ==> Named(w.accepted, JobOf(snap)))
        && (cand.phase == Submitting && cand.jobId != "" ==> cand.jobId in w.accepted && w.accepted[cand.jobId] == JobOf(cand))
    case _ => true
  }

  predicate FileInPlace(w: World, intent: Session) {
    intent.id in w.core.sessions && w.core.sessions[intent.id].phase == Submitting ==> (intent.id, intent.seqNo) in w.caps
  }

  /** An accepted job names a run that was launched; one the scheduler still reports is of the life that is stored. */
  predicate NameCap(w: World, j: string) {
    j in w.accepted &&
    var job := w.accepted[j];
    && job.name.JobName? && job.life < w.core.nextLife
    && (job.name.id in w.core.sessions && w.core.sessions[job.name.id].life == job.life ==>
          job.name.seqNo <= w.core.sessions[job.name.id].seqNo)
    && (job.name.id in w.core.sessions && j !in w.forgotten ==> w.core.sessions[job.name.id].life == job.life)
  }

  predicate CapState(w: World) {
    && (forall v :: v in w.core.hist ==> VersionCap(w, v))
    && (forall id :: id in w.core.sessions ==> RecordCap(w, w.core.sessions[id]))
    && (forall j :: j in w.accepted ==> NameCap(w, j))
  }

  predicate CapInv(w: World) {
    CapState(w) && forall p :: p in w.core.procs ==> ProcCap(w, w.core.procs[p])
  }

  // ----- the runs considered

  /** The scheduler answers about a session only with a job it took and reports: the session's own, or one of its name. */
  predicate HonestAnswer(w: World, s: Session, a: Answer) {
    a.Seen? ==>
      && a.observation.jobId != "" && a.observation.jobId in w.accepted && a.observation.jobId !in w.forgotten
      && (if s.jobId != "" then a.observation.jobId == s.jobId else w.accepted[a.observation.jobId].name == s.jobName)
  }

  /** A process that may still remove a file of its run or submit its job. */
  predicate MayTouch(q: Proc) {
    q.Retiring? || q.Freezing? || q.StopReleasing? || q.Deleting? || q.Submitted? || q.Provisioned?
  }

  /** Nothing of an earlier life of the id is pending: no such process, and no job the scheduler reports. */
  predicate NothingLeft(w: World, id: Id) {
    && (forall p :: p in w.core.procs && MayTouch(w.core.procs[p]) ==> ProcId(w.core.procs[p]) != id)
    && (forall j :: j in w.accepted && j !in w.forgotten && w.accepted[j].name.JobName? ==> w.accepted[j].name.id != id)
  }

  predicate Honest(w: World, step: Step) {
    && (step.OnRecord? && step.record.Define? ==> step.record.id in w.core.sessions || NothingLeft(w, step.record.id))
    && (step.OnWatch? && step.watch.Observe? && At(w, step.watch.pid) && w.core.procs[step.watch.pid].Watching? ==>
          HonestAnswer(w, w.core.procs[step.watch.pid].snap, step.watch.answer))
  }

  /** The one fault that matters: the save fails in the cycle whose freezing just removed the file of an unsettled run. */
  predicate FailedFreeze(w: World, step: WatchStep) {
    && step.MergeWatched? && !step.saved && step.removed && step.now !in w.core.taken
    && At(w, step.pid) && w.core.procs[step.pid].Watched?
    && var q := w.core.procs[step.pid];
       && q.snap.id in w.core.sessions && MergeApplies(w.core.sessions[q.snap.id], q.snap, q.cand)
       && !Settled(w.core.sessions[q.snap.id].phase) && Terminal(q.cand.phase)
  }

  predicate Fair(w: World, step: Step) { Honest(w, step) && (step.OnWatch? ==> !FailedFreeze(w, step.watch)) }

  // ----- effects

  predicate SameFiles(w: World, d: World) { d.caps == w.caps && d.accepted == w.accepted && d.forgotten == w.forgotten }

  /** Only the processes change. */
  lemma ProcsCap(w: World, d: World, pid: Pid)
    requires CapInv(w) && d.core.sessions == w.core.sessions && d.core.hist == w.core.hist && SameFiles(w, d)
    requires d.core.nextLife == w.core.nextLife
    requires forall p :: p in d.core.procs && p != pid ==> p in w.core.procs && d.core.procs[p] == w.core.procs[p]
    requires pid in d.core.procs ==> ProcCap(d, d.core.procs[pid])
    ensures CapInv(d)
  {
    forall v | v in d.core.hist ensures VersionCap(d, v) { assert VersionCap(w, v); }
    forall id | id in d.core.sessions ensures RecordCap(d, d.core.sessions[id]) { assert RecordCap(w, w.core.sessions[id]); }
    forall j | j in d.accepted ensures NameCap(d, j) { assert NameCap(w, j); }
    forall p | p in d.core.procs && p != pid ensures ProcCap(d, d.core.procs[p]) { assert ProcCap(w, w.core.procs[p]); }
  }

  /** A removal of a past run's file: an older seq, or the current seq once it is settled. */
  predicate StaleTarget(c: Core, id: Id, seqNo: nat) {
    id in c.sessions ==> seqNo <= c.sessions[id].seqNo && (seqNo == c.sessions[id].seqNo ==> Settled(c.sessions[id].phase))
  }

  lemma StaleRecord(w: World, id: Id, seqNo: nat, s: Session)
    requires RecordCap(w, s) && (s.id == id ==> seqNo <= s.seqNo && (seqNo == s.seqNo ==> Settled(s.phase)))
    ensures RecordCap(RemoveCapability(w, id, seqNo, true), s)
  {
  }

  lemma StaleProc(w: World, id: Id, seqNo: nat, q: Proc)
    requires Inv(w.core) && ProcOk(w.core, q) && ProcCap(w, q) && StaleTarget(w.core, id, seqNo)
    ensures ProcCap(RemoveCapability(w, id, seqNo, true), q)
  {
    if q.Submitted? || q.Provisioned? {
      assert OwnRun(w.core.sessions, q.intent);
    }
  }

  lemma StaleRemovalCap(w: World, id: Id, seqNo: nat, removed: bool)
    requires Inv(w.core) && CapInv(w) && (removed ==> StaleTarget(w.core, id, seqNo))
    ensures CapInv(RemoveCapability(w, id, seqNo, removed))
  {
    if removed {
      var d := RemoveCapability(w, id, seqNo, true);
      forall v | v in d.core.hist ensures VersionCap(d, v) { assert VersionCap(w, v); }
      forall i | i in d.core.sessions ensures RecordCap(d, d.core.sessions[i]) { StaleRecord(w, id, seqNo, w.core.sessions[i]); }
      forall j | j in d.accepted ensures NameCap(d, j) { assert NameCap(w, j); }
      forall p | p in d.core.procs ensures ProcCap(d, d.core.procs[p]) { StaleProc(w, id, seqNo, w.core.procs[p]); }
    }
  }

  /** A settled version of the current life names a past run, because settled runs stay settled. */
  lemma SettledIsStale(w: World, s: Session)
    requires Inv(w.core) && SameLife(w, s) && s in w.core.hist && Settled(s.phase)
    ensures StaleTarget(w.core, s.id, s.seqNo)
  {
    if s.id in w.core.sessions {
      assert Latest(w.core.hist, w.core.sessions[s.id]);
      assert Precedes(s, w.core.sessions[s.id]);
    }
  }

  /** A run that is not active and whose job the scheduler does not know. */
  predicate Dormant(w: World, id: Id) {
    id in w.core.sessions ==> !Active(w.core.sessions[id].phase) &&
                              (w.core.sessions[id].phase == Submitting ==> !Named(w.accepted, JobOf(w.core.sessions[id])))
  }

  lemma LockedState(w: World, id: Id, seqNo: nat)
    requires Inv(w.core) && CapState(w) && Dormant(w, id)
    ensures CapState(RemoveCapability(w, id, seqNo, true))
  {
    var d := RemoveCapability(w, id, seqNo, true);
    forall v | v in d.core.hist ensures VersionCap(d, v) { assert VersionCap(w, v); }
    forall i | i in d.core.sessions ensures RecordCap(d, d.core.sessions[i]) { assert RecordCap(w, w.core.sessions[i]); }
    forall j | j in d.accepted ensures NameCap(d, j) { assert NameCap(w, j); }
  }

  lemma LockedProc(w: World, id: Id, seqNo: nat, q: Proc)
    requires ProcOk(w.core, q) && ProcCap(w, q) && (HoldsLock(q) ==> ProcId(q) != id)
    ensures ProcCap(RemoveCapability(w, id, seqNo, true), q)
  {
  }

  /** A removal by the holder of the launch lock, of a run that cannot become active. */
  lemma LockedRemovalCap(w: World, id: Id, seqNo: nat, removed: bool)
    requires Inv(w.core) && CapInv(w) && LockFree(w.core.procs, id) && Dormant(w, id)
    ensures CapInv(RemoveCapability(w, id, seqNo, removed))
  {
    if removed {
      var d := RemoveCapability(w, id, seqNo, true);
      LockedState(w, id, seqNo);
      forall p | p in d.core.procs ensures ProcCap(d, d.core.procs[p]) {
        assert ProcCap(w, w.core.procs[p]) && ProcOk(w.core, w.core.procs[p]);
        LockedProc(w, id, seqNo, w.core.procs[p]);
      }
    }
  }

  lemma EnterCap(w: World, d: World, pid: Pid, q: Proc)
    requires CapInv(w) && SameFiles(w, d) && d.core == Enter(w.core, pid, q) && ProcCap(d, q)
    ensures CapInv(d)
  {
    ProcsCap(w, d, pid);
  }

  lemma LeaveCap(w: World, d: World, pid: Pid)
    requires CapInv(w) && SameFiles(w, d) && d.core == Leave(w.core, pid)
    ensures CapInv(d)
  {
    ProcsCap(w, d, pid);
  }

  /** A revision that makes a submitting record active is backed by a job of its name. */
  predicate Backed(w: World, s: Session, r: Session) {
    && (s.phase == Submitting && Active(r.phase) ==> Named(w.accepted, JobOf(s)))
    && (r.phase == Submitting && r.jobId != "" ==> r.jobId in w.accepted && w.accepted[r.jobId] == JobOf(r))
  }

  lemma RevisedRecord(w: World, s: Session, r: Session)
    requires RecordCap(w, s) && Follows(s, r) && Backed(w, s, r)
    ensures RecordCap(w, r)
  {
  }

  /** A revision leaves a launch's job unknown and its file in place. */
  lemma RevisedIntent(w: World, d: World, r: Session, intent: Session)
    requires r.id in w.core.sessions && d.core.sessions == w.core.sessions[r.id := r] && d.caps == w.caps && d.accepted == w.accepted
    requires Follows(w.core.sessions[r.id], r) && Backed(w, w.core.sessions[r.id], r)
    ensures JobUnknown(w, intent) ==> JobUnknown(d, intent)
    ensures FileInPlace(w, intent) ==> FileInPlace(d, intent)
  {
  }

  lemma RevisedProc(w: World, d: World, r: Session, q: Proc)
    requires ProcOk(w.core, q) && ProcCap(w, q) && r.id in w.core.sessions
    requires d.core.sessions == w.core.sessions[r.id := r] && d.caps == w.caps && d.accepted == w.accepted
    requires Follows(w.core.sessions[r.id], r) && Backed(w, w.core.sessions[r.id], r)
    requires r == w.core.sessions[r.id] || r !in w.core.hist || Stopping == r.phase
    ensures ProcCap(d, q)
  {
    match q
    case Submitted(intent) => RevisedIntent(w, d, r, intent);
    case Provisioned(intent) => RevisedIntent(w, d, r, intent);
    case Abandoning(intent) => RevisedIntent(w, d, r, intent);
    case Abandoned(intent, _) => RevisedIntent(w, d, r, intent);
    case _ =>
  }

  /** Storing one record: what it must satisfy for the state part of the invariant. */
  lemma PutState(w: World, d: World, r: Session)
    requires CapState(w) && d.core.sessions == w.core.sessions[r.id := r] && d.core.hist == w.core.hist + {r}
    requires SameFiles(w, d) && d.core.nextLife >= w.core.nextLife && VersionCap(d, r) && RecordCap(d, r)
    requires r.id in w.core.sessions && w.core.sessions[r.id].life == r.life && w.core.sessions[r.id].seqNo <= r.seqNo
    ensures CapState(d)
  {
    forall v | v in d.core.hist ensures VersionCap(d, v) { assert v in w.core.hist ==> VersionCap(w, v); }
    forall i | i in d.core.sessions ensures RecordCap(d, d.core.sessions[i]) {
      assert i != r.id ==> RecordCap(w, w.core.sessions[i]);
    }
    forall j | j in d.accepted ensures NameCap(d, j) { assert NameCap(w, j); }
  }

  lemma ReviseCap(w: World, d: World, pid: Pid, r: Session, now: int, q: Option<Proc>)
    requires Inv(w.core) && CapInv(w) && r.id in w.core.sessions
    requires Follows(w.core.sessions[r.id], r) && Backed(w, w.core.sessions[r.id], r) && r.life < w.core.nextLife
    requires r == w.core.sessions[r.id] || r !in w.core.hist || Stopping == r.phase
    requires SameFiles(w, d) && d.core == Store(w.core, pid, r, now, q) && (q.Some? ==> ProcCap(d, q.value))
    ensures CapInv(d)
  {
    var s := w.core.sessions[r.id];
    assert s in w.core.hist && s.id == r.id;
    assert VersionCap(w, s);
    RevisedRecord(w, s, r);
    PutState(w, d, r);
    forall p | p in d.core.procs && p != pid ensures ProcCap(d, d.core.procs[p]) { RevisedProc(w, d, r, w.core.procs[p]); }
  }

  lemma OtherProc(w: World, d: World, r: Session, q: Proc)
    requires ProcOk(w.core, q) && ProcCap(w, q) && d.caps == w.caps && d.accepted == w.accepted
    requires d.core.sessions == w.core.sessions[r.id := r] && r !in w.core.hist
    requires r.id in w.core.sessions && w.core.sessions[r.id].life == r.life
    requires HoldsLock(q) ==> ProcId(q) != r.id
    ensures ProcCap(d, q)
  {
  }

  /** A stored intent has its file, and the scheduler cannot know its job yet. */
  lemma LaunchState(w: World, d: World, launcher: Launcher, prev: Session, intent: Session)
    requires CapState(w) && prev.id in w.core.sessions && w.core.sessions[prev.id] == prev && prev in w.core.hist
    requires IntentOk(launcher, prev, intent) && (intent.id, intent.seqNo) in w.caps
    requires d.core.sessions == w.core.sessions[intent.id := intent] && d.core.hist == w.core.hist + {intent}
    requires SameFiles(w, d) && d.core.nextLife >= w.core.nextLife
    ensures CapState(d) && (launcher == Plane ==> ProcCap(d, Submitted(intent)))
  {
    assert VersionCap(w, prev);
    NotYetNamed(w, prev, intent);
    PutState(w, d, intent);
  }

  /** Every job of this life belongs to an earlier seq. */
  lemma NotYetNamed(w: World, prev: Session, intent: Session)
    requires CapState(w) && Current(w, prev) && intent.life == prev.life && intent.jobName == JobName(prev.id, prev.seqNo + 1)
    ensures !Named(w.accepted, JobOf(intent))
  {
    forall j | j in w.accepted ensures w.accepted[j] != JobOf(intent) { assert NameCap(w, j); }
  }

  lemma LaunchProcs(w: World, d: World, pid: Pid, r: Session)
    requires Inv(w.core) && CapInv(w) && pid in w.core.procs && HoldsLock(w.core.procs[pid]) && ProcId(w.core.procs[pid]) == r.id
    requires SameFiles(w, d) && d.core.sessions == w.core.sessions[r.id := r] && r !in w.core.hist
    requires r.id in w.core.sessions && w.core.sessions[r.id].life == r.life
    requires forall p :: p in d.core.procs && p != pid ==> p in w.core.procs && d.core.procs[p] == w.core.procs[p]
    ensures forall p :: p in d.core.procs && p != pid ==> ProcCap(d, d.core.procs[p])
  {
    HolderIsAlone(w.core, pid);
    forall p | p in d.core.procs && p != pid ensures ProcCap(d, d.core.procs[p]) {
      assert p in w.core.procs - {pid} && ProcCap(w, w.core.procs[p]) && ProcOk(w.core, w.core.procs[p]);
      OtherProc(w, d, r, w.core.procs[p]);
    }
  }

  lemma LaunchedCap(w: World, d: World, pid: Pid, launcher: Launcher, prev: Session, intent: Session)
    requires Inv(w.core) && CapInv(w) && pid in w.core.procs && w.core.procs[pid] == Issued(launcher, prev, intent)
    requires prev.id in w.core.sessions && w.core.sessions[prev.id] == prev && SameFiles(w, d)
    requires d.core.sessions == w.core.sessions[intent.id := intent] && d.core.hist == w.core.hist + {intent}
    requires forall p :: p in d.core.procs && p != pid ==> p in w.core.procs && d.core.procs[p] == w.core.procs[p]
    requires pid in d.core.procs ==> launcher == Plane && d.core.procs[pid] == Submitted(intent)
    requires d.core.nextLife >= w.core.nextLife
    ensures CapInv(d)
  {
    assert ProcOk(w.core, w.core.procs[pid]) && ProcCap(w, w.core.procs[pid]);
    LaunchState(w, d, launcher, prev, intent);
    LaunchProcs(w, d, pid, intent);
  }

  lemma LaunchCap(w: World, d: World, pid: Pid, launcher: Launcher, prev: Session, intent: Session)
    requires Inv(w.core) && CapInv(w) && pid in w.core.procs && w.core.procs[pid] == Issued(launcher, prev, intent)
    requires prev.id in w.core.sessions && w.core.sessions[prev.id] == prev && SameFiles(w, d)
    requires d.core == Store(w.core, pid, intent, intent.updatedAt, if launcher == Plane then Some(Submitted(intent)) else None)
    ensures CapInv(d)
  {
    if launcher == Plane {
      LaunchedCap(w, d, pid, launcher, prev, intent);
    } else {
      LaunchedCap(w, d, pid, launcher, prev, intent);
    }
  }

  /** A launch that stored its intent is not of the life of a record that never ran. */
  lemma AdoptedIsOther(c: Core, intent: Session, id: Id)
    requires Sent(c, intent) && id in c.sessions && c.sessions[id].seqNo == 0
    ensures intent.id != id || intent.life != c.sessions[id].life
  {
  }

  lemma AdoptedProc(w: World, d: World, r: Session, q: Proc)
    requires ProcOk(w.core, q) && ProcCap(w, q) && r.id in w.core.sessions && w.core.sessions[r.id].life == r.life
    requires w.core.sessions[r.id].seqNo == 0 && Terminal(r.phase) && r !in w.core.hist
    requires d.core.sessions == w.core.sessions[r.id := r] && d.caps == w.caps && d.accepted == w.accepted
    ensures ProcCap(d, q)
  {
    match q
    case Submitted(intent) => AdoptedIsOther(w.core, intent, r.id);
    case Provisioned(intent) => AdoptedIsOther(w.core, intent, r.id);
    case Abandoning(intent) => AdoptedIsOther(w.core, intent, r.id);
    case Abandoned(intent, _) => AdoptedIsOther(w.core, intent, r.id);
    case Returned(intent, _) => AdoptedIsOther(w.core, intent, r.id);
    case _ =>
  }

  lemma AdoptCap(w: World, id: Id, principal: Principal, history: seq<FinishedRun>, born: Option<int>, now: int)
    requires Inv(w.core) && CapInv(w)
    ensures CapInv(DoAdopt(w, id, principal, history, born, now))
  {
    var d := DoAdopt(w, id, principal, history, born, now);
    if d != w {
      var s := w.core.sessions[id];
      var r := Adopted(s, history, born, now);
      assert Latest(w.core.hist, s) && VersionCap(w, s);
      PutState(w, d, r);
      forall p | p in d.core.procs ensures ProcCap(d, d.core.procs[p]) { AdoptedProc(w, d, r, w.core.procs[p]); }
    }
  }

  lemma BornState(w: World, d: World, r: Session)
    requires CapState(w) && NothingLeft(w, r.id) && r.life == w.core.nextLife && r.phase == Stopped && r.jobName.Unnamed?
    requires d.core.sessions == w.core.sessions[r.id := r] && d.core.hist == w.core.hist + {r}
    requires SameFiles(w, d) && d.core.nextLife > w.core.nextLife
    ensures CapState(d)
  {
    forall v | v in d.core.hist ensures VersionCap(d, v) { assert v in w.core.hist ==> VersionCap(w, v); }
    forall i | i in d.core.sessions ensures RecordCap(d, d.core.sessions[i]) {
      assert i != r.id ==> RecordCap(w, w.core.sessions[i]);
    }
    forall j | j in d.accepted ensures NameCap(d, j) { assert NameCap(w, j); }
  }

  lemma BornProc(w: World, d: World, r: Session, q: Proc)
    requires Inv(w.core) && ProcOk(w.core, q) && ProcCap(w, q) && r !in w.core.hist && r.life == w.core.nextLife && r.phase == Stopped
    requires d.core.sessions == w.core.sessions[r.id := r] && d.caps == w.caps && d.accepted == w.accepted
    requires MayTouch(q) ==> ProcId(q) != r.id
    ensures ProcCap(d, q)
  {
  }

  lemma DefineCap(w: World, id: Id, principal: Principal, spec: Spec, createdAt: int, stamp: int)
    requires Inv(w.core) && CapInv(w) && (id in w.core.sessions || NothingLeft(w, id))
    ensures CapInv(DoDefine(w, id, principal, spec, createdAt, stamp))
  {
    if stamp in w.core.stamped {
      var d := DoDefine(w, id, principal, spec, createdAt, stamp);
      if id in w.core.sessions {
        SameCap(w, d);
      } else {
        var r := Defined(id, w.core.nextLife, principal, spec, createdAt, stamp);
        assert Unused(w.core.hist, stamp);
        BornState(w, d, r);
        forall p | p in d.core.procs ensures ProcCap(d, d.core.procs[p]) {
          assert ProcOk(w.core, w.core.procs[p]) && ProcCap(w, w.core.procs[p]);
          BornProc(w, d, r, w.core.procs[p]);
        }
      }
    }
  }

  lemma DeleteCap(w: World, pid: Pid, id: Id, principal: Principal)
    requires Inv(w.core) && CapInv(w)
    ensures CapInv(DoDelete(w, pid, id, principal))
  {
    var d := DoDelete(w, pid, id, principal);
    if d != w {
      forall v | v in d.core.hist ensures VersionCap(d, v) { assert VersionCap(w, v); }
      forall i | i in d.core.sessions ensures RecordCap(d, d.core.sessions[i]) { assert RecordCap(w, w.core.sessions[i]); }
      forall j | j in d.accepted ensures NameCap(d, j) { assert NameCap(w, j); }
      forall p | p in d.core.procs && p != pid ensures ProcCap(d, d.core.procs[p]) { assert ProcCap(w, w.core.procs[p]); }
    }
  }

  lemma NamedMore(accepted: map<string, Job>, jobId: string, job: Job, other: Job)
    requires jobId !in accepted
    ensures Named(accepted[jobId := job], other) <==> Named(accepted, other) || other == job
  {
    if other == job { assert jobId in accepted[jobId := job]; }
    if Named(accepted, other) {
      var j :| j in accepted && accepted[j] == other;
      assert j in accepted[jobId := job];
    }
  }

  lemma AcceptState(w: World, d: World, pid: Pid, jobId: string)
    requires Inv(w.core) && CapInv(w) && pid in w.core.procs && w.core.procs[pid].Provisioned? && jobId !in w.accepted
    requires d == w.(accepted := w.accepted[jobId := JobOf(w.core.procs[pid].intent)], core := Leave(w.core, pid))
    ensures CapState(d)
  {
    var intent := w.core.procs[pid].intent;
    assert ProcOk(w.core, w.core.procs[pid]) && ProcCap(w, w.core.procs[pid]);
    assert VersionCap(w, intent);
    forall v | v in d.core.hist ensures VersionCap(d, v) { assert VersionCap(w, v); }
    forall i | i in d.core.sessions ensures RecordCap(d, d.core.sessions[i]) {
      var s := w.core.sessions[i];
      assert RecordCap(w, s) && Latest(w.core.hist, s) && VersionCap(w, s);
      NamedMore(w.accepted, jobId, JobOf(intent), JobOf(s));
    }
    forall j | j in d.accepted ensures NameCap(d, j) { assert j != jobId ==> NameCap(w, j); }
  }

  lemma AcceptedProc(w: World, d: World, jobId: string, intent: Session, q: Proc)
    requires ProcCap(w, q) && jobId !in w.accepted && d.accepted == w.accepted[jobId := JobOf(intent)] && d.caps == w.caps
    requires d.core.sessions == w.core.sessions && intent.jobName == JobName(intent.id, intent.seqNo)
    requires HoldsLock(q) ==> ProcId(q) != intent.id
    ensures ProcCap(d, q)
  {
    match q
    case Submitted(i) => NamedMore(w.accepted, jobId, JobOf(intent), JobOf(i));
    case Provisioned(i) => NamedMore(w.accepted, jobId, JobOf(intent), JobOf(i));
    case Abandoning(i) => NamedMore(w.accepted, jobId, JobOf(intent), JobOf(i));
    case Abandoned(i, _) => NamedMore(w.accepted, jobId, JobOf(intent), JobOf(i));
    case Watched(snap, _) => NamedMore(w.accepted, jobId, JobOf(intent), JobOf(snap));
    case _ =>
  }

  /** sbatch takes the job of a launch whose record still has its file. */
  lemma AcceptCap(w: World, pid: Pid, jobId: string)
    requires Inv(w.core) && CapInv(w) && pid in w.core.procs && w.core.procs[pid].Provisioned? && jobId !in w.accepted
    ensures CapInv(w.(accepted := w.accepted[jobId := JobOf(w.core.procs[pid].intent)], core := Leave(w.core, pid)))
  {
    var intent := w.core.procs[pid].intent;
    var d := w.(accepted := w.accepted[jobId := JobOf(intent)], core := Leave(w.core, pid));
    AcceptState(w, d, pid, jobId);
    assert ProcCap(w, w.core.procs[pid]);
    HolderIsAlone(w.core, pid);
    forall p | p in d.core.procs ensures ProcCap(d, d.core.procs[p]) {
      assert p in w.core.procs - {pid} && ProcCap(w, w.core.procs[p]);
      AcceptedProc(w, d, jobId, intent, w.core.procs[p]);
    }
  }

  // ----- the steps

  lemma DeleteCapabilityCap(w: World, pid: Pid, removed: bool)
    requires Inv(w.core) && CapInv(w)
    ensures CapInv(DoDeleteCapability(w, pid, removed))
  {
    if At(w, pid) && w.core.procs[pid].Deleting? {
      var s := w.core.procs[pid].snap;
      assert ProcOk(w.core, w.core.procs[pid]) && ProcCap(w, w.core.procs[pid]);
      SettledIsStale(w, s);
      StaleRemovalCap(w, s.id, s.seqNo, removed);
      var cleaned := RemoveCapability(w, s.id, s.seqNo, removed);
      LeaveCap(cleaned, cleaned.(core := Leave(w.core, pid)), pid);
    }
  }

  lemma StopReleaseCap(w: World, pid: Pid, removed: bool, note: string)
    requires Inv(w.core) && CapInv(w)
    ensures CapInv(DoStopRelease(w, pid, removed, note))
  {
    if At(w, pid) && w.core.procs[pid].StopReleasing? {
      var s := w.core.procs[pid].snap;
      assert ProcOk(w.core, w.core.procs[pid]) && ProcCap(w, w.core.procs[pid]);
      SettledIsStale(w, s);
      StaleRemovalCap(w, s.id, s.seqNo, removed);
      EnterCap(RemoveCapability(w, s.id, s.seqNo, removed), DoStopRelease(w, pid, removed, note), pid, StopUnlinking(s, note));
    }
  }

  lemma RetireReleaseCap(w: World, pid: Pid, removed: bool, ok: bool)
    requires Inv(w.core) && CapInv(w)
    ensures CapInv(DoRetireRelease(w, pid, removed, ok))
  {
    if At(w, pid) && w.core.procs[pid].Retiring? {
      var q := w.core.procs[pid];
      assert ProcOk(w.core, q) && ProcCap(w, q);
      var removing := removed && q.snap.tunnel != "";
      SettledIsStale(w, q.snap);
      StaleRemovalCap(w, q.snap.id, q.snap.seqNo, removing);
      var cleaned := RemoveCapability(w, q.snap.id, q.snap.seqNo, removing);
      if ok || q.snap.tunnel == "" {
        EnterCap(cleaned, cleaned.(core := Enter(w.core, pid, Freezing(q.launcher, q.snap))), pid, Freezing(q.launcher, q.snap));
      } else {
        LeaveCap(cleaned, cleaned.(core := Leave(w.core, pid)), pid);
      }
    }
  }

  lemma FreezeRunCap(w: World, pid: Pid, removed: bool, trace: string, saved: bool)
    requires Inv(w.core) && CapInv(w)
    ensures CapInv(DoFreezeRun(w, pid, removed, trace, saved))
  {
    if At(w, pid) && w.core.procs[pid].Freezing? {
      var q := w.core.procs[pid];
      assert ProcOk(w.core, q) && ProcCap(w, q);
      SettledIsStale(w, q.snap);
      var removing := removed && Terminal(q.snap.phase) && q.snap.seqNo != 0;
      StaleRemovalCap(w, q.snap.id, q.snap.seqNo, removing);
      ProcsCap(RemoveCapability(w, q.snap.id, q.snap.seqNo, removing), DoFreezeRun(w, pid, removed, trace, saved), pid);
    }
  }

  lemma WriteState(w: World, d: World)
    requires CapState(w) && w.caps <= d.caps && d.accepted == w.accepted && d.forgotten == w.forgotten
    requires d.core.sessions == w.core.sessions && d.core.hist == w.core.hist && d.core.nextLife == w.core.nextLife
    ensures CapState(d)
  {
    forall v | v in d.core.hist ensures VersionCap(d, v) { assert VersionCap(w, v); }
    forall i | i in d.core.sessions ensures RecordCap(d, d.core.sessions[i]) { assert RecordCap(w, w.core.sessions[i]); }
    forall j | j in d.accepted ensures NameCap(d, j) { assert NameCap(w, j); }
  }

  /** Writing a file harms nothing. */
  lemma WriteCap(w: World, d: World, pid: Pid)
    requires CapInv(w) && w.caps <= d.caps && d.accepted == w.accepted && d.forgotten == w.forgotten
    requires d.core.sessions == w.core.sessions && d.core.hist == w.core.hist && d.core.nextLife == w.core.nextLife
    requires forall p :: p in d.core.procs && p != pid ==> p in w.core.procs && d.core.procs[p] == w.core.procs[p]
    requires pid in d.core.procs ==> ProcCap(d, d.core.procs[pid])
    ensures CapInv(d)
  {
    WriteState(w, d);
    forall p | p in d.core.procs && p != pid ensures ProcCap(d, d.core.procs[p]) { assert ProcCap(w, w.core.procs[p]); }
  }

  lemma IssueCap(w: World, pid: Pid, modes: seq<string>, tunnel: string, stamp: int, written: bool, ok: bool)
    requires Inv(w.core) && CapInv(w)
    ensures CapInv(DoIssue(w, pid, modes, tunnel, stamp, written, ok))
  {
    if stamp !in w.core.taken && At(w, pid) && w.core.procs[pid].Claimed? {
      var d := DoIssue(w, pid, modes, tunnel, stamp, written, ok);
      if written && ok { WriteCap(w, d, pid); } else { WriteCap(w, d, pid); }
    }
  }

  lemma PersistCap(w: World, pid: Pid, saved: bool)
    requires Inv(w.core) && CapInv(w)
    ensures CapInv(DoPersist(w, pid, saved))
  {
    if At(w, pid) && w.core.procs[pid].Issued? {
      var q := w.core.procs[pid];
      assert ProcOk(w.core, q);
      if saved && q.prev.id in w.core.sessions && IntentApplies(w.core.sessions[q.prev.id], q.prev) {
        SnapshotIsCurrent(w.core, q.prev);
        LaunchCap(w, DoPersist(w, pid, saved), pid, q.launcher, q.prev, q.intent);
      } else {
        EnterCap(w, DoPersist(w, pid, saved), pid, Unissuing(q.intent));
      }
    }
  }

  lemma LeaveOk(w: World, pid: Pid)
    requires Inv(w.core) && CapInv(w) && pid in w.core.procs && HoldsLock(w.core.procs[pid])
    ensures var d := w.(core := Leave(w.core, pid));
            Inv(d.core) && CapInv(d) && LockFree(d.core.procs, ProcId(w.core.procs[pid]))
  {
    HolderIsAlone(w.core, pid);
    LeaveKeeps(w.core, pid);
    LeaveCap(w, w.(core := Leave(w.core, pid)), pid);
  }

  /** The holder of the launch lock ends and removes a file of its dormant run. */
  lemma HolderReleases(w: World, d: World, pid: Pid, seqNo: nat, removed: bool)
    requires Inv(w.core) && CapInv(w) && pid in w.core.procs && HoldsLock(w.core.procs[pid]) && Dormant(w, ProcId(w.core.procs[pid]))
    requires d == RemoveCapability(w.(core := Leave(w.core, pid)), ProcId(w.core.procs[pid]), seqNo, removed)
    ensures CapInv(d)
  {
    LeaveOk(w, pid);
    LockedRemovalCap(w.(core := Leave(w.core, pid)), ProcId(w.core.procs[pid]), seqNo, removed);
  }

  lemma UnissueCap(w: World, pid: Pid, removed: bool)
    requires Inv(w.core) && CapInv(w)
    ensures CapInv(DoUnissue(w, pid, removed))
  {
    if At(w, pid) && w.core.procs[pid].Unissuing? {
      var intent := w.core.procs[pid].intent;
      assert ProcOk(w.core, w.core.procs[pid]);
      HolderReleases(w, DoUnissue(w, pid, removed), pid, intent.seqNo, removed);
    }
  }

  lemma ProvisionCap(w: World, pid: Pid, ok: bool)
    requires CapInv(w)
    ensures CapInv(DoProvision(w, pid, ok))
  {
    if At(w, pid) && w.core.procs[pid].Submitted? {
      assert ProcCap(w, w.core.procs[pid]);
      var intent := w.core.procs[pid].intent;
      EnterCap(w, DoProvision(w, pid, ok), pid, if ok then Provisioned(intent) else Abandoning(intent));
    }
  }

  lemma SubmitCap(w: World, pid: Pid, outcome: Submission)
    requires Inv(w.core) && CapInv(w)
    ensures CapInv(DoSubmit(w, pid, outcome))
  {
    if At(w, pid) && w.core.procs[pid].Provisioned? {
      var intent := w.core.procs[pid].intent;
      assert ProcCap(w, w.core.procs[pid]);
      if outcome.Refused? {
        EnterCap(w, DoSubmit(w, pid, outcome), pid, Abandoning(intent));
      } else if outcome.AmbiguousLost? {
        LeaveCap(w, DoSubmit(w, pid, outcome), pid);
      } else if outcome.jobId != "" && outcome.jobId !in w.accepted {
        AcceptCap(w, pid, outcome.jobId);
        var taken := w.(accepted := w.accepted[outcome.jobId := JobOf(intent)], core := Leave(w.core, pid));
        if outcome.Accepted? { ProcsCap(taken, DoSubmit(w, pid, outcome), pid); }
      }
    }
  }

  /** A launch that gives up before sbatch took its job holds the lock of a dormant run. */
  lemma AbandoningIsDormant(w: World, intent: Session)
    requires Sent(w.core, intent) && JobUnknown(w, intent)
    ensures Dormant(w, intent.id)
  {
  }

  lemma AbandonReleaseCap(w: World, pid: Pid, removed: bool, note: string)
    requires Inv(w.core) && CapInv(w)
    ensures CapInv(DoAbandonRelease(w, pid, removed, note))
  {
    if At(w, pid) && w.core.procs[pid].Abandoning? {
      var intent := w.core.procs[pid].intent;
      assert ProcCap(w, w.core.procs[pid]) && ProcOk(w.core, w.core.procs[pid]);
      AbandoningIsDormant(w, intent);
      var cleaned := RemoveCapability(w.(core := Leave(w.core, pid)), intent.id, intent.seqNo, removed);
      HolderReleases(w, cleaned, pid, intent.seqNo, removed);
      AbandonedNext(w, cleaned, pid, intent, note);
    }
  }

  lemma AbandonedNext(w: World, cleaned: World, pid: Pid, intent: Session, note: string)
    requires CapInv(cleaned) && cleaned.core == Leave(w.core, pid) && JobUnknown(cleaned, intent)
    ensures CapInv(cleaned.(core := Enter(w.core, pid, Abandoned(intent, note))))
  {
    ProcsCap(cleaned, cleaned.(core := Enter(w.core, pid, Abandoned(intent, note))), pid);
  }

  /** A restamped record is a version that was never stored before. */
  lemma RestampCap(w: World, d: World, pid: Pid, r: Session, now: int, q: Option<Proc>)
    requires Inv(w.core) && CapInv(w) && r.id in w.core.sessions && now !in w.core.taken && r.updatedAt == now
    requires Follows(w.core.sessions[r.id], r) && Backed(w, w.core.sessions[r.id], r)
    requires SameFiles(w, d) && d.core == Store(w.core, pid, r, now, q) && (q.Some? ==> ProcCap(d, q.value))
    ensures CapInv(d)
  {
    assert Latest(w.core.hist, w.core.sessions[r.id]);
    ReviseCap(w, d, pid, r, now, q);
  }

  lemma StopCap(w: World, pid: Pid, id: Id, principal: Principal, now: int)
    requires Inv(w.core) && CapInv(w)
    ensures CapInv(DoStop(w, pid, id, principal, now))
  {
    if DoStop(w, pid, id, principal, now) != w {
      var s := w.core.sessions[id];
      if Terminal(s.phase) {
        EnterCap(w, DoStop(w, pid, id, principal, now), pid, StopReleasing(s));
      } else {
        RestampCap(w, DoStop(w, pid, id, principal, now), pid, StopStored(s, now), now, Some(StopReleasing(StopStored(s, now))));
      }
    }
  }

  lemma AbandonCap(w: World, pid: Pid, now: int, saved: bool)
    requires Inv(w.core) && CapInv(w)
    ensures CapInv(DoAbandon(w, pid, now, saved))
  {
    if now !in w.core.taken && At(w, pid) && w.core.procs[pid].Abandoned? {
      var q := w.core.procs[pid];
      if saved && q.intent.id in w.core.sessions && AbandonApplies(w.core.sessions[q.intent.id], q.intent) {
        RestampCap(w, DoAbandon(w, pid, now, saved), pid, AbandonedIntent(w.core.sessions[q.intent.id], q.note, now), now, None);
      } else {
        LeaveCap(w, DoAbandon(w, pid, now, saved), pid);
      }
    }
  }

  lemma NoteCap(w: World, pid: Pid, now: int, saved: bool)
    requires Inv(w.core) && CapInv(w)
    ensures CapInv(DoNote(w, pid, now, saved))
  {
    if now !in w.core.taken && At(w, pid) && w.core.procs[pid].Noting? {
      var q := w.core.procs[pid];
      if saved && q.intent.id in w.core.sessions && CancelNoteApplies(w.core.sessions[q.intent.id], q.jobId) {
        var s := w.core.sessions[q.intent.id];
        assert s in w.core.hist && VersionCap(w, s);
        RestampCap(w, DoNote(w, pid, now, saved), pid, CancelNoted(s, q.diagnostic, now), now, None);
      } else {
        LeaveCap(w, DoNote(w, pid, now, saved), pid);
      }
    }
  }

  lemma LinkedCap(w: World, d: World, pid: Pid, snap: Session, now: int)
    requires Inv(w.core) && CapInv(w) && now !in w.core.taken && snap.id in w.core.sessions && SameFiles(w, d)
    requires LinkApplies(w.core.sessions[snap.id], snap.seqNo)
    requires d.core == Store(w.core, pid, LinkedReady(w.core.sessions[snap.id], now), now, Some(Linked(snap)))
    ensures CapInv(d)
  {
    var s := w.core.sessions[snap.id];
    var r := LinkedReady(s, now);
    assert s.id == snap.id;
    assert Follows(s, r) && Backed(w, s, r);
    RestampCap(w, d, pid, r, now, Some(Linked(snap)));
  }

  lemma LinkReadyCap(w: World, pid: Pid, now: int, saved: bool)
    requires Inv(w.core) && CapInv(w)
    ensures CapInv(DoLinkReady(w, pid, now, saved))
  {
    if now !in w.core.taken && At(w, pid) && w.core.procs[pid].Registered? {
      var s := w.core.procs[pid].snap;
      if saved && s.id in w.core.sessions && LinkApplies(w.core.sessions[s.id], s.seqNo) {
        LinkedCap(w, w.(core := Store(w.core, pid, LinkedReady(w.core.sessions[s.id], now), now, Some(Linked(s)))), pid, s, now);
      } else {
        EnterCap(w, w.(core := Enter(w.core, pid, Linked(s))), pid, Linked(s));
      }
    }
  }

  lemma RecordedCap(w: World, d: World, pid: Pid, intent: Session, jobId: string, now: int)
    requires Inv(w.core) && CapInv(w) && now !in w.core.taken && pid in w.core.procs
    requires w.core.procs[pid] == Returned(intent, jobId) && intent.id in w.core.sessions && SameFiles(w, d)
    requires var r := SubmittedJob(w.core.sessions[intent.id], jobId, now);
             d.core == Store(w.core, pid, r, now, if Superseded(r) then Some(Cancelling(intent, jobId, true)) else None)
    ensures CapInv(d)
  {
    var r := SubmittedJob(w.core.sessions[intent.id], jobId, now);
    assert ProcCap(w, w.core.procs[pid]);
    assert Latest(w.core.hist, w.core.sessions[intent.id]);
    RestampCap(w, d, pid, r, now, if Superseded(r) then Some(Cancelling(intent, jobId, true)) else None);
  }

  /** What recording does to the store and the files. */
  lemma RecordShape(w: World, pid: Pid, now: int, saved: bool)
    requires now !in w.core.taken && At(w, pid) && w.core.procs[pid].Returned?
    ensures var d := DoRecord(w, pid, now, saved);
            var q := w.core.procs[pid];
            && SameFiles(w, d)
            && (saved && q.intent.id in w.core.sessions ==>
                  var r := SubmittedJob(w.core.sessions[q.intent.id], q.jobId, now);
                  d.core == Store(w.core, pid, r, now, if Superseded(r) then Some(Cancelling(q.intent, q.jobId, true)) else None))
            && (!(saved && q.intent.id in w.core.sessions) ==> d.core == Enter(w.core, pid, Cancelling(q.intent, q.jobId, false)))
  {
    var q := w.core.procs[pid];
    if StopWasStored(w.core.hist, q.intent) {
      if saved && q.intent.id in w.core.sessions {
        if Superseded(SubmittedJob(w.core.sessions[q.intent.id], q.jobId, now)) {} else {}
      }
    } else {
      if saved && q.intent.id in w.core.sessions {
        if Superseded(SubmittedJob(w.core.sessions[q.intent.id], q.jobId, now)) {} else {}
      }
    }
  }

  lemma RecordStepCap(w: World, pid: Pid, now: int, saved: bool)
    requires Inv(w.core) && CapInv(w)
    ensures CapInv(DoRecord(w, pid, now, saved))
  {
    if now !in w.core.taken && At(w, pid) && w.core.procs[pid].Returned? {
      var d := DoRecord(w, pid, now, saved);
      var q := w.core.procs[pid];
      RecordShape(w, pid, now, saved);
      if saved && q.intent.id in w.core.sessions {
        RecordedCap(w, d, pid, q.intent, q.jobId, now);
      } else {
        EnterCap(w, d, pid, Cancelling(q.intent, q.jobId, false));
      }
    }
  }

  /** An honest answer about a submitting record is about a job of its own run. */
  lemma SeenJobIsOwn(w: World, s: Session, a: Answer)
    requires CapState(w) && VersionCap(w, s) && Current(w, s) && HonestAnswer(w, s, a) && a.Seen? && s.phase == Submitting
    ensures a.observation.jobId in w.accepted && w.accepted[a.observation.jobId] == JobOf(s) && Named(w.accepted, JobOf(s))
  {
    assert NameCap(w, a.observation.jobId);
  }

  lemma CandidateBacked(w: World, s: Session, a: Answer, heard: bool, started: bool, now: int)
    requires CapState(w) && VersionCap(w, s) && HonestAnswer(w, s, a)
    ensures ProcCap(w, Watched(s, CandidateOf(w, s, a, heard, started, now)))
  {
    if a.Seen? && s.phase == Submitting && Current(w, s) { SeenJobIsOwn(w, s, a); }
    if heard { CandidateJob(s, a, LinkedNow(w, s), now, started); }
  }

  lemma ObserveCap(w: World, pid: Pid, a: Answer, heard: bool, started: bool, now: int)
    requires Inv(w.core) && CapInv(w)
    requires At(w, pid) && w.core.procs[pid].Watching? ==> HonestAnswer(w, w.core.procs[pid].snap, a)
    ensures CapInv(DoObserve(w, pid, a, heard, started, now))
  {
    if At(w, pid) && w.core.procs[pid].Watching? {
      var s := w.core.procs[pid].snap;
      assert ProcOk(w.core, w.core.procs[pid]) && VersionCap(w, s);
      CandidateBacked(w, s, a, heard, started, now);
      EnterCap(w, DoObserve(w, pid, a, heard, started, now), pid, Watched(s, CandidateOf(w, s, a, heard, started, now)));
    }
  }

  lemma FrozenRecordCap(w: World, e: World, pid: Pid, m: Session, removed: bool, fault: string, now: int)
    requires Inv(w.core) && CapInv(w) && m.id in w.core.sessions && now !in w.core.taken
    requires Follows(w.core.sessions[m.id], m) && Backed(w, w.core.sessions[m.id], m)
    requires m.updatedAt == now || m == w.core.sessions[m.id]
    requires SameFiles(w, e) && e.core == Store(w.core, pid, Frozen(m, removed, fault), now, None)
    ensures CapInv(e)
  {
    assert Latest(w.core.hist, w.core.sessions[m.id]);
    ReviseCap(w, e, pid, Frozen(m, removed, fault), now, None);
  }

  /** Freezing a revision, saved: the record is over before its file is gone. */
  lemma FrozenCap(w: World, d: World, pid: Pid, m: Session, removed: bool, fault: string, now: int)
    requires Inv(w.core) && CapInv(w) && m.id in w.core.sessions && now !in w.core.taken
    requires Follows(w.core.sessions[m.id], m) && Backed(w, w.core.sessions[m.id], m)
    requires m.updatedAt == now || m == w.core.sessions[m.id]
    requires m.seqNo == 0 ==> m.phase == Stopped
    requires SameFiles(FreezeCapability(w, m, removed), d) && d.core == Store(w.core, pid, Frozen(m, removed, fault), now, None)
    ensures CapInv(d)
  {
    var e := d.(caps := w.caps);
    FrozenRecordCap(w, e, pid, m, removed, fault, now);
    assert Inv(e.core) by { FreezeSafe(w.core, pid, m, removed, fault, now); }
    StaleRemovalCap(e, m.id, m.seqNo, removed && Terminal(m.phase) && m.seqNo != 0);
  }

  /** An unsaved freeze removes a file although the record did not change; harmless once the run is settled. */
  lemma UnsavedCap(w: World, d: World, pid: Pid, s: Session, m: Session, removed: bool)
    requires Inv(w.core) && CapInv(w) && s.id in w.core.sessions && w.core.sessions[s.id] == s
    requires m.id == s.id && m.seqNo == s.seqNo && (removed && Terminal(m.phase) ==> Settled(s.phase))
    requires SameFiles(FreezeCapability(w, m, removed), d) && d.core == Leave(w.core, pid)
    ensures CapInv(d)
  {
    var removing := removed && Terminal(m.phase) && m.seqNo != 0;
    StaleRemovalCap(w, m.id, m.seqNo, removing);
    LeaveCap(RemoveCapability(w, m.id, m.seqNo, removing), d, pid);
  }

  lemma MergedCap(w: World, d: World, pid: Pid, snap: Session, cand: Session, now: int, removed: bool, fault: string, saved: bool)
    requires Inv(w.core) && CapInv(w) && now !in w.core.taken && pid in w.core.procs && w.core.procs[pid] == Watched(snap, cand)
    requires snap.id in w.core.sessions && MergeApplies(w.core.sessions[snap.id], snap, cand)
    requires saved || !removed || Settled(snap.phase) || !Terminal(cand.phase)
    requires var m := Merge(w.core.sessions[snap.id], snap, cand, now);
             && SameFiles(FreezeCapability(w, m, removed), d)
             && d.core == if saved then Store(w.core, pid, Frozen(m, removed, fault), now, None) else Leave(w.core, pid)
    ensures CapInv(d)
  {
    assert ProcOk(w.core, w.core.procs[pid]) && ProcCap(w, w.core.procs[pid]);
    SnapshotIsCurrent(w.core, snap);
    var m := Merge(snap, snap, cand, now);
    if saved {
      FrozenCap(w, d, pid, m, removed, fault, now);
    } else {
      UnsavedCap(w, d, pid, snap, m, removed);
    }
  }

  lemma MergeCap(w: World, pid: Pid, now: int, removed: bool, fault: string, trace: string, saved: bool)
    requires Inv(w.core) && CapInv(w) && !FailedFreeze(w, MergeWatched(pid, now, removed, fault, trace, saved))
    ensures CapInv(DoMerge(w, pid, now, removed, fault, trace, saved))
  {
    var d := DoMerge(w, pid, now, removed, fault, trace, saved);
    if now !in w.core.taken && At(w, pid) && w.core.procs[pid].Watched? {
      var q := w.core.procs[pid];
      if q.snap.id in w.core.sessions && MergeApplies(w.core.sessions[q.snap.id], q.snap, q.cand) {
        MergedCap(w, d, pid, q.snap, q.cand, now, removed, fault, saved);
      } else {
        LeaveCap(w, d, pid);
      }
    }
  }

  lemma StopFinishedCap(w: World, d: World, pid: Pid, snap: Session, cand: Session, note: string, now: int, removed: bool,
                        cleanup: string, saved: bool)
    requires Inv(w.core) && CapInv(w) && now !in w.core.taken && pid in w.core.procs
    requires w.core.procs[pid] == StopFinishing(snap, cand, note) && snap.id in w.core.sessions
    requires var m := StopMerged(w.core.sessions[snap.id], snap, cand, note, now);
             && SameFiles(FreezeCapability(w, m, removed), d)
             && d.core == if saved then Store(w.core, pid, Frozen(m, removed, cleanup), now, None) else Leave(w.core, pid)
    ensures CapInv(d)
  {
    var s := w.core.sessions[snap.id];
    var m := StopMerged(s, snap, cand, note, now);
    assert ProcOk(w.core, w.core.procs[pid]);
    assert s in w.core.hist && VersionCap(w, s);
    StopMergedFollows(w.core, snap, cand, note, now);
    assert MergeApplies(s, snap, cand) ==> Settled(s.phase);
    assert Backed(w, s, m) && (Terminal(m.phase) ==> Settled(s.phase));
    if saved {
      FrozenCap(w, d, pid, m, removed, cleanup, now);
    } else {
      UnsavedCap(w, d, pid, s, m, removed);
    }
  }

  lemma StopFinishCap(w: World, pid: Pid, now: int, removed: bool, cleanup: string, trace: string, saved: bool)
    requires Inv(w.core) && CapInv(w)
    ensures CapInv(DoStopFinish(w, pid, now, removed, cleanup, trace, saved))
  {
    var d := DoStopFinish(w, pid, now, removed, cleanup, trace, saved);
    if now !in w.core.taken && At(w, pid) && w.core.procs[pid].StopFinishing? {
      var q := w.core.procs[pid];
      if q.snap.id in w.core.sessions {
        StopFinishedCap(w, d, pid, q.snap, q.cand, q.note, now, removed, cleanup, saved);
      } else {
        LeaveCap(w, d, pid);
      }
    }
  }

  // ----- all steps

  lemma RecordCapStep(w: World, step: RecordStep)
    requires Inv(w.core) && CapInv(w) && (step.Define? ==> step.id in w.core.sessions || NothingLeft(w, step.id))
    ensures CapInv(ApplyRecord(w, step))
  {
    match step
    case Stamp(now) => SameCap(w, ApplyRecord(w, step));
    case Define(id, principal, spec, createdAt, stamp) => DefineCap(w, id, principal, spec, createdAt, stamp);
    case Adopt(id, principal, history, born, now) => AdoptCap(w, id, principal, history, born, now);
    case Delete(pid, id, principal) => DeleteCap(w, pid, id, principal);
    case DeleteCapability(pid, removed) => DeleteCapabilityCap(w, pid, removed);
    case Stats(id, seqNo, stats) => SameCap(w, ApplyRecord(w, step));
  }

  /** A world that differs in bookkeeping only. */
  lemma SameCap(w: World, d: World)
    requires CapInv(w) && SameFiles(w, d)
    requires d.core.sessions == w.core.sessions && d.core.hist == w.core.hist && d.core.procs == w.core.procs
    requires d.core.nextLife == w.core.nextLife
    ensures CapInv(d)
  {
    forall p | p in d.core.procs ensures ProcCap(d, d.core.procs[p]) { assert ProcCap(w, w.core.procs[p]); }
    ProcsCap(w, d, 0);
  }

  lemma StopCapStep(w: World, step: StopStep)
    requires Inv(w.core) && CapInv(w)
    ensures CapInv(ApplyStop(w, step))
  {
    match step
    case Stop(pid, id, principal, now) => StopCap(w, pid, id, principal, now);
    case StopRelease(pid, removed, note) => StopReleaseCap(w, pid, removed, note);
    case StopFinish(pid, now, removed, note, trace, saved) => StopFinishCap(w, pid, now, removed, note, trace, saved);
    case StopUnlink(pid) => StopUnlinkCap(w, pid);
    case StopObserve(pid, a, heard, started, now) => StopObserveCap(w, pid, a, heard, started, now);
  }

  lemma StopUnlinkCap(w: World, pid: Pid)
    requires CapInv(w)
    ensures CapInv(DoStopUnlink(w, pid))
  {
    if At(w, pid) && w.core.procs[pid].StopUnlinking? {
      EnterCap(w, DoStopUnlink(w, pid), pid, StopObserving(w.core.procs[pid].snap, w.core.procs[pid].note));
    }
  }

  lemma StopObserveCap(w: World, pid: Pid, a: Answer, heard: bool, started: bool, now: int)
    requires CapInv(w)
    ensures CapInv(DoStopObserve(w, pid, a, heard, started, now))
  {
    if At(w, pid) && w.core.procs[pid].StopObserving? {
      var q := w.core.procs[pid];
      EnterCap(w, DoStopObserve(w, pid, a, heard, started, now), pid,
               StopFinishing(q.snap, CandidateOf(w, q.snap, a, heard, started, now), q.note));
    }
  }

  lemma RetireCap(w: World, pid: Pid, launcher: Launcher, id: Id, principal: Principal)
    requires Inv(w.core) && CapInv(w)
    ensures CapInv(DoRetire(w, pid, launcher, id, principal))
  {
    if !At(w, pid) && id in w.core.sessions && w.core.sessions[id].owner == principal && Terminal(w.core.sessions[id].phase) {
      assert w.core.sessions[id].id == id;
      EnterCap(w, DoRetire(w, pid, launcher, id, principal), pid, Retiring(launcher, w.core.sessions[id]));
    }
  }

  lemma LockCap(w: World, pid: Pid)
    requires CapInv(w)
    ensures CapInv(DoLock(w, pid))
  {
    if At(w, pid) && w.core.procs[pid].Waiting? && LockFree(w.core.procs, w.core.procs[pid].snap.id) {
      EnterCap(w, DoLock(w, pid), pid, Preparing(w.core.procs[pid].launcher, w.core.procs[pid].snap));
    }
  }

  lemma ClaimCap(w: World, pid: Pid)
    requires CapInv(w)
    ensures CapInv(DoClaim(w, pid))
  {
    if At(w, pid) && w.core.procs[pid].Preparing? {
      var q := w.core.procs[pid];
      if q.snap.id in w.core.sessions && w.core.sessions[q.snap.id].owner == q.snap.owner &&
         Terminal(w.core.sessions[q.snap.id].phase) {
        EnterCap(w, DoClaim(w, pid), pid, Claimed(q.launcher, q.snap, w.core.sessions[q.snap.id]));
      } else {
        LeaveCap(w, DoClaim(w, pid), pid);
      }
    }
  }

  lemma ClaimCapStep(w: World, step: ClaimStep)
    requires Inv(w.core) && CapInv(w)
    ensures CapInv(ApplyClaim(w, step))
  {
    match step
    case Retire(pid, launcher, id, principal) => RetireCap(w, pid, launcher, id, principal);
    case Lock(pid) => LockCap(w, pid);
    case Claim(pid) => ClaimCap(w, pid);
    case RetireRelease(pid, removed, ok) => RetireReleaseCap(w, pid, removed, ok);
    case FreezeRun(pid, removed, trace, saved) => FreezeRunCap(w, pid, removed, trace, saved);
    case Issue(pid, modes, tunnel, now, written, ok) => IssueCap(w, pid, modes, tunnel, now, written, ok);
    case Persist(pid, saved) => PersistCap(w, pid, saved);
    case Unissue(pid, removed) => UnissueCap(w, pid, removed);
  }

  lemma SubmitCapStep(w: World, step: SubmitStep)
    requires Inv(w.core) && CapInv(w)
    ensures CapInv(ApplySubmit(w, step))
  {
    match step
    case Provision(pid, ok) => ProvisionCap(w, pid, ok);
    case Submit(pid, outcome) => SubmitCap(w, pid, outcome);
    case AbandonRelease(pid, removed, note) => AbandonReleaseCap(w, pid, removed, note);
    case Abandon(pid, now, saved) => AbandonCap(w, pid, now, saved);
    case Record(pid, now, saved) => RecordStepCap(w, pid, now, saved);
    case Note(pid, now, saved) => NoteCap(w, pid, now, saved);
    case Scancel(pid, note) => ScancelCap(w, pid, note);
  }

  lemma ScancelCap(w: World, pid: Pid, note: string)
    requires CapInv(w)
    ensures CapInv(DoScancel(w, pid, note))
  {
    if At(w, pid) && w.core.procs[pid].Cancelling? { ProcsCap(w, DoScancel(w, pid, note), pid); }
  }

  lemma WatchCapStep(w: World, step: WatchStep)
    requires Inv(w.core) && CapInv(w) && !FailedFreeze(w, step) && Honest(w, OnWatch(step))
    ensures CapInv(ApplyWatch(w, step))
  {
    match step
    case Observe(pid, a, heard, started, now) => ObserveCap(w, pid, a, heard, started, now);
    case MergeWatched(pid, now, removed, note, trace, saved) => MergeCap(w, pid, now, removed, note, trace, saved);
    case Watch(pid, id) =>
      var d := ApplyWatch(w, step);
      if d != w { ProcsCap(w, d, pid); }
  }

  lemma LinkCapStep(w: World, step: LinkStep)
    requires Inv(w.core) && CapInv(w)
    ensures CapInv(ApplyLink(w, step))
  {
    match step
    case LinkReady(pid, now, saved) => LinkReadyCap(w, pid, now, saved);
    case OpenLink(pid, id) =>
      if !At(w, pid) && id in w.core.sessions && !Terminal(w.core.sessions[id].phase) {
        EnterCap(w, DoLink(w, pid, id), pid, Linking(w.core.sessions[id]));
      }
    case Register(pid) =>
      if At(w, pid) && w.core.procs[pid].Linking? {
        EnterCap(w, DoRegister(w, pid), pid, Registered(w.core.procs[pid].snap));
      }
    case LinkClosed(pid) => if At(w, pid) && w.core.procs[pid].Linked? { LeaveCap(w, DoLinkClosed(w, pid), pid); }
  }

  lemma ForgetCap(w: World, jobId: string)
    requires CapInv(w)
    ensures CapInv(DoForget(w, jobId))
  {
    var d := DoForget(w, jobId);
    forall v | v in d.core.hist ensures VersionCap(d, v) { assert VersionCap(w, v); }
    forall i | i in d.core.sessions ensures RecordCap(d, d.core.sessions[i]) { assert RecordCap(w, w.core.sessions[i]); }
    forall j | j in d.accepted ensures NameCap(d, j) { assert NameCap(w, j); }
    forall p | p in d.core.procs ensures ProcCap(d, d.core.procs[p]) { assert ProcCap(w, w.core.procs[p]); }
  }

  lemma CapStep(w: World, step: Step)
    requires Inv(w.core) && CapInv(w) && Fair(w, step)
    ensures CapInv(Apply(w, step))
  {
    match step
    case OnRecord(s) => RecordCapStep(w, s);
    case OnStop(s) => StopCapStep(w, s);
    case OnClaim(s) => ClaimCapStep(w, s);
    case OnSubmit(s) => SubmitCapStep(w, s);
    case OnWatch(s) => WatchCapStep(w, s);
    case OnLink(s) => LinkCapStep(w, s);
    case GiveUp(pid) => if DoGiveUp(w, pid) != w { LeaveCap(w, DoGiveUp(w, pid), pid); }
    case Forget(jobId) => ForgetCap(w, jobId);
    case Restart => ProcsCap(w, DoRestart(w), 0);
  }
}
