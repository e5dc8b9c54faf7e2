/** Each step of the session protocol keeps the invariant and moves records only in the allowed ways. */
module SessionSafety {
  import opened SessionTypes
  import opened Reconciliation
  import opened SessionCycles
  import opened SessionProtocol
  import opened SessionInvariant

  /** Some process stands between issuing `r` and storing it, holding the launch lock of its id. */
  predicate IssuedBy(c: Core, r: Session) {
    exists p :: p in c.procs && c.procs[p].Issued? && c.procs[p].intent == r
  }

  /**
   How one step may change a stored record. The life and the owner stay. The seq stays, and then a settled run stays
   settled and Submitting is not re-entered; or it grows by one from a terminal record, by the holder of the launch
   lock; or it moves from 0 to the number of adopted runs.
   */
  predicate RecordMoves(c: Core, a: Session, b: Session) {
    && a.life == b.life && a.owner == b.owner
    && (|| (a.seqNo == b.seqNo && (Settled(a.phase) ==> Settled(b.phase)) && (b.phase == Submitting ==> a.phase == Submitting))
        || (b.seqNo == a.seqNo + 1 && Terminal(a.phase) && IssuedBy(c, b))
        || (a.seqNo == 0 && 1 <= b.seqNo <= 50 && Terminal(b.phase)))
  }

  predicate Moves(c: Core, d: Core) {
    && c.hist <= d.hist && c.taken <= d.taken && c.nextLife <= d.nextLife
    && (forall id :: id in c.sessions && id in d.sessions ==> RecordMoves(c, c.sessions[id], d.sessions[id]))
    && (forall id :: id in d.sessions && id !in c.sessions ==>
          d.sessions[id].life >= c.nextLife && d.sessions[id].seqNo == 0 && d.sessions[id].phase == Stopped)
    && (forall id :: id in c.sessions && id !in d.sessions ==> Terminal(c.sessions[id].phase))
  }

  predicate Safe(c: Core, d: Core) { Inv(d) && Moves(c, d) }

  lemma StaySafe(c: Core, d: Core)
    requires Inv(c) && Inv(d) && d.sessions == c.sessions && d.hist == c.hist && c.taken <= d.taken && d.nextLife == c.nextLife
    ensures Safe(c, d)
  {
  }

  lemma LeaveSafe(c: Core, pid: Pid)
    requires Inv(c)
    ensures Safe(c, Leave(c, pid))
  {
    LeaveKeeps(c, pid);
    StaySafe(c, Leave(c, pid));
  }

  lemma EnterSafe(c: Core, pid: Pid, q: Proc)
    requires Inv(c) && ProcOk(c, q)
    requires HoldsLock(q) ==> LockFree(c.procs - {pid}, ProcId(q))
    ensures Safe(c, Enter(c, pid, q))
  {
    EnterKeeps(c, pid, q);
    StaySafe(c, Enter(c, pid, q));
  }

  /** A lock holder goes on to another phase of the same launch. */
  lemma GoOnSafe(c: Core, pid: Pid, q: Proc)
    requires Inv(c) && ProcOk(c, q) && pid in c.procs && HoldsLock(c.procs[pid]) && ProcId(q) == ProcId(c.procs[pid])
    ensures Safe(c, Enter(c, pid, q))
  {
    HolderIsAlone(c, pid);
    EnterSafe(c, pid, q);
  }

  lemma PutMoves(c: Core, d: Core, r: Session, now: int)
    requires RecordsOk(c) && HistoryOk(c) && Legal(d, r, now) && d.sessions == c.sessions && d.hist == c.hist
    requires d.taken == c.taken && d.nextLife == c.nextLife
    requires Launches(d, r) ==> IssuedBy(c, r)
    ensures Moves(c, Put(d, r, now))
  {
    if r.id in c.sessions {
      assert RecordMoves(c, c.sessions[r.id], r);
    }
  }

  lemma StoreSafe(c: Core, pid: Pid, r: Session, now: int, q: Option<Proc>)
    requires Inv(c) && Legal(Leave(c, pid), r, now)
    requires q.Some? ==> ProcOk(Put(c, r, now), q.value) && (HoldsLock(q.value) ==> LockFree(c.procs - {pid}, ProcId(q.value)))
    requires Launches(Leave(c, pid), r) ==> IssuedBy(c, r)
    ensures Safe(c, Store(c, pid, r, now, q))
  {
    StoreKeeps(c, pid, r, now, q);
    PutMoves(c, Leave(c, pid), r, now);
  }

  /** A record of the current run, restamped. */
  lemma ReviseSafe(c: Core, pid: Pid, r: Session, now: int, q: Option<Proc>)
    requires Inv(c) && now !in c.taken && r.id in c.sessions && r.updatedAt == now
    requires Follows(c.sessions[r.id], r) && (r.seqNo == 0 ==> r.phase == Stopped)
    requires q.Some? ==> ProcOk(Put(c, r, now), q.value) && (HoldsLock(q.value) ==> LockFree(c.procs - {pid}, ProcId(q.value)))
    ensures Safe(c, Store(c, pid, r, now, q))
  {
    assert Revises(Leave(c, pid), r, now);
    StoreSafe(c, pid, r, now, q);
  }

  // ----- Define, AdoptRuns, Delete

  /** Taking a stamp, or giving one up. */
  lemma StampedKeeps(c: Core, d: Core)
    requires Inv(c) && d == c.(stamped := d.stamped, taken := d.taken) && c.taken <= d.taken
    requires forall t :: t in d.stamped ==> t in c.stamped || (t in d.taken && t !in c.taken)
    ensures Inv(d)
  {
    forall p | p in d.procs ensures ProcOk(d, d.procs[p]) { assert ProcOk(c, c.procs[p]); }
  }

  lemma StampSafe(w: World, now: int)
    requires Inv(w.core)
    ensures Safe(w.core, DoStamp(w, now).core)
  {
    if now !in w.core.taken {
      StampedKeeps(w.core, DoStamp(w, now).core);
    }
    StaySafe(w.core, DoStamp(w, now).core);
  }

  lemma DefineSafe(w: World, id: Id, principal: Principal, spec: Spec, createdAt: int, stamp: int)
    requires Inv(w.core)
    ensures Safe(w.core, DoDefine(w, id, principal, spec, createdAt, stamp).core)
  {
    if stamp in w.core.stamped {
      var c := w.core.(stamped := w.core.stamped - {stamp});
      StampedKeeps(w.core, c);
      if id in w.core.sessions {
        StaySafe(w.core, c);
      } else {
        var r := Defined(id, c.nextLife, principal, spec, createdAt, stamp);
        forall p | p in c.procs && c.procs[p].Issued? ensures c.procs[p].intent.updatedAt != stamp { assert ProcOk(w.core, w.core.procs[p]); }
        assert Born(c, r, stamp);
        PutKeeps(c, r, stamp);
        PutMoves(w.core, c, r, stamp);
      }
    } else {
      StaySafe(w.core, w.core);
    }
  }

  lemma AdoptSafe(w: World, id: Id, principal: Principal, history: seq<FinishedRun>, born: Option<int>, now: int)
    requires Inv(w.core)
    ensures Safe(w.core, DoAdopt(w, id, principal, history, born, now).core)
  {
    if DoAdopt(w, id, principal, history, born, now) != w {
      var r := Adopted(w.core.sessions[id], history, born, now);
      assert Adopts(w.core, r, now);
      PutKeeps(w.core, r, now);
      PutMoves(w.core, w.core, r, now);
    }
  }

  lemma DeleteSafe(w: World, pid: Pid, id: Id, principal: Principal)
    requires Inv(w.core)
    ensures Safe(w.core, DoDelete(w, pid, id, principal).core)
  {
    if DoDelete(w, pid, id, principal) != w {
      RemoveKeeps(w.core, id);
      EnterKeeps(w.core.(sessions := w.core.sessions - {id}), pid, Deleting(w.core.sessions[id]));
    }
  }

  // ----- Stop

  lemma StopSafe(w: World, pid: Pid, id: Id, principal: Principal, now: int)
    requires Inv(w.core)
    ensures Safe(w.core, DoStop(w, pid, id, principal, now).core)
  {
    if DoStop(w, pid, id, principal, now) != w {
      var s := w.core.sessions[id];
      assert Latest(w.core.hist, s);
      if Terminal(s.phase) {
        EnterSafe(w.core, pid, StopReleasing(s));
      } else {
        ReviseSafe(w.core, pid, StopStored(s, now), now, Some(StopReleasing(StopStored(s, now))));
      }
    }
  }

  lemma StopReleaseSafe(w: World, pid: Pid, removed: bool, note: string)
    requires Inv(w.core)
    ensures Safe(w.core, DoStopRelease(w, pid, removed, note).core)
  {
    if At(w, pid) && w.core.procs[pid].StopReleasing? {
      assert ProcOk(w.core, w.core.procs[pid]);
      EnterSafe(w.core, pid, StopUnlinking(w.core.procs[pid].snap, note));
    }
  }

  lemma StopUnlinkSafe(w: World, pid: Pid)
    requires Inv(w.core)
    ensures Safe(w.core, DoStopUnlink(w, pid).core)
  {
    if At(w, pid) && w.core.procs[pid].StopUnlinking? {
      assert ProcOk(w.core, w.core.procs[pid]);
      EnterSafe(w.core, pid, StopObserving(w.core.procs[pid].snap, w.core.procs[pid].note));
    }
  }

  lemma StopObserveSafe(w: World, pid: Pid, a: Answer, heard: bool, started: bool, now: int)
    requires Inv(w.core)
    ensures Safe(w.core, DoStopObserve(w, pid, a, heard, started, now).core)
  {
    if At(w, pid) && w.core.procs[pid].StopObserving? {
      var q := w.core.procs[pid];
      assert ProcOk(w.core, q);
      var cand := CandidateOf(w, q.snap, a, heard, started, now);
      assert Computed(q.snap, cand) by { CandidateFollows(q.snap, a, LinkedNow(w, q.snap), now, started); }
      EnterSafe(w.core, pid, StopFinishing(q.snap, cand, q.note));
    }
  }

  /** A cycle that passed its version check works on exactly the record its snapshot was taken from. */
  lemma SnapshotIsCurrent(c: Core, snap: Session)
    requires Inv(c) && snap in c.hist && snap.id in c.sessions
    requires c.sessions[snap.id].updatedAt == snap.updatedAt && c.sessions[snap.id].phase == snap.phase
    ensures c.sessions[snap.id] == snap
  {
    assert Latest(c.hist, c.sessions[snap.id]);
  }

  lemma StopMergedFollows(c: Core, snap: Session, cand: Session, note: string, now: int)
    requires Inv(c) && snap in c.hist && snap.id in c.sessions && Settled(snap.phase) && Computed(snap, cand)
    ensures var s := c.sessions[snap.id];
            var m := StopMerged(s, snap, cand, note, now);
            && Follows(s, m) && (m.seqNo == 0 ==> m.phase == Stopped)
            && (if StopStamps(s, snap, cand, note) then m.updatedAt == now else m == s)
  {
    var s := c.sessions[snap.id];
    assert Latest(c.hist, s);
    if MergeApplies(s, snap, cand) {
      SnapshotIsCurrent(c, snap);
    }
  }

  /** Storing what freezing made of a revision, or of the untouched record, is legal. */
  lemma FreezeSafe(c: Core, pid: Pid, m: Session, removed: bool, fault: string, now: int)
    requires Inv(c) && now !in c.taken && m.id in c.sessions && (m.seqNo == 0 ==> m.phase == Stopped)
    requires Follows(c.sessions[m.id], m) && (m.updatedAt == now || m == c.sessions[m.id])
    ensures Safe(c, Store(c, pid, Frozen(m, removed, fault), now, None))
  {
    var r := Frozen(m, removed, fault);
    if m.updatedAt == now {
      ReviseSafe(c, pid, r, now, None);
    } else {
      assert Undoes(Leave(c, pid), r, now);
      StoreSafe(c, pid, r, now, None);
    }
  }

  lemma StopFinishedSafe(c: Core, pid: Pid, snap: Session, cand: Session, note: string, now: int, removed: bool, cleanup: string)
    requires Inv(c) && now !in c.taken && pid in c.procs && c.procs[pid] == StopFinishing(snap, cand, note)
    requires snap.id in c.sessions
    ensures Safe(c, Store(c, pid, Frozen(StopMerged(c.sessions[snap.id], snap, cand, note, now), removed, cleanup), now, None))
  {
    assert ProcOk(c, c.procs[pid]);
    StopMergedFollows(c, snap, cand, note, now);
    FreezeSafe(c, pid, StopMerged(c.sessions[snap.id], snap, cand, note, now), removed, cleanup, now);
  }

  lemma StopFinishSafe(w: World, pid: Pid, now: int, removed: bool, cleanup: string, trace: string, saved: bool)
    requires Inv(w.core)
    ensures Safe(w.core, DoStopFinish(w, pid, now, removed, cleanup, trace, saved).core)
  {
    if now !in w.core.taken && At(w, pid) && w.core.procs[pid].StopFinishing? {
      var q := w.core.procs[pid];
      if q.snap.id in w.core.sessions && saved {
        StopFinishedSafe(w.core, pid, q.snap, q.cand, q.note, now, removed, cleanup);
      } else {
        LeaveSafe(w.core, pid);
      }
    } else {
      StaySafe(w.core, w.core);
    }
  }

  // ----- Start and Attach, up to the stored intent

  lemma RetireSafe(w: World, pid: Pid, launcher: Launcher, id: Id, principal: Principal)
    requires Inv(w.core)
    ensures Safe(w.core, DoRetire(w, pid, launcher, id, principal).core)
  {
    if DoRetire(w, pid, launcher, id, principal) != w {
      assert Latest(w.core.hist, w.core.sessions[id]);
      EnterSafe(w.core, pid, Retiring(launcher, w.core.sessions[id]));
    }
  }

  lemma RetireReleaseSafe(w: World, pid: Pid, removed: bool, ok: bool)
    requires Inv(w.core)
    ensures Safe(w.core, DoRetireRelease(w, pid, removed, ok).core)
  {
    if At(w, pid) && w.core.procs[pid].Retiring? {
      var q := w.core.procs[pid];
      assert ProcOk(w.core, q);
      if ok || q.snap.tunnel == "" {
        EnterSafe(w.core, pid, Freezing(q.launcher, q.snap));
      } else {
        LeaveSafe(w.core, pid);
      }
    }
  }

  lemma FreezeRunSafe(w: World, pid: Pid, removed: bool, trace: string, saved: bool)
    requires Inv(w.core)
    ensures Safe(w.core, DoFreezeRun(w, pid, removed, trace, saved).core)
  {
    if At(w, pid) && w.core.procs[pid].Freezing? {
      var q := w.core.procs[pid];
      assert ProcOk(w.core, q);
      if saved && !RemovalFails(q.snap, removed) {
        EnterSafe(w.core, pid, Waiting(q.launcher, q.snap));
      } else {
        LeaveSafe(w.core, pid);
      }
    }
  }

  lemma LockSafe(w: World, pid: Pid)
    requires Inv(w.core)
    ensures Safe(w.core, DoLock(w, pid).core)
  {
    if DoLock(w, pid) != w {
      assert ProcOk(w.core, w.core.procs[pid]);
      EnterSafe(w.core, pid, Preparing(w.core.procs[pid].launcher, w.core.procs[pid].snap));
    }
  }

  lemma ClaimSafe(w: World, pid: Pid)
    requires Inv(w.core)
    ensures Safe(w.core, DoClaim(w, pid).core)
  {
    if At(w, pid) && w.core.procs[pid].Preparing? {
      var q := w.core.procs[pid];
      assert ProcOk(w.core, q);
      if q.snap.id in w.core.sessions && w.core.sessions[q.snap.id].owner == q.snap.owner &&
         Terminal(w.core.sessions[q.snap.id].phase) {
        assert Latest(w.core.hist, w.core.sessions[q.snap.id]);
        GoOnSafe(w.core, pid, Claimed(q.launcher, q.snap, w.core.sessions[q.snap.id]));
      } else {
        LeaveSafe(w.core, pid);
      }
    }
  }

  lemma TickEnterSafe(c: Core, pid: Pid, stamp: int, q: Proc)
    requires Inv(c) && stamp !in c.taken && pid in c.procs && HoldsLock(c.procs[pid]) && ProcId(q) == ProcId(c.procs[pid])
    requires ProcOk(Tick(c, stamp), q)
    ensures Safe(c, Enter(Tick(c, stamp), pid, q))
  {
    TickKeeps(c, stamp);
    HolderIsAlone(c, pid);
    EnterKeeps(Tick(c, stamp), pid, q);
    StaySafe(c, Enter(Tick(c, stamp), pid, q));
  }

  lemma IssuedOk(c: Core, launcher: Launcher, spec: Spec, prev: Session, tunnel: string, stamp: int)
    requires Inv(c) && stamp !in c.taken && prev in c.hist && Terminal(prev.phase) && Quiet(c.sessions, prev.id)
    ensures ProcOk(Tick(c, stamp), Issued(launcher, prev, Intent(launcher, spec, prev, tunnel, stamp)))
    ensures ProcOk(Tick(c, stamp), Unissuing(Intent(launcher, spec, prev, tunnel, stamp)))
  {
  }

  lemma IssueSafe(w: World, pid: Pid, modes: seq<string>, tunnel: string, stamp: int, written: bool, ok: bool)
    requires Inv(w.core)
    ensures Safe(w.core, DoIssue(w, pid, modes, tunnel, stamp, written, ok).core)
  {
    if stamp !in w.core.taken && At(w, pid) && w.core.procs[pid].Claimed? {
      var q := w.core.procs[pid];
      assert ProcOk(w.core, q);
      var spec := if q.launcher == Client then q.snap.spec.(tunnelModes := modes) else q.snap.spec;
      var intent := Intent(q.launcher, spec, q.prev, tunnel, stamp);
      IssuedOk(w.core, q.launcher, spec, q.prev, tunnel, stamp);
      TickEnterSafe(w.core, pid, stamp, if written && ok then Issued(q.launcher, q.prev, intent) else Unissuing(intent));
    } else {
      StaySafe(w.core, w.core);
    }
  }

  /** An intent that passes its check is stored onto the record it was computed from. */
  lemma IssuedLaunches(c: Core, pid: Pid)
    requires Inv(c) && pid in c.procs && c.procs[pid].Issued?
    requires var q := c.procs[pid]; q.prev.id in c.sessions && IntentApplies(c.sessions[q.prev.id], q.prev)
    ensures Launches(Leave(c, pid), c.procs[pid].intent) && IssuedBy(c, c.procs[pid].intent)
  {
    var q := c.procs[pid];
    assert ProcOk(c, q);
    SnapshotIsCurrent(c, q.prev);
    HolderIsAlone(c, pid);
  }

  lemma IntentSafe(c: Core, pid: Pid, next: Option<Proc>)
    requires Inv(c) && pid in c.procs && c.procs[pid].Issued?
    requires var q := c.procs[pid]; q.prev.id in c.sessions && IntentApplies(c.sessions[q.prev.id], q.prev)
    requires next == None || next == Some(Submitted(c.procs[pid].intent))
    ensures Safe(c, Store(c, pid, c.procs[pid].intent, c.procs[pid].intent.updatedAt, next))
  {
    var q := c.procs[pid];
    assert ProcOk(c, q);
    IssuedLaunches(c, pid);
    HolderIsAlone(c, pid);
    StoreSafe(c, pid, q.intent, q.intent.updatedAt, next);
  }

  lemma PersistSafe(w: World, pid: Pid, saved: bool)
    requires Inv(w.core)
    ensures Safe(w.core, DoPersist(w, pid, saved).core)
  {
    if At(w, pid) && w.core.procs[pid].Issued? {
      var q := w.core.procs[pid];
      assert ProcOk(w.core, q);
      if saved && q.prev.id in w.core.sessions && IntentApplies(w.core.sessions[q.prev.id], q.prev) {
        IntentSafe(w.core, pid, if q.launcher == Plane then Some(Submitted(q.intent)) else None);
      } else {
        GoOnSafe(w.core, pid, Unissuing(q.intent));
      }
    }
  }

  // ----- Start, from the stored intent

  lemma ProvisionSafe(w: World, pid: Pid, ok: bool)
    requires Inv(w.core)
    ensures Safe(w.core, DoProvision(w, pid, ok).core)
  {
    if At(w, pid) && w.core.procs[pid].Submitted? {
      assert ProcOk(w.core, w.core.procs[pid]);
      var intent := w.core.procs[pid].intent;
      GoOnSafe(w.core, pid, if ok then Provisioned(intent) else Abandoning(intent));
    }
  }

  lemma SubmitSafe(w: World, pid: Pid, outcome: Submission)
    requires Inv(w.core)
    ensures Safe(w.core, DoSubmit(w, pid, outcome).core)
  {
    if At(w, pid) && w.core.procs[pid].Provisioned? {
      assert ProcOk(w.core, w.core.procs[pid]);
      var intent := w.core.procs[pid].intent;
      match outcome
      case Accepted(jobId) => GoOnSafe(w.core, pid, Returned(intent, jobId));
      case Refused => GoOnSafe(w.core, pid, Abandoning(intent));
      case AmbiguousTaken(_) => LeaveSafe(w.core, pid);
      case AmbiguousLost => LeaveSafe(w.core, pid);
    }
  }

  lemma AbandonReleaseSafe(w: World, pid: Pid, removed: bool, note: string)
    requires Inv(w.core)
    ensures Safe(w.core, DoAbandonRelease(w, pid, removed, note).core)
  {
    if At(w, pid) && w.core.procs[pid].Abandoning? {
      assert ProcOk(w.core, w.core.procs[pid]);
      GoOnSafe(w.core, pid, Abandoned(w.core.procs[pid].intent, note));
    }
  }

  lemma ScancelSafe(w: World, pid: Pid, diagnostic: string)
    requires Inv(w.core)
    ensures Safe(w.core, DoScancel(w, pid, diagnostic).core)
  {
    if At(w, pid) && w.core.procs[pid].Cancelling? {
      var q := w.core.procs[pid];
      assert ProcOk(w.core, q);
      if q.superseded {
        GoOnSafe(w.core, pid, Noting(q.intent, q.jobId, diagnostic));
      } else {
        LeaveSafe(w.core, pid);
      }
    }
  }

  lemma RecordedSafe(c: Core, pid: Pid, intent: Session, jobId: string, now: int)
    requires Inv(c) && now !in c.taken && pid in c.procs && c.procs[pid] == Returned(intent, jobId) && intent.id in c.sessions
    ensures var r := SubmittedJob(c.sessions[intent.id], jobId, now);
            Safe(c, Store(c, pid, r, now, if Superseded(r) then Some(Cancelling(intent, jobId, true)) else None))
  {
    var r := SubmittedJob(c.sessions[intent.id], jobId, now);
    assert ProcOk(c, c.procs[pid]);
    assert Latest(c.hist, c.sessions[intent.id]);
    HolderIsAlone(c, pid);
    ReviseSafe(c, pid, r, now, if Superseded(r) then Some(Cancelling(intent, jobId, true)) else None);
  }

  lemma RecordSafe(w: World, pid: Pid, now: int, saved: bool)
    requires Inv(w.core)
    ensures Safe(w.core, DoRecord(w, pid, now, saved).core)
  {
    if now !in w.core.taken && At(w, pid) && w.core.procs[pid].Returned? {
      var q := w.core.procs[pid];
      if saved && q.intent.id in w.core.sessions {
        RecordedSafe(w.core, pid, q.intent, q.jobId, now);
      } else {
        assert ProcOk(w.core, q);
        GoOnSafe(w.core, pid, Cancelling(q.intent, q.jobId, false));
      }
    } else {
      StaySafe(w.core, w.core);
    }
  }

  lemma AbandonSafe(w: World, pid: Pid, now: int, saved: bool)
    requires Inv(w.core)
    ensures Safe(w.core, DoAbandon(w, pid, now, saved).core)
  {
    if now !in w.core.taken && At(w, pid) && w.core.procs[pid].Abandoned? {
      var q := w.core.procs[pid];
      if saved && q.intent.id in w.core.sessions && AbandonApplies(w.core.sessions[q.intent.id], q.intent) {
        var s := w.core.sessions[q.intent.id];
        assert Latest(w.core.hist, s);
        ReviseSafe(w.core, pid, AbandonedIntent(s, q.note, now), now, None);
      } else {
        LeaveSafe(w.core, pid);
      }
    } else {
      StaySafe(w.core, w.core);
    }
  }

  lemma NoteSafe(w: World, pid: Pid, now: int, saved: bool)
    requires Inv(w.core)
    ensures Safe(w.core, DoNote(w, pid, now, saved).core)
  {
    if now !in w.core.taken && At(w, pid) && w.core.procs[pid].Noting? {
      var q := w.core.procs[pid];
      if saved && q.intent.id in w.core.sessions && CancelNoteApplies(w.core.sessions[q.intent.id], q.jobId) {
        var s := w.core.sessions[q.intent.id];
        assert Latest(w.core.hist, s);
        ReviseSafe(w.core, pid, CancelNoted(s, q.diagnostic, now), now, None);
      } else {
        LeaveSafe(w.core, pid);
      }
    } else {
      StaySafe(w.core, w.core);
    }
  }

  // ----- reconciliation and links

  lemma WatchSafe(w: World, pid: Pid, id: Id)
    requires Inv(w.core)
    ensures Safe(w.core, DoWatch(w, pid, id).core)
  {
    if !At(w, pid) && id in w.core.sessions {
      assert Latest(w.core.hist, w.core.sessions[id]);
      EnterSafe(w.core, pid, Watching(w.core.sessions[id]));
    }
  }

  lemma ObserveSafe(w: World, pid: Pid, a: Answer, heard: bool, started: bool, now: int)
    requires Inv(w.core)
    ensures Safe(w.core, DoObserve(w, pid, a, heard, started, now).core)
  {
    if At(w, pid) && w.core.procs[pid].Watching? {
      var s := w.core.procs[pid].snap;
      assert ProcOk(w.core, w.core.procs[pid]);
      var cand := CandidateOf(w, s, a, heard, started, now);
      assert Computed(s, cand) by { CandidateFollows(s, a, LinkedNow(w, s), now, started); }
      EnterSafe(w.core, pid, Watched(s, cand));
    }
  }

  lemma OpenLinkSafe(w: World, pid: Pid, id: Id)
    requires Inv(w.core)
    ensures Safe(w.core, DoLink(w, pid, id).core)
  {
    if !At(w, pid) && id in w.core.sessions {
      assert Latest(w.core.hist, w.core.sessions[id]);
      EnterSafe(w.core, pid, Linking(w.core.sessions[id]));
    }
  }

  lemma RegisterSafe(w: World, pid: Pid)
    requires Inv(w.core)
    ensures Safe(w.core, DoRegister(w, pid).core)
  {
    if At(w, pid) && w.core.procs[pid].Linking? {
      assert ProcOk(w.core, w.core.procs[pid]);
      EnterSafe(w.core, pid, Registered(w.core.procs[pid].snap));
    }
  }

  lemma MergedSafe(c: Core, pid: Pid, snap: Session, cand: Session, now: int, removed: bool, fault: string)
    requires Inv(c) && now !in c.taken && pid in c.procs && c.procs[pid] == Watched(snap, cand)
    requires snap.id in c.sessions && MergeApplies(c.sessions[snap.id], snap, cand)
    ensures Safe(c, Store(c, pid, Frozen(Merge(c.sessions[snap.id], snap, cand, now), removed, fault), now, None))
  {
    assert ProcOk(c, c.procs[pid]);
    SnapshotIsCurrent(c, snap);
    FreezeSafe(c, pid, Merge(snap, snap, cand, now), removed, fault, now);
  }

  lemma MergeSafe(w: World, pid: Pid, now: int, removed: bool, fault: string, trace: string, saved: bool)
    requires Inv(w.core)
    ensures Safe(w.core, DoMerge(w, pid, now, removed, fault, trace, saved).core)
  {
    if now !in w.core.taken && At(w, pid) && w.core.procs[pid].Watched? {
      var q := w.core.procs[pid];
      if q.snap.id in w.core.sessions && MergeApplies(w.core.sessions[q.snap.id], q.snap, q.cand) && saved {
        MergedSafe(w.core, pid, q.snap, q.cand, now, removed, fault);
      } else {
        LeaveSafe(w.core, pid);
      }
    } else {
      StaySafe(w.core, w.core);
    }
  }

  lemma LinkedSafe(c: Core, pid: Pid, snap: Session, now: int)
    requires Inv(c) && now !in c.taken && pid in c.procs && c.procs[pid] == Registered(snap)
    requires snap.id in c.sessions && LinkApplies(c.sessions[snap.id], snap.seqNo)
    ensures Safe(c, Store(c, pid, LinkedReady(c.sessions[snap.id], now), now, Some(Linked(snap))))
  {
    assert ProcOk(c, c.procs[pid]);
    assert Latest(c.hist, c.sessions[snap.id]);
    ReviseSafe(c, pid, LinkedReady(c.sessions[snap.id], now), now, Some(Linked(snap)));
  }

  lemma LinkReadySafe(w: World, pid: Pid, now: int, saved: bool)
    requires Inv(w.core)
    ensures Safe(w.core, DoLinkReady(w, pid, now, saved).core)
  {
    if now !in w.core.taken && At(w, pid) && w.core.procs[pid].Registered? {
      var s := w.core.procs[pid].snap;
      if saved && s.id in w.core.sessions && LinkApplies(w.core.sessions[s.id], s.seqNo) {
        LinkedSafe(w.core, pid, s, now);
      } else {
        assert ProcOk(w.core, w.core.procs[pid]);
        EnterSafe(w.core, pid, Linked(s));
      }
    } else {
      StaySafe(w.core, w.core);
    }
  }

  lemma RestartSafe(w: World)
    requires Inv(w.core)
    ensures Safe(w.core, DoRestart(w).core)
  {
    StaySafe(w.core, DoRestart(w).core);
  }

  lemma RecordStepSafe(w: World, step: RecordStep)
    requires Inv(w.core)
    ensures Safe(w.core, ApplyRecord(w, step).core)
  {
    match step
    case Stamp(now) => StampSafe(w, now);
    case Define(id, principal, spec, createdAt, stamp) => DefineSafe(w, id, principal, spec, createdAt, stamp);
    case Adopt(id, principal, history, born, now) => AdoptSafe(w, id, principal, history, born, now);
    case Delete(pid, id, principal) => DeleteSafe(w, pid, id, principal);
    case DeleteCapability(pid, removed) => LeaveSafe(w.core, pid);
    case Stats(id, seqNo, stats) =>
  }

  lemma StopStepSafe(w: World, step: StopStep)
    requires Inv(w.core)
    ensures Safe(w.core, ApplyStop(w, step).core)
  {
    match step
    case Stop(pid, id, principal, now) => StopSafe(w, pid, id, principal, now);
    case StopRelease(pid, removed, note) => StopReleaseSafe(w, pid, removed, note);
    case StopUnlink(pid) => StopUnlinkSafe(w, pid);
    case StopObserve(pid, a, heard, started, now) => StopObserveSafe(w, pid, a, heard, started, now);
    case StopFinish(pid, now, removed, note, trace, saved) => StopFinishSafe(w, pid, now, removed, note, trace, saved);
  }

  lemma ClaimStepSafe(w: World, step: ClaimStep)
    requires Inv(w.core)
    ensures Safe(w.core, ApplyClaim(w, step).core)
  {
    match step
    case Retire(pid, launcher, id, principal) => RetireSafe(w, pid, launcher, id, principal);
    case RetireRelease(pid, removed, ok) => RetireReleaseSafe(w, pid, removed, ok);
    case FreezeRun(pid, removed, trace, saved) => FreezeRunSafe(w, pid, removed, trace, saved);
    case Lock(pid) => LockSafe(w, pid);
    case Claim(pid) => ClaimSafe(w, pid);
    case Issue(pid, modes, tunnel, now, written, ok) => IssueSafe(w, pid, modes, tunnel, now, written, ok);
    case Persist(pid, saved) => PersistSafe(w, pid, saved);
    case Unissue(pid, removed) => LeaveSafe(w.core, pid);
  }

  lemma SubmitStepSafe(w: World, step: SubmitStep)
    requires Inv(w.core)
    ensures Safe(w.core, ApplySubmit(w, step).core)
  {
    match step
    case Provision(pid, ok) => ProvisionSafe(w, pid, ok);
    case Submit(pid, outcome) => SubmitSafe(w, pid, outcome);
    case AbandonRelease(pid, removed, note) => AbandonReleaseSafe(w, pid, removed, note);
    case Abandon(pid, now, saved) => AbandonSafe(w, pid, now, saved);
    case Record(pid, now, saved) => RecordSafe(w, pid, now, saved);
    case Scancel(pid, note) => ScancelSafe(w, pid, note);
    case Note(pid, now, saved) => NoteSafe(w, pid, now, saved);
  }

  lemma WatchStepSafe(w: World, step: WatchStep)
    requires Inv(w.core)
    ensures Safe(w.core, ApplyWatch(w, step).core)
  {
    match step
    case Watch(pid, id) => WatchSafe(w, pid, id);
    case Observe(pid, a, heard, started, now) => ObserveSafe(w, pid, a, heard, started, now);
    case MergeWatched(pid, now, removed, note, trace, saved) => MergeSafe(w, pid, now, removed, note, trace, saved);
  }

  lemma LinkStepSafe(w: World, step: LinkStep)
    requires Inv(w.core)
    ensures Safe(w.core, ApplyLink(w, step).core)
  {
    match step
    case OpenLink(pid, id) => OpenLinkSafe(w, pid, id);
    case Register(pid) => RegisterSafe(w, pid);
    case LinkReady(pid, now, saved) => LinkReadySafe(w, pid, now, saved);
    case LinkClosed(pid) => LeaveSafe(w.core, pid);
  }

  /** Every step of every operation is safe. */
  lemma StepSafe(w: World, step: Step)
    requires Inv(w.core)
    ensures Safe(w.core, Apply(w, step).core)
  {
    match step
    case OnRecord(s) => RecordStepSafe(w, s);
    case OnStop(s) => StopStepSafe(w, s);
    case OnClaim(s) => ClaimStepSafe(w, s);
    case OnSubmit(s) => SubmitStepSafe(w, s);
    case OnWatch(s) => WatchStepSafe(w, s);
    case OnLink(s) => LinkStepSafe(w, s);
    case GiveUp(pid) => LeaveSafe(w.core, pid);
    case Forget(jobId) => StaySafe(w.core, w.core);
    case Restart => RestartSafe(w);
  }
}
