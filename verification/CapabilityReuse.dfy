/**
 Two runs that end with an active record without its capability file although every save and removal works: the late
 cleanup of a deleted session meets a new session that was defined under the same id, after or before it is active.
 */
module CapabilityReuse {
  import opened SessionTypes
  import opened Reconciliation
  import opened SessionCycles
  import opened SessionProtocol
  import opened CapabilityTheorems

  /** Every save and every removal works, and the scheduler is never asked. */
  predicate Faultless(step: Step) {
    match step
    case OnRecord(s) => s.DeleteCapability? ==> s.removed
    case OnStop(s) => (s.StopRelease? ==> s.removed) && (s.StopObserve? ==> s.answer.Probe?) &&
                      (s.StopFinish? ==> s.removed && s.saved)
    case OnClaim(s) => (s.RetireRelease? ==> s.removed && s.ok) && (s.FreezeRun? ==> s.removed && s.saved) &&
                       (s.Issue? ==> s.written && s.ok) && (s.Persist? ==> s.saved)
    case _ => false
  }

  ghost predicate ReachedBy(steps: seq<Step>, w: World) {
    Run(steps) == w && forall i :: 0 <= i < |steps| ==> Faultless(steps[i])
  }

  ghost predicate Reached(w: World) { exists steps :: ReachedBy(steps, w) }

  lemma Reach(w: World, step: Step)
    requires Reached(w) && Faultless(step)
    ensures Reached(Apply(w, step))
  {
    var steps :| ReachedBy(steps, w);
    assert (steps + [step])[..|steps|] == steps;
    assert ReachedBy(steps + [step], Apply(w, step));
  }

  lemma ReachClaim(w: World, step: ClaimStep)
    requires Reached(w) && Faultless(OnClaim(step))
    ensures Reached(ApplyClaim(w, step))
  {
    Reach(w, OnClaim(step));
  }

  lemma ReachStop(w: World, step: StopStep)
    requires Reached(w) && Faultless(OnStop(step))
    ensures Reached(ApplyStop(w, step))
  {
    Reach(w, OnStop(step));
  }

  /** The client's attach: it reads the terminal record and waits for the launch lock. */
  lemma AttachWaits(w: World, pid: Pid, id: Id) returns (d: World)
    requires Reached(w) && pid !in w.core.procs && LockFree(w.core.procs, id)
    requires id in w.core.sessions && Terminal(w.core.sessions[id].phase)
    ensures Reached(d) && d.core.sessions == w.core.sessions && LockFree(d.core.procs, id)
    ensures d.core.procs == w.core.procs[pid := Waiting(Client, w.core.sessions[id])]
  {
    var s := w.core.sessions[id];
    ReachClaim(w, Retire(pid, Client, id, s.owner));
    d := DoRetire(w, pid, Client, id, s.owner);
    ReachClaim(d, RetireRelease(pid, true, true));
    d := DoRetireRelease(d, pid, true, true);
    ReachClaim(d, FreezeRun(pid, true, "", true));
    d := DoFreezeRun(d, pid, true, "", true);
  }

  /** Then it takes the lock. */
  lemma AttachLocks(w: World, pid: Pid, id: Id) returns (d: World)
    requires Reached(w) && pid !in w.core.procs && LockFree(w.core.procs, id)
    requires id in w.core.sessions && Terminal(w.core.sessions[id].phase) && w.core.sessions[id].id == id
    ensures Reached(d) && d.core.sessions == w.core.sessions
    ensures d.core.procs == w.core.procs[pid := Preparing(Client, w.core.sessions[id])]
  {
    d := AttachWaits(w, pid, id);
    ReachClaim(d, Lock(pid));
    d := DoLock(d, pid);
  }

  /** Then it claims the run. */
  lemma AttachClaims(w: World, pid: Pid, s: Session) returns (d: World)
    requires Reached(w) && pid in w.core.procs && w.core.procs[pid] == Preparing(Client, s)
    requires s.id in w.core.sessions && w.core.sessions[s.id] == s && Terminal(s.phase)
    ensures Reached(d) && d.core.sessions == w.core.sessions && d.core.procs == w.core.procs[pid := Claimed(Client, s, s)]
  {
    ReachClaim(w, Claim(pid));
    d := DoClaim(w, pid);
  }

  /** The clock has always a time left to give. */
  lemma LaterThan(taken: set<int>) returns (now: int)
    ensures forall t :: t in taken ==> t < now
    decreases taken
  {
    now := 0;
    if t :| t in taken {
      var rest := LaterThan(taken - {t});
      now := if rest <= t then t + 1 else rest;
      assert forall u :: u in taken ==> u == t || u in taken - {t};
    }
  }

  predicate NextRun(s: Session, intent: Session) {
    intent.id == s.id && intent.phase == Queued && intent.launcher == Client && intent.seqNo == s.seqNo + 1
  }

  /** Then it issues the capability. */
  lemma AttachIssues(w: World, pid: Pid, s: Session) returns (d: World, intent: Session)
    requires Reached(w) && pid in w.core.procs && w.core.procs[pid] == Claimed(Client, s, s)
    ensures Reached(d) && d.core.sessions == w.core.sessions && d.core.procs == w.core.procs[pid := Issued(Client, s, intent)]
    ensures NextRun(s, intent)
  {
    var now := LaterThan(w.core.taken);
    ReachClaim(w, Issue(pid, [], "", now, true, true));
    d := DoIssue(w, pid, [], "", now, true, true);
    intent := Intent(Client, s.spec.(tunnelModes := []), s, "", now);
  }

  /** Then it stores the intent. */
  lemma AttachStores(w: World, pid: Pid, s: Session, intent: Session) returns (d: World)
    requires Reached(w) && pid in w.core.procs && w.core.procs[pid] == Issued(Client, s, intent) && NextRun(s, intent)
    requires s.id in w.core.sessions && w.core.sessions[s.id] == s
    ensures Reached(d) && d.core.procs == w.core.procs - {pid} && d.core.sessions == w.core.sessions[s.id := intent]
  {
    ReachClaim(w, Persist(pid, true));
    d := DoPersist(w, pid, true);
  }

  lemma AttachReaches(w: World, pid: Pid, id: Id) returns (d: World, intent: Session)
    requires Reached(w) && pid !in w.core.procs && LockFree(w.core.procs, id)
    requires id in w.core.sessions && Terminal(w.core.sessions[id].phase) && w.core.sessions[id].id == id
    ensures Reached(d) && d.core.sessions == w.core.sessions
    ensures d.core.procs == w.core.procs[pid := Issued(Client, w.core.sessions[id], intent)]
    ensures NextRun(w.core.sessions[id], intent)
  {
    var s := w.core.sessions[id];
    var locked := AttachLocks(w, pid, id);
    var claimed := AttachClaims(locked, pid, s);
    d, intent := AttachIssues(claimed, pid, s);
  }

  lemma AttachLaunches(w: World, pid: Pid, id: Id) returns (d: World)
    requires Reached(w) && pid !in w.core.procs && LockFree(w.core.procs, id)
    requires id in w.core.sessions && Terminal(w.core.sessions[id].phase) && w.core.sessions[id].id == id
    ensures Reached(d) && d.core.procs == w.core.procs && id in d.core.sessions
    ensures var s := d.core.sessions[id];
            s.id == id && s.phase == Queued && s.launcher == Client && s.seqNo == w.core.sessions[id].seqNo + 1
  {
    var intent;
    d, intent := AttachReaches(w, pid, id);
    d := AttachStores(d, pid, w.core.sessions[id], intent);
    assert d.core.procs == w.core.procs;
  }

  lemma StopObserves(w: World, pid: Pid, id: Id) returns (d: World, s: Session)
    requires Reached(w) && w.core.procs == map[] && id in w.core.sessions && w.core.sessions[id].id == id
    requires Active(w.core.sessions[id].phase)
    ensures s == StopStored(w.core.sessions[id], s.updatedAt)
    ensures Reached(d) && d.core.procs == map[pid := StopObserving(s, "")] && d.core.sessions == w.core.sessions[id := s]
  {
    var now := LaterThan(w.core.taken);
    s := StopStored(w.core.sessions[id], now);
    ReachStop(w, Stop(pid, id, s.owner, now));
    d := DoStop(w, pid, id, s.owner, now);
    ReachStop(d, StopRelease(pid, true, ""));
    d := DoStopRelease(d, pid, true, "");
    ReachStop(d, StopUnlink(pid));
    d := DoStopUnlink(d, pid);
  }

  lemma StopCompletes(w: World, pid: Pid, id: Id) returns (d: World)
    requires Reached(w) && w.core.procs == map[] && id in w.core.sessions && w.core.sessions[id].id == id
    requires w.core.sessions[id].phase == Queued && w.core.sessions[id].launcher == Client
    ensures Reached(d) && d.core.procs == map[] && id in d.core.sessions
    ensures var s := d.core.sessions[id]; s.phase == Stopped && s.id == id && s.seqNo == w.core.sessions[id].seqNo
  {
    var s;
    d, s := StopObserves(w, pid, id);
    ReachStop(d, StopObserve(pid, Probe(false), true, false, 0));
    d := DoStopObserve(d, pid, Probe(false), true, false, 0);
    var now := LaterThan(d.core.taken);
    ReachStop(d, StopFinish(pid, now, true, "", "", true));
    d := DoStopFinish(d, pid, now, true, "", "", true);
  }

  lemma Defines(w: World, id: Id, spec: Spec) returns (d: World)
    requires Reached(w) && id !in w.core.sessions
    ensures Reached(d) && d.core.procs == w.core.procs && id in d.core.sessions
    ensures var s := d.core.sessions[id]; s.phase == Stopped && s.id == id && s.seqNo == 0
  {
    var stamp := LaterThan(w.core.taken);
    Reach(w, OnRecord(Stamp(stamp)));
    d := DoStamp(w, stamp);
    Reach(d, OnRecord(Define(id, "ada", spec, 0, stamp)));
    d := DoDefine(d, id, "ada", spec, 0, stamp);
  }

  /** Define, attach, stop and delete; the deletion has not removed "its" file yet. Then the id is defined again. */
  lemma DefinedAgain(spec: Spec, id: Id) returns (w: World, last: Session)
    ensures Reached(w) && w.core.procs == map[3 := Deleting(last)] && last.id == id && last.seqNo == 1
    ensures id in w.core.sessions && LockFree(w.core.procs, id)
    ensures var s := w.core.sessions[id]; s.phase == Stopped && s.id == id && s.seqNo == 0
  {
    assert ReachedBy([], INITIAL);
    w := Defines(INITIAL, id, spec);
    w := AttachLaunches(w, 1, id);
    w := StopCompletes(w, 2, id);
    last := w.core.sessions[id];
    Reach(w, OnRecord(Delete(3, id, last.owner)));
    w := Apply(w, OnRecord(Delete(3, id, last.owner)));
    assert w.core.procs == map[3 := Deleting(last)];
    w := Defines(w, id, spec);
  }

  /**
   Without the condition on ids the property fails, even when nothing else goes wrong: attach to the new session, and
   only then let the deletion of the old one remove "its" file.
   */
  lemma ReusedIdStrandsARun(spec: Spec) returns (steps: seq<Step>, id: Id)
    ensures Stranded(Run(steps), id)
    ensures forall i :: 0 <= i < |steps| ==> Faultless(steps[i])
  {
    id := "s";
    var w, last := DefinedAgain(spec, id);
    w := AttachLaunches(w, 4, id);
    w := DeletionRemoves(w, 3, last);
    steps :| ReachedBy(steps, w);
  }

  /**
   The other half of the condition is needed as well: the deletion removes the file after the attach has written it and
   before the attach stores its intent, so the record is born active without a file, and no serving run ever lost one.
   */
  lemma ReusedIdIsBornStranded(spec: Spec) returns (steps: seq<Step>, last: Step, id: Id)
    ensures Stranded(Run(steps + [last]), id) && !Stranded(Run(steps), id)
    ensures BornWithoutFile(Run(steps), last, id) && !Endangers(Run(steps), last, id)
    ensures forall i :: 0 <= i < |steps + [last]| ==> Faultless((steps + [last])[i])
  {
    id := "s";
    var w, deleted := DefinedAgain(spec, id);
    var s, intent := w.core.sessions[id], w.core.sessions[id];
    w, intent := AttachReaches(w, 4, id);
    w := DeletionRemoves(w, 3, deleted);
    last := OnClaim(Persist(4, true));
    StoredWithoutFile(w, 4, s, intent);
    steps :| ReachedBy(steps, w);
    assert (steps + [last])[..|steps|] == steps;
  }

  lemma DeletionRemoves(w: World, pid: Pid, s: Session) returns (d: World)
    requires Reached(w) && pid in w.core.procs && w.core.procs[pid] == Deleting(s)
    ensures Reached(d) && d.core == Leave(w.core, pid) && (s.id, s.seqNo) !in d.caps
  {
    Reach(w, OnRecord(DeleteCapability(pid, true)));
    d := ApplyRecord(w, DeleteCapability(pid, true));
  }

  lemma StoredWithoutFile(w: World, pid: Pid, s: Session, intent: Session)
    requires pid in w.core.procs && w.core.procs[pid] == Issued(Client, s, intent) && NextRun(s, intent)
    requires s.id in w.core.sessions && w.core.sessions[s.id] == s && Terminal(s.phase) && (s.id, intent.seqNo) !in w.caps
    ensures BornWithoutFile(w, OnClaim(Persist(pid, true)), s.id)
    ensures !Stranded(w, s.id) && Stranded(DoPersist(w, pid, true), s.id)
  {
  }
}
