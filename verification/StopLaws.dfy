/**
 What a stop, an abandoned launch and a link leave on the record (subsystems/session/lifecycle.go, link.go), over every
 run of the session protocol.
 */
module StopLaws {
  import opened SessionTypes
  import opened Reconciliation
  import opened SessionCycles
  import opened SessionProtocol
  import opened SessionInvariant
  import opened SessionSafety
  import opened SessionTheorems

  lemma RunOne(steps: seq<Step>, step: Step)
    ensures Run(steps + [step]) == Apply(Run(steps), step)
  {
    assert (steps + [step])[..|steps|] == steps;
  }

  function RunOn(w: World, steps: seq<Step>): World
    decreases |steps|
  {
    if steps == [] then w else RunOn(Apply(w, steps[0]), steps[1..])
  }

  lemma {:induction false} RunMore(before: seq<Step>, steps: seq<Step>)
    ensures Run(before + steps) == RunOn(Run(before), steps)
    decreases |steps|
  {
    if steps == [] {
      assert before + steps == before;
    } else {
      RunOne(before, steps[0]);
      MovedOver(before, steps);
      RunMore(before + [steps[0]], steps[1..]);
    }
  }

  lemma MovedOver(before: seq<Step>, steps: seq<Step>)
    requires steps != []
    ensures before + steps == before + [steps[0]] + steps[1..]
  {
  }

  lemma OnTwo(w: World, a: Step, b: Step)
    ensures RunOn(w, [a, b]) == Apply(Apply(w, a), b)
  {
    assert [a, b][1..] == [b];
    calc {
      RunOn(w, [a, b]);
      RunOn(Apply(w, a), [b]);
      RunOn(Apply(Apply(w, a), b), []);
    }
  }

  lemma RunTwo(steps: seq<Step>, a: Step, b: Step)
    ensures Run(steps + [a, b]) == Apply(Apply(Run(steps), a), b)
  {
    RunMore(steps, [a, b]);
    OnTwo(Run(steps), a, b);
  }

  lemma OnThree(w: World, a: Step, b: Step, c: Step)
    ensures RunOn(w, [a, b, c]) == Apply(Apply(Apply(w, a), b), c)
  {
    assert [a, b, c][1..] == [b, c] && [b, c][1..] == [c];
    calc {
      RunOn(w, [a, b, c]);
      RunOn(Apply(w, a), [b, c]);
      RunOn(Apply(Apply(w, a), b), [c]);
      RunOn(Apply(Apply(Apply(w, a), b), c), []);
    }
  }

  lemma RunThree(steps: seq<Step>, a: Step, b: Step, c: Step)
    ensures Run(steps + [a, b, c]) == Apply(Apply(Apply(Run(steps), a), b), c)
  {
    RunMore(steps, [a, b, c]);
    OnThree(Run(steps), a, b, c);
  }

  lemma RunFour(steps: seq<Step>, a: Step, b: Step, c: Step, e: Step)
    ensures Run(steps + [a, b, c, e]) == Apply(Apply(Apply(Apply(Run(steps), a), b), c), e)
  {
    RunMore(steps, [a, b, c, e]);
    assert [a, b, c, e][1..] == [b, c, e];
    OnThree(Apply(Run(steps), a), b, c, e);
  }

  // ----- the start of a stop

  /** A stop by the owner stores Stopping on a run that is not over, changes nothing else of it, and is refused to others. */
  lemma StopBegins(steps: seq<Step>, pid: Pid, id: Id, principal: Principal, now: int)
    requires var w := Run(steps); !At(w, pid) && now !in w.core.taken && id in w.core.sessions
    ensures var w, d := Run(steps), Run(steps + [OnStop(Stop(pid, id, principal, now))]);
            var s := w.core.sessions[id];
            if s.owner != principal then d == w
            else if Terminal(s.phase) then d.core.sessions == w.core.sessions && At(d, pid) && d.core.procs[pid] == StopReleasing(s)
            else
              && d.core.sessions == w.core.sessions[id := s.(phase := Stopping, error := "", updatedAt := now)]
              && At(d, pid) && d.core.procs[pid] == StopReleasing(d.core.sessions[id])
  {
    RunOne(steps, OnStop(Stop(pid, id, principal, now)));
    RunsAreSafe(steps);
    var s := Run(steps).core.sessions[id];
    assert s.id == id;
    if s.owner != principal {} else if Terminal(s.phase) {} else {}
  }

  // ----- the end of a stop

  /** The freezing of an ended run could not remove the capability file. */
  predicate CleanupFailed(phase: Phase, seqNo: nat, removed: bool) { Terminal(phase) && seqNo != 0 && !removed }

  /**
   The record after the last cycle of a stop. On the record the stop was computed from, the phase is the computed one, the
   tunnel is gone exactly when its release had no fault, and a fault is the error. On a record that changed in between but
   is of the same seq and tunnel, only tunnel and error move. Any other record is left alone. A failed cleanup then shows
   on an ended run.
   */
  predicate StopLeaves(found: Session, snap: Session, cand: Session, note: string, removed: bool, cleanup: string, after: Session) {
    var same := found.seqNo == snap.seqNo && found.tunnel == snap.tunnel;
    var phase := if found == snap then cand.phase else found.phase;
    && after.tunnel == (if same && note == "" then "" else found.tunnel)
    && after.phase == (if CleanupFailed(phase, found.seqNo, removed) then Stopping else phase)
    && after.error == (if CleanupFailed(phase, found.seqNo, removed) then "session cleanup pending: " + cleanup
                       else if same && note != "" then note
                       else if found == snap then cand.error else found.error)
    && (!same ==> after == found.(phase := after.phase, error := after.error))
    && (found == snap ==> after.jobId == cand.jobId && after.node == cand.node && after.startedAt == cand.startedAt)
    && (found != snap ==> after.jobId == found.jobId && after.node == found.node && after.startedAt == found.startedAt)
    && after == found.(phase := after.phase, error := after.error, tunnel := after.tunnel, jobId := after.jobId, node := after.node,
                       startedAt := after.startedAt, updatedAt := after.updatedAt)
  }

  lemma StopMergedOntoItself(snap: Session, cand: Session, note: string, now: int, removed: bool, cleanup: string)
    requires Computed(snap, cand)
    ensures StopLeaves(snap, snap, cand, note, removed, cleanup, Frozen(StopMerged(snap, snap, cand, note, now), removed, cleanup))
  {
    MergedFollows(snap, cand, now);
  }

  lemma StopMergedOntoOther(found: Session, snap: Session, cand: Session, note: string, now: int, removed: bool, cleanup: string)
    requires found != snap && !SnapshotCurrent(found, snap)
    ensures StopLeaves(found, snap, cand, note, removed, cleanup, Frozen(StopMerged(found, snap, cand, note, now), removed, cleanup))
  {
  }

  lemma StopMergedLeaves(c: Core, snap: Session, cand: Session, note: string, now: int, removed: bool, cleanup: string)
    requires Inv(c) && snap in c.hist && snap.id in c.sessions && Computed(snap, cand)
    ensures var found := c.sessions[snap.id];
            StopLeaves(found, snap, cand, note, removed, cleanup, Frozen(StopMerged(found, snap, cand, note, now), removed, cleanup))
  {
    var found := c.sessions[snap.id];
    if SnapshotCurrent(found, snap) {
      SnapshotIsCurrent(c, snap);
      StopMergedOntoItself(snap, cand, note, now, removed, cleanup);
    } else {
      StopMergedOntoOther(found, snap, cand, note, now, removed, cleanup);
    }
  }

  lemma MergedFollows(snap: Session, cand: Session, now: int)
    requires Computed(snap, cand)
    ensures var m := Merge(snap, snap, cand, now);
            && m == snap.(phase := cand.phase, error := cand.error, jobId := cand.jobId, node := cand.node, startedAt := cand.startedAt, updatedAt := m.updatedAt)
  {
  }

  /** One record is replaced by another of its id. */
  predicate Replaces(before: map<Id, Session>, after: map<Id, Session>, id: Id, r: Session) { r.id == id && after == before[id := r] }

  lemma StopFinishStores(w: World, pid: Pid, now: int, removed: bool, cleanup: string, trace: string, saved: bool)
    requires At(w, pid) && w.core.procs[pid].StopFinishing? && now !in w.core.taken
    requires w.core.procs[pid].snap.id in w.core.sessions ==> w.core.sessions[w.core.procs[pid].snap.id].id == w.core.procs[pid].snap.id
    ensures var d := DoStopFinish(w, pid, now, removed, cleanup, trace, saved).core;
            var q := w.core.procs[pid];
            && d.procs == w.core.procs - {pid}
            && (if q.snap.id in w.core.sessions && saved then
                  Replaces(w.core.sessions, d.sessions, q.snap.id,
                           Frozen(StopMerged(w.core.sessions[q.snap.id], q.snap, q.cand, q.note, now), removed, cleanup))
                else d.sessions == w.core.sessions)
  {
    if w.core.procs[pid].snap.id !in w.core.sessions {} else if saved {} else {}
  }

  /** Over every run: what the last cycle of a stop stores; an unsaved one stores nothing, and no other record is touched. */
  lemma StopEnds(steps: seq<Step>, pid: Pid, now: int, removed: bool, cleanup: string, trace: string, saved: bool)
    requires At(Run(steps), pid) && Run(steps).core.procs[pid].StopFinishing? && now !in Run(steps).core.taken
    ensures var w, d := Run(steps).core, Run(steps + [OnStop(StopFinish(pid, now, removed, cleanup, trace, saved))]).core;
            var q := w.procs[pid];
            && d.procs == w.procs - {pid}
            && (if q.snap.id in w.sessions && saved then
                  && q.snap.id in d.sessions && Replaces(w.sessions, d.sessions, q.snap.id, d.sessions[q.snap.id])
                  && StopLeaves(w.sessions[q.snap.id], q.snap, q.cand, q.note, removed, cleanup, d.sessions[q.snap.id])
                else d.sessions == w.sessions)
  {
    var w := Run(steps);
    RunOne(steps, OnStop(StopFinish(pid, now, removed, cleanup, trace, saved)));
    RunsAreSafe(steps);
    StopFinishLeaves(w, pid, now, removed, cleanup, trace, saved);
  }

  lemma StopFinishLeaves(w: World, pid: Pid, now: int, removed: bool, cleanup: string, trace: string, saved: bool)
    requires Inv(w.core) && At(w, pid) && w.core.procs[pid].StopFinishing? && now !in w.core.taken
    ensures var d := DoStopFinish(w, pid, now, removed, cleanup, trace, saved).core;
            var q := w.core.procs[pid];
            && d.procs == w.core.procs - {pid}
            && (if q.snap.id in w.core.sessions && saved then
                  && q.snap.id in d.sessions && Replaces(w.core.sessions, d.sessions, q.snap.id, d.sessions[q.snap.id])
                  && StopLeaves(w.core.sessions[q.snap.id], q.snap, q.cand, q.note, removed, cleanup, d.sessions[q.snap.id])
                else d.sessions == w.core.sessions)
  {
    var q := w.core.procs[pid];
    assert ProcOk(w.core, q);
    StopFinishStores(w, pid, now, removed, cleanup, trace, saved);
    if q.snap.id in w.core.sessions { StopMergedLeaves(w.core, q.snap, q.cand, q.note, now, removed, cleanup); }
  }

  // ----- a whole stop

  /** A stop goes on: its file is removed, its link is dropped, and what it observes is computed from its snapshot. */
  lemma StopGoesOn(w: World, pid: Pid, s: Session, removed: bool, note: string, a: Answer, heard: bool, started: bool, now: int)
    requires At(w, pid) && w.core.procs[pid] == StopReleasing(s)
    ensures var d := DoStopObserve(DoStopUnlink(DoStopRelease(w, pid, removed, note), pid), pid, a, heard, started, now);
            && d.core == w.core.(procs := d.core.procs) && At(d, pid) && d.core.procs - {pid} == w.core.procs - {pid}
            && d.core.procs[pid] == StopFinishing(s, if heard then PromoteByLog(Candidate(s, a, false, now), started) else s, note)
            && d.caps == (if removed then w.caps - {(s.id, s.seqNo)} else w.caps) && d.links == w.links - {s.id} && d.runs == w.runs
  {
    var released := DoStopRelease(w, pid, removed, note);
    var unlinked := DoStopUnlink(released, pid);
    assert released.core == Enter(w.core, pid, StopUnlinking(s, note));
    assert unlinked.core == Enter(w.core, pid, StopObserving(s, note)) && unlinked.links == w.links - {s.id};
    assert !LinkedNow(unlinked, s);
  }

  function StopSteps(pid: Pid, id: Id, principal: Principal, t: int, removed: bool, note: string, a: Answer, heard: bool, started: bool, now: int)
    : seq<Step>
  {
    [OnStop(Stop(pid, id, principal, t)), OnStop(StopRelease(pid, removed, note)), OnStop(StopUnlink(pid)),
     OnStop(StopObserve(pid, a, heard, started, now))]
  }

  /**
   A stop by the owner that nothing disturbs: the record is Stopping at once, the capability file and the link are gone,
   and what the scheduler answers is applied to the stopping record, never with a link.
   */
  lemma UndisturbedStop(steps: seq<Step>, pid: Pid, id: Id, t: int, removed: bool, note: string, a: Answer, heard: bool, started: bool, now: int)
    requires var w := Run(steps); !At(w, pid) && t !in w.core.taken && id in w.core.sessions && !Terminal(w.core.sessions[id].phase)
    ensures var w := Run(steps);
            var s := w.core.sessions[id].(phase := Stopping, error := "", updatedAt := t);
            var d := Run(steps + StopSteps(pid, id, s.owner, t, removed, note, a, heard, started, now));
            && d.core.sessions == w.core.sessions[id := s] && id !in d.links && (removed ==> (id, s.seqNo) !in d.caps)
            && At(d, pid) && d.core.procs[pid] == StopFinishing(s, if heard then PromoteByLog(Candidate(s, a, false, now), started) else s, note)
  {
    RunsAreSafe(steps);
    var w := Run(steps);
    assert w.core.sessions[id].id == id;
    RunStop(steps, pid, id, w.core.sessions[id].owner, t, removed, note, a, heard, started, now);
    StopUndisturbed(w, pid, id, t, removed, note, a, heard, started, now);
  }

  lemma RunStop(steps: seq<Step>, pid: Pid, id: Id, principal: Principal, t: int, removed: bool, note: string, a: Answer, heard: bool, started: bool, now: int)
    ensures Run(steps + StopSteps(pid, id, principal, t, removed, note, a, heard, started, now)) ==
            DoStopObserve(DoStopUnlink(DoStopRelease(DoStop(Run(steps), pid, id, principal, t), pid, removed, note), pid), pid, a, heard, started, now)
  {
    RunFour(steps, OnStop(Stop(pid, id, principal, t)), OnStop(StopRelease(pid, removed, note)), OnStop(StopUnlink(pid)),
            OnStop(StopObserve(pid, a, heard, started, now)));
  }

  lemma StopStores(w: World, pid: Pid, id: Id, t: int)
    requires !At(w, pid) && t !in w.core.taken && id in w.core.sessions && !Terminal(w.core.sessions[id].phase) && w.core.sessions[id].id == id
    ensures var s := w.core.sessions[id].(phase := Stopping, error := "", updatedAt := t);
            var d := DoStop(w, pid, id, s.owner, t);
            && d.core.sessions == w.core.sessions[id := s] && At(d, pid) && d.core.procs[pid] == StopReleasing(s)
            && d.caps == w.caps && d.links == w.links
  {
  }

  lemma StopUndisturbed(w: World, pid: Pid, id: Id, t: int, removed: bool, note: string, a: Answer, heard: bool, started: bool, now: int)
    requires !At(w, pid) && t !in w.core.taken && id in w.core.sessions && !Terminal(w.core.sessions[id].phase) && w.core.sessions[id].id == id
    ensures var s := w.core.sessions[id].(phase := Stopping, error := "", updatedAt := t);
            var d := DoStopObserve(DoStopUnlink(DoStopRelease(DoStop(w, pid, id, s.owner, t), pid, removed, note), pid), pid, a, heard, started, now);
            && d.core.sessions == w.core.sessions[id := s] && id !in d.links && (removed ==> (id, s.seqNo) !in d.caps)
            && At(d, pid) && d.core.procs[pid] == StopFinishing(s, if heard then PromoteByLog(Candidate(s, a, false, now), started) else s, note)
  {
    StopStores(w, pid, id, t);
    var s := w.core.sessions[id].(phase := Stopping, error := "", updatedAt := t);
    StopGoesOn(DoStop(w, pid, id, s.owner, t), pid, s, removed, note, a, heard, started, now);
  }

  // ----- an abandoned launch

  /** The record is that of the launch, by seq and name, has no job, and is submitting or stopping. */
  predicate Unsubmitted(found: Session, intent: Session) {
    && found.seqNo == intent.seqNo && found.jobName == intent.jobName && found.jobId == ""
    && !Active(found.phase) && !Terminal(found.phase)
  }

  lemma AbandonStores(w: World, pid: Pid, now: int, saved: bool)
    requires At(w, pid) && w.core.procs[pid].Abandoned? && now !in w.core.taken
    requires w.core.procs[pid].intent.id in w.core.sessions ==> w.core.sessions[w.core.procs[pid].intent.id].id == w.core.procs[pid].intent.id
    ensures var d := DoAbandon(w, pid, now, saved).core;
            var q := w.core.procs[pid];
            && d.procs == w.core.procs - {pid}
            && (if saved && q.intent.id in w.core.sessions && Unsubmitted(w.core.sessions[q.intent.id], q.intent) then
                  var found := w.core.sessions[q.intent.id];
                  d.sessions == w.core.sessions[q.intent.id := found.(phase := if found.phase == Stopping then Stopped else Failed,
                                                                     tunnel := "", error := q.note, updatedAt := now)]
                else d.sessions == w.core.sessions)
  {
    var q := w.core.procs[pid];
    if q.intent.id in w.core.sessions {
      var found := w.core.sessions[q.intent.id];
      assert AbandonApplies(found, q.intent) <==> Unsubmitted(found, q.intent);
      if saved && AbandonApplies(found, q.intent) {} else {}
    }
  }

  lemma AbandonMarks(w: World, pid: Pid, now: int, saved: bool)
    requires Inv(w.core) && At(w, pid) && w.core.procs[pid].Abandoned? && now !in w.core.taken
    ensures Marked(w.core, DoAbandon(w, pid, now, saved).core, w.core.procs[pid], now, saved)
  {
    var q := w.core.procs[pid];
    assert ProcOk(w.core, q);
    AbandonStores(w, pid, now, saved);
    if q.intent.id in w.core.sessions && w.core.sessions[q.intent.id].life == q.intent.life { StoppedOrNot(w.core, q.intent); }
  }

  predicate Marked(w: Core, d: Core, q: Proc, now: int, saved: bool)
    requires q.Abandoned?
  {
    if saved && q.intent.id in w.sessions && Unsubmitted(w.sessions[q.intent.id], q.intent) then
      var found := w.sessions[q.intent.id];
      var failed := found.life == q.intent.life && !StopWasStored(w.hist, q.intent);
      d.sessions == w.sessions[q.intent.id := found.(phase := if failed then Failed else Stopped, tunnel := "", error := q.note, updatedAt := now)]
    else d.sessions == w.sessions
  }

  /**
   Over every run: a launch that gave up marks its record, if that still has no job, as Failed exactly when no stop of the
   run was ever stored, and as Stopped otherwise; it leaves every other record alone.
   */
  lemma AbandonedLaunchIsMarked(steps: seq<Step>, pid: Pid, now: int, saved: bool)
    requires At(Run(steps), pid) && Run(steps).core.procs[pid].Abandoned? && now !in Run(steps).core.taken
    ensures Marked(Run(steps).core, Run(steps + [OnSubmit(Abandon(pid, now, saved))]).core, Run(steps).core.procs[pid], now, saved)
  {
    RunOne(steps, OnSubmit(Abandon(pid, now, saved)));
    RunsAreSafe(steps);
    AbandonMarks(Run(steps), pid, now, saved);
  }

  /** A launch's own record is stopping or over exactly when a stop of that run was stored. */
  lemma StoppedOrNot(c: Core, intent: Session)
    requires Inv(c) && Sent(c, intent) && intent.id in c.sessions && c.sessions[intent.id].life == intent.life
    ensures StopWasStored(c.hist, intent) <==> Settled(c.sessions[intent.id].phase)
    ensures c.sessions[intent.id].seqNo == intent.seqNo
  {
    var found := c.sessions[intent.id];
    assert Latest(c.hist, found);
    if StopWasStored(c.hist, intent) {
      var v :| v in c.hist && v.id == intent.id && v.life == intent.life && v.seqNo == intent.seqNo && Settled(v.phase);
      assert Precedes(v, found);
    }
  }
}
