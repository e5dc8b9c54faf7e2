/**
 Links and reconcile passes as whole operations of the session protocol (subsystems/session/link.go, reconcile.go): what
 a pass over a session and a link of a run store when nothing disturbs them, and when a pass takes a run for linked.
 */
module PassRuns {
  import opened SessionTypes
  import opened Reconciliation
  import opened SessionCycles
  import opened SessionProtocol
  import opened SessionTheorems
  import opened StopLaws
  import opened Retirement
  import opened PassLaws

  // ----- which runs are linked

  /** The snapshot of the connection that process `p` serves, if it does. */
  function ConnectionAt(procs: map<Pid, Proc>, p: Pid): Option<Session> {
    if p in procs && (procs[p].Registered? || procs[p].Linked?) then Some(procs[p].snap) else None
  }

  /** A linkspan of this very run is connected. */
  ghost predicate Connected(w: World, id: Id, seqNo: nat) {
    exists p :: p in w.core.procs && ConnectionAt(w.core.procs, p).Some? &&
                w.core.procs[p].snap.id == id && w.core.procs[p].snap.seqNo == seqNo
  }

  /** Every link of the registry is that of a connection. */
  predicate LinkOk(w: World, id: Id)
    requires id in w.links
  {
    var c := ConnectionAt(w.core.procs, w.links[id].pid);
    c.Some? && c.value.id == id && c.value.seqNo == w.links[id].seqNo
  }

  predicate LinksOk(w: World) { forall id :: id in w.links ==> LinkOk(w, id) }

  /** Links may go, and connections stay as they are. */
  ghost predicate SameConnections(w: World, d: World) {
    && (forall id :: id in d.links ==> id in w.links && d.links[id] == w.links[id])
    && (forall p :: ConnectionAt(d.core.procs, p) == ConnectionAt(w.core.procs, p))
  }

  lemma SameConnectionsKeep(w: World, d: World)
    requires LinksOk(w) && SameConnections(w, d)
    ensures LinksOk(d)
  {
    forall id | id in d.links ensures LinkOk(d, id) {
      assert LinkOk(w, id);
      assert ConnectionAt(d.core.procs, d.links[id].pid) == ConnectionAt(w.core.procs, d.links[id].pid);
    }
  }

  lemma RecordLinks(w: World, step: RecordStep)
    ensures SameConnections(w, ApplyRecord(w, step))
  {
    match step
    case Delete(pid, id, principal) => if !At(w, pid) && id in w.core.sessions {}
    case DeleteCapability(pid, removed) => if At(w, pid) && w.core.procs[pid].Deleting? { if removed {} else {} }
    case Define(id, _, _, _, stamp) => if stamp in w.core.stamped && id !in w.core.sessions {}
    case Adopt(id, principal, history, born, now) => AdoptLinks(w, id, principal, history, born, now);
    case _ =>
  }

  lemma AdoptLinks(w: World, id: Id, principal: Principal, history: seq<FinishedRun>, born: Option<int>, now: int)
    ensures SameConnections(w, DoAdopt(w, id, principal, history, born, now))
  {
  }

  lemma StopLinks(w: World, step: StopStep)
    ensures SameConnections(w, ApplyStop(w, step))
  {
    match step
    case Stop(pid, id, principal, now) => BeginLinks(w, pid, id, principal, now);
    case StopRelease(pid, removed, _) => if At(w, pid) && w.core.procs[pid].StopReleasing? { if removed {} else {} }
    case StopUnlink(pid) => if At(w, pid) && w.core.procs[pid].StopUnlinking? {}
    case StopObserve(pid, _, _, _, _) => if At(w, pid) && w.core.procs[pid].StopObserving? {}
    case StopFinish(pid, now, removed, note, trace, saved) => StopFinishLinks(w, pid, now, removed, note, trace, saved);
  }

  lemma BeginLinks(w: World, pid: Pid, id: Id, principal: Principal, now: int)
    ensures SameConnections(w, DoStop(w, pid, id, principal, now))
  {
    if now !in w.core.taken && !At(w, pid) && id in w.core.sessions { if Terminal(w.core.sessions[id].phase) {} else {} }
  }

  lemma StopFinishLinks(w: World, pid: Pid, now: int, removed: bool, note: string, trace: string, saved: bool)
    ensures SameConnections(w, DoStopFinish(w, pid, now, removed, note, trace, saved))
  {
    if now !in w.core.taken && At(w, pid) && w.core.procs[pid].StopFinishing? {
      if w.core.procs[pid].snap.id !in w.core.sessions {} else if saved {} else {}
    }
  }

  lemma ClaimLinks(w: World, step: ClaimStep)
    ensures SameConnections(w, ApplyClaim(w, step))
  {
    match step
    case Persist(pid, saved) => PersistLinks(w, pid, saved);
    case RetireRelease(_, _, _) => CleanupLinks(w, step);
    case FreezeRun(_, _, _, _) => CleanupLinks(w, step);
    case Issue(_, _, _, _, _, _) => CleanupLinks(w, step);
    case _ => LockLinks(w, step);
  }

  lemma CleanupLinks(w: World, step: ClaimStep)
    requires step.RetireRelease? || step.FreezeRun? || step.Issue?
    ensures SameConnections(w, ApplyClaim(w, step))
  {
    match step
    case RetireRelease(pid, removed, ok) => ReleaseLinks(w, pid, removed, ok);
    case FreezeRun(pid, removed, trace, saved) => FreezeLinks(w, pid, removed, trace, saved);
    case Issue(pid, modes, tunnel, now, written, ok) => IssueLinks(w, pid, modes, tunnel, now, written, ok);
    case _ =>
  }

  lemma ReleaseLinks(w: World, pid: Pid, removed: bool, ok: bool)
    ensures SameConnections(w, DoRetireRelease(w, pid, removed, ok))
  {
    if At(w, pid) && w.core.procs[pid].Retiring? { if ok || w.core.procs[pid].snap.tunnel == "" {} else {} }
  }

  lemma IssueLinks(w: World, pid: Pid, modes: seq<string>, tunnel: string, now: int, written: bool, ok: bool)
    ensures SameConnections(w, DoIssue(w, pid, modes, tunnel, now, written, ok))
  {
    if now !in w.core.taken && At(w, pid) && w.core.procs[pid].Claimed? { if written && ok {} else {} }
  }

  lemma FreezeLinks(w: World, pid: Pid, removed: bool, trace: string, saved: bool)
    ensures SameConnections(w, DoFreezeRun(w, pid, removed, trace, saved))
  {
    if At(w, pid) && w.core.procs[pid].Freezing? { if saved && !RemovalFails(w.core.procs[pid].snap, removed) {} else {} }
  }

  lemma LockLinks(w: World, step: ClaimStep)
    requires step.Retire? || step.Lock? || step.Claim? || step.Unissue?
    ensures SameConnections(w, ApplyClaim(w, step))
  {
    match step
    case Retire(pid, _, id, _) => if !At(w, pid) && id in w.core.sessions {}
    case Lock(pid) => if At(w, pid) && w.core.procs[pid].Waiting? {}
    case Claim(pid) => if At(w, pid) && w.core.procs[pid].Preparing? {}
    case Unissue(pid, removed) => if At(w, pid) && w.core.procs[pid].Unissuing? { if removed {} else {} }
    case _ =>
  }

  lemma PersistLinks(w: World, pid: Pid, saved: bool)
    ensures SameConnections(w, DoPersist(w, pid, saved))
  {
    if At(w, pid) && w.core.procs[pid].Issued? {
      var q := w.core.procs[pid];
      if saved && q.prev.id in w.core.sessions && IntentApplies(w.core.sessions[q.prev.id], q.prev) {
        if q.launcher == Plane {} else {}
      } else {
      }
    }
  }

  lemma SubmitLinks(w: World, step: SubmitStep)
    ensures SameConnections(w, ApplySubmit(w, step))
  {
    match step
    case Provision(pid, ok) => if At(w, pid) && w.core.procs[pid].Submitted? { if ok {} else {} }
    case Submit(pid, outcome) => OutcomeLinks(w, pid, outcome);
    case AbandonRelease(pid, removed, _) => if At(w, pid) && w.core.procs[pid].Abandoning? { if removed {} else {} }
    case Scancel(pid, _) => if At(w, pid) && w.core.procs[pid].Cancelling? {}
    case _ => MarkLinks(w, step);
  }

  lemma OutcomeLinks(w: World, pid: Pid, outcome: Submission)
    ensures SameConnections(w, DoSubmit(w, pid, outcome))
  {
    if At(w, pid) && w.core.procs[pid].Provisioned? {}
  }

  lemma MarkLinks(w: World, step: SubmitStep)
    requires step.Record? || step.Abandon? || step.Note?
    ensures SameConnections(w, ApplySubmit(w, step))
  {
    match step
    case Record(pid, now, saved) => JobLinks(w, pid, now, saved);
    case Abandon(pid, now, saved) =>
      if now !in w.core.taken && At(w, pid) && w.core.procs[pid].Abandoned? {
        var q := w.core.procs[pid];
        if saved && q.intent.id in w.core.sessions && AbandonApplies(w.core.sessions[q.intent.id], q.intent) {} else {}
      }
    case Note(pid, now, saved) =>
      if now !in w.core.taken && At(w, pid) && w.core.procs[pid].Noting? {
        var q := w.core.procs[pid];
        if saved && q.intent.id in w.core.sessions && CancelNoteApplies(w.core.sessions[q.intent.id], q.jobId) {} else {}
      }
    case _ =>
  }

  lemma JobLinks(w: World, pid: Pid, now: int, saved: bool)
    ensures SameConnections(w, DoRecord(w, pid, now, saved))
  {
    if now !in w.core.taken && At(w, pid) && w.core.procs[pid].Returned? {
      var q := w.core.procs[pid];
      if saved && q.intent.id in w.core.sessions {
        if Superseded(SubmittedJob(w.core.sessions[q.intent.id], q.jobId, now)) {} else {}
      } else {
      }
    }
  }

  lemma WatchLinks(w: World, step: WatchStep)
    ensures SameConnections(w, ApplyWatch(w, step))
  {
    match step
    case Watch(pid, id) => if !At(w, pid) && id in w.core.sessions {}
    case Observe(pid, _, _, _, _) => if At(w, pid) && w.core.procs[pid].Watching? {}
    case MergeWatched(pid, now, removed, note, trace, saved) => MergeLinks(w, pid, now, removed, note, trace, saved);
  }

  lemma MergeLinks(w: World, pid: Pid, now: int, removed: bool, note: string, trace: string, saved: bool)
    ensures SameConnections(w, DoMerge(w, pid, now, removed, note, trace, saved))
  {
    if now !in w.core.taken && At(w, pid) && w.core.procs[pid].Watched? {
      var q := w.core.procs[pid];
      if q.snap.id !in w.core.sessions || !MergeApplies(w.core.sessions[q.snap.id], q.snap, q.cand) {} else if saved {} else {}
    }
  }

  lemma RegisterKeeps(w: World, pid: Pid)
    requires LinksOk(w)
    ensures LinksOk(DoRegister(w, pid))
  {
    if At(w, pid) && w.core.procs[pid].Linking? {
      var d := DoRegister(w, pid);
      forall id | id in d.links ensures LinkOk(d, id) { assert id != w.core.procs[pid].snap.id ==> LinkOk(w, id); }
    }
  }

  lemma ClosedKeeps(w: World, pid: Pid)
    requires LinksOk(w)
    ensures LinksOk(DoLinkClosed(w, pid))
  {
    if At(w, pid) && w.core.procs[pid].Linked? {
      var d := DoLinkClosed(w, pid);
      forall id | id in d.links ensures LinkOk(d, id) { assert LinkOk(w, id); }
    }
  }

  lemma LinkStepKeeps(w: World, step: LinkStep)
    requires LinksOk(w)
    ensures LinksOk(ApplyLink(w, step))
  {
    match step
    case OpenLink(pid, id) => assert SameConnections(w, DoLink(w, pid, id)); SameConnectionsKeep(w, DoLink(w, pid, id));
    case Register(pid) => RegisterKeeps(w, pid);
    case LinkReady(pid, now, saved) => ReadyLinks(w, pid, now, saved); SameConnectionsKeep(w, DoLinkReady(w, pid, now, saved));
    case LinkClosed(pid) => ClosedKeeps(w, pid);
  }

  lemma ReadyLinks(w: World, pid: Pid, now: int, saved: bool)
    ensures SameConnections(w, DoLinkReady(w, pid, now, saved))
  {
    if now !in w.core.taken && At(w, pid) && w.core.procs[pid].Registered? {
      var s := w.core.procs[pid].snap;
      if saved && s.id in w.core.sessions && LinkApplies(w.core.sessions[s.id], s.seqNo) {} else {}
    }
  }

  lemma LinksStep(w: World, step: Step)
    requires LinksOk(w)
    ensures LinksOk(Apply(w, step))
  {
    match step
    case OnRecord(s) => RecordLinks(w, s); SameConnectionsKeep(w, ApplyRecord(w, s));
    case OnStop(s) => StopLinks(w, s); SameConnectionsKeep(w, ApplyStop(w, s));
    case OnClaim(s) => ClaimLinks(w, s); SameConnectionsKeep(w, ApplyClaim(w, s));
    case OnSubmit(s) => SubmitLinks(w, s); SameConnectionsKeep(w, ApplySubmit(w, s));
    case OnWatch(s) => WatchLinks(w, s); SameConnectionsKeep(w, ApplyWatch(w, s));
    case OnLink(s) => LinkStepKeeps(w, s);
    case GiveUp(pid) => GiveUpLinks(w, pid); SameConnectionsKeep(w, DoGiveUp(w, pid));
    case Forget(jobId) => SameConnectionsKeep(w, DoForget(w, jobId));
    case Restart =>
  }

  lemma GiveUpLinks(w: World, pid: Pid) ensures SameConnections(w, DoGiveUp(w, pid)) {}

  lemma {:induction false} LinksAreConnections(steps: seq<Step>)
    ensures LinksOk(Run(steps))
  {
    if steps != [] {
      LinksAreConnections(steps[..|steps| - 1]);
      LinksStep(Run(steps[..|steps| - 1]), steps[|steps| - 1]);
    }
  }

  /** In every reachable state, a run that is taken for linked has a connection of its own id and seq. */
  lemma LinkedIsConnected(steps: seq<Step>, s: Session)
    requires LinkedNow(Run(steps), s)
    ensures Connected(Run(steps), s.id, s.seqNo)
  {
    LinksAreConnections(steps);
    var w := Run(steps);
    assert LinkOk(w, s.id);
    assert ConnectionAt(w.core.procs, w.links[s.id].pid).Some?;
  }

  // ----- a pass that nothing disturbs

  /** What the laws of passes say of one answer. */
  function AfterAnswer(s: Session, a: Answer, p: Pass): Session {
    match a
    case Seen(o, cancelError) => AfterReport(s, Report(o, cancelError, p))
    case Missing(cancelError) => AfterPass(s, cancelError, p)
    case Unreachable(error) => AfterFailure(s, Failure(error, p))
    case Probe(healthy) => AfterProbe(s, Probing(healthy, p))
  }

  function PassOver(pid: Pid, id: Id, a: Answer, heard: bool, started: bool, now: int, t: int, trace: string): seq<Step> {
    [OnWatch(WatchStep.Watch(pid, id)), OnWatch(Observe(pid, a, heard, started, now)), OnWatch(MergeWatched(pid, t, true, "", trace, true))]
  }

  lemma PassUndisturbed(w: World, pid: Pid, id: Id, a: Answer, heard: bool, started: bool, now: int, t: int, trace: string)
    requires !At(w, pid) && t !in w.core.taken && id in w.core.sessions && w.core.sessions[id].id == id
    ensures var s := w.core.sessions[id];
            var linked := id in w.links && w.links[id].seqNo == s.seqNo;
            var d := DoMerge(DoObserve(DoWatch(w, pid, id), pid, a, heard, started, now), pid, t, true, "", trace, true);
            && d.core.sessions == w.core.sessions[id := if heard then AfterAnswer(s, a, Pass(now, t, started, linked)) else s]
            && d.core.procs == w.core.procs
  {
    var s := w.core.sessions[id];
    var watching := DoWatch(w, pid, id);
    var watched := DoObserve(watching, pid, a, heard, started, now);
    assert watched.core == Enter(w.core, pid, Watched(s, CandidateOf(w, s, a, heard, started, now)));
    MergeUndisturbed(w, watched, pid, s, CandidateOf(w, s, a, heard, started, now), t, trace);
    if heard { AnswerMerges(s, a, Pass(now, t, started, id in w.links && w.links[id].seqNo == s.seqNo)); }
  }

  lemma AnswerMerges(s: Session, a: Answer, p: Pass)
    ensures AfterAnswer(s, a, p) == Frozen(Merge(s, s, PromoteByLog(Candidate(s, a, p.linked, p.seen), p.started), p.merged), true, "")
  {
  }

  lemma MergeUndisturbed(w: World, d: World, pid: Pid, s: Session, cand: Session, t: int, trace: string)
    requires !At(w, pid) && t !in w.core.taken && s.id in w.core.sessions && w.core.sessions[s.id] == s
    requires d.core == Enter(w.core, pid, Watched(s, cand))
    ensures var e := DoMerge(d, pid, t, true, "", trace, true).core;
            e.sessions == w.core.sessions[s.id := Frozen(Merge(s, s, cand, t), true, "")] && e.procs == w.core.procs
  {
    if MergeApplies(s, s, cand) {} else {}
  }

  /**
   A pass over a session that nothing disturbs stores exactly what the laws of passes say of its answer, with a link
   exactly when the registry has one for the run's own seq; a pass that was cut short stores nothing.
   */
  lemma UndisturbedPass(steps: seq<Step>, pid: Pid, id: Id, a: Answer, heard: bool, started: bool, now: int, t: int, trace: string)
    requires !At(Run(steps), pid) && t !in Run(steps).core.taken && id in Run(steps).core.sessions
    ensures var w := Run(steps);
            var s := w.core.sessions[id];
            var linked := id in w.links && w.links[id].seqNo == s.seqNo;
            var d := Run(steps + PassOver(pid, id, a, heard, started, now, t, trace));
            && d.core.sessions == w.core.sessions[id := if heard then AfterAnswer(s, a, Pass(now, t, started, linked)) else s]
            && d.core.procs == w.core.procs
  {
    RunsAreSafe(steps);
    assert Run(steps).core.sessions[id].id == id;
    RunThree(steps, OnWatch(WatchStep.Watch(pid, id)), OnWatch(Observe(pid, a, heard, started, now)), OnWatch(MergeWatched(pid, t, true, "", trace, true)));
    PassUndisturbed(Run(steps), pid, id, a, heard, started, now, t, trace);
  }

  // ----- a link that nothing disturbs

  function LinkSteps(pid: Pid, id: Id, t: int): seq<Step> {
    [OnLink(OpenLink(pid, id)), OnLink(Register(pid)), OnLink(LinkReady(pid, t, true))]
  }

  lemma LinkUndisturbed(w: World, pid: Pid, id: Id, t: int)
    requires !At(w, pid) && t !in w.core.taken && id in w.core.sessions && w.core.sessions[id].id == id && !Terminal(w.core.sessions[id].phase)
    ensures var s := w.core.sessions[id];
            var d := DoLinkReady(DoRegister(DoLink(w, pid, id), pid), pid, t, true);
            && d.links == w.links[id := Link(s.seqNo, pid)] && ConnectionAt(d.core.procs, pid) == Some(s)
            && d.core.sessions ==
               (if s.phase == Queued || s.phase == Starting then
                  w.core.sessions[id := s.(phase := Ready, error := "", updatedAt := t, startedAt := if s.startedAt.Some? then s.startedAt else Some(t))]
                else w.core.sessions)
  {
    var s := w.core.sessions[id];
    var open := DoLink(w, pid, id);
    var registered := DoRegister(open, pid);
    assert registered.core == Enter(w.core, pid, Registered(s)) && registered.links == w.links[id := Link(s.seqNo, pid)];
    ReadyStores(w, registered, pid, s, t);
  }

  lemma ReadyStores(w: World, d: World, pid: Pid, s: Session, t: int)
    requires d.core == Enter(w.core, pid, Registered(s)) && t !in w.core.taken && s.id in w.core.sessions && w.core.sessions[s.id] == s
    ensures var e := DoLinkReady(d, pid, t, true);
            && e.links == d.links && ConnectionAt(e.core.procs, pid) == Some(s)
            && e.core.sessions ==
               (if s.phase == Queued || s.phase == Starting then
                  w.core.sessions[s.id := s.(phase := Ready, error := "", updatedAt := t, startedAt := if s.startedAt.Some? then s.startedAt else Some(t))]
                else w.core.sessions)
  {
    if LinkApplies(s, s.seqNo) {} else {}
  }

  /**
   A link of a run that is not over, when nothing disturbs it, replaces the link of the id in the registry and makes a
   queued or starting run Ready, started now unless it had started; it leaves a run that is being stopped, submitted or
   already Ready alone. A run that is over is refused.
   */
  lemma UndisturbedLink(steps: seq<Step>, pid: Pid, id: Id, t: int)
    requires !At(Run(steps), pid) && t !in Run(steps).core.taken && id in Run(steps).core.sessions
    ensures var w := Run(steps);
            var s := w.core.sessions[id];
            var d := Run(steps + LinkSteps(pid, id, t));
            if Terminal(s.phase) then d == w
            else
              && d.links == w.links[id := Link(s.seqNo, pid)] && ConnectionAt(d.core.procs, pid) == Some(s)
              && d.core.sessions ==
                 (if s.phase == Queued || s.phase == Starting then
                    w.core.sessions[id := s.(phase := Ready, error := "", updatedAt := t, startedAt := if s.startedAt.Some? then s.startedAt else Some(t))]
                  else w.core.sessions)
  {
    RunsAreSafe(steps);
    var w := Run(steps);
    assert w.core.sessions[id].id == id;
    RunThree(steps, OnLink(OpenLink(pid, id)), OnLink(Register(pid)), OnLink(LinkReady(pid, t, true)));
    if Terminal(w.core.sessions[id].phase) {} else { LinkUndisturbed(w, pid, id, t); }
  }

  /** The end of a connection takes its link out of the registry, unless a later connection has replaced it. */
  lemma ClosedLinkIsDropped(steps: seq<Step>, pid: Pid)
    requires At(Run(steps), pid) && Run(steps).core.procs[pid].Linked?
    ensures var w, d := Run(steps), Run(steps + [OnLink(LinkClosed(pid))]);
            var id := w.core.procs[pid].snap.id;
            && d.core.procs == w.core.procs - {pid} && d.core.sessions == w.core.sessions
            && d.links == (if id in w.links && w.links[id].pid == pid then w.links - {id} else w.links)
  {
    RunOne(steps, OnLink(LinkClosed(pid)));
  }

  /** A link that is ready while another run or life of the id is stored leaves its record alone. */
  lemma StaleLinkChangesNothing(steps: seq<Step>, pid: Pid, t: int, saved: bool)
    requires At(Run(steps), pid) && Run(steps).core.procs[pid].Registered?
    requires var s := Run(steps).core.procs[pid].snap;
             s.id in Run(steps).core.sessions ==> Run(steps).core.sessions[s.id].seqNo != s.seqNo || Settled(Run(steps).core.sessions[s.id].phase)
    ensures Run(steps + [OnLink(LinkReady(pid, t, saved))]).core.sessions == Run(steps).core.sessions
  {
    RunOne(steps, OnLink(LinkReady(pid, t, saved)));
  }
}
