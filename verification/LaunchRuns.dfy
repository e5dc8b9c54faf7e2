/**
 Launches as whole operations of the session protocol (subsystems/session/lifecycle.go, tunnel.go): what each stores when
 nothing disturbs it, what a failed one takes back, and whom it is refused to.
 */
module LaunchRuns {
  import opened SessionTypes
  import opened SessionCycles
  import opened SessionProtocol
  import opened SessionInvariant
  import opened SessionTheorems
  import opened StopLaws
  import CapabilityCleanup

  // ----- up to the claim

  /** Process `pid` goes on as `q`; the records and the clock stay. */
  predicate GoesOn(w: World, d: World, pid: Pid, q: Proc) { d.core == w.core.(procs := w.core.procs[pid := q]) }

  /** The same rest of the world. */
  predicate SameRest(w: World, d: World) { d.links == w.links && d.accepted == w.accepted }

  lemma Retires(w: World, pid: Pid, launcher: Launcher, id: Id)
    requires !At(w, pid) && id in w.core.sessions && Terminal(w.core.sessions[id].phase)
    ensures var s := w.core.sessions[id];
            var d := DoRetire(w, pid, launcher, id, s.owner);
            GoesOn(w, d, pid, Retiring(launcher, s)) && d.caps == w.caps && d.runs == w.runs && SameRest(w, d)
  {
  }

  lemma Releases(w: World, pid: Pid, launcher: Launcher, s: Session)
    requires At(w, pid) && w.core.procs[pid] == Retiring(launcher, s)
    ensures var d := DoRetireRelease(w, pid, true, true);
            && GoesOn(w, d, pid, Freezing(launcher, s)) && d.runs == w.runs && SameRest(w, d)
            && d.caps == (if s.tunnel != "" then w.caps - {(s.id, s.seqNo)} else w.caps)
  {
  }

  lemma Freezes(w: World, pid: Pid, launcher: Launcher, s: Session, trace: string)
    requires At(w, pid) && w.core.procs[pid] == Freezing(launcher, s) && Terminal(s.phase)
    ensures var d := DoFreezeRun(w, pid, true, trace, true);
            && GoesOn(w, d, pid, Waiting(launcher, s)) && d.runs == FrozenRuns(w.runs, s, true, trace) && SameRest(w, d)
            && d.caps == (if s.seqNo != 0 then w.caps - {(s.id, s.seqNo)} else w.caps)
  {
  }

  lemma Locks(w: World, pid: Pid, launcher: Launcher, s: Session)
    requires At(w, pid) && w.core.procs[pid] == Waiting(launcher, s) && LockFree(w.core.procs, s.id)
    ensures var d := DoLock(w, pid);
            GoesOn(w, d, pid, Preparing(launcher, s)) && d.caps == w.caps && d.runs == w.runs && SameRest(w, d)
  {
  }

  lemma Claims(w: World, pid: Pid, launcher: Launcher, s: Session)
    requires At(w, pid) && w.core.procs[pid] == Preparing(launcher, s) && s.id in w.core.sessions && w.core.sessions[s.id] == s && Terminal(s.phase)
    ensures var d := DoClaim(w, pid);
            GoesOn(w, d, pid, Claimed(launcher, s, s)) && d.caps == w.caps && d.runs == w.runs && SameRest(w, d)
  {
  }

  function Prepared(w: World, pid: Pid, launcher: Launcher, id: Id, owner: Principal, trace: string): World {
    DoFreezeRun(DoRetireRelease(DoRetire(w, pid, launcher, id, owner), pid, true, true), pid, true, trace, true)
  }

  lemma PreparesLaunch(w: World, pid: Pid, launcher: Launcher, id: Id, trace: string)
    requires !At(w, pid) && id in w.core.sessions && Terminal(w.core.sessions[id].phase) && w.core.sessions[id].id == id
    requires (id, 0) !in w.caps || w.core.sessions[id].seqNo != 0
    ensures var s := w.core.sessions[id];
            var d := Prepared(w, pid, launcher, id, s.owner, trace);
            && GoesOn(w, d, pid, Waiting(launcher, s)) && d.runs == FrozenRuns(w.runs, s, true, trace) && SameRest(w, d)
            && d.caps == w.caps - {(id, s.seqNo)}
  {
    var s := w.core.sessions[id];
    var retired := DoRetire(w, pid, launcher, id, s.owner);
    var released := DoRetireRelease(retired, pid, true, true);
    Retires(w, pid, launcher, id);
    Releases(retired, pid, launcher, s);
    Freezes(released, pid, launcher, s, trace);
  }

  lemma ClaimsLaunch(w: World, d: World, pid: Pid, launcher: Launcher, s: Session)
    requires GoesOn(w, d, pid, Waiting(launcher, s)) && !At(w, pid) && LockFree(w.core.procs, s.id)
    requires s.id in w.core.sessions && w.core.sessions[s.id] == s && Terminal(s.phase)
    ensures var e := DoClaim(DoLock(d, pid), pid);
            GoesOn(w, e, pid, Claimed(launcher, s, s)) && e.caps == d.caps && e.runs == d.runs && SameRest(d, e)
  {
    WaiterIsNoHolder(w.core.procs, d.core.procs, pid, launcher, s);
    Locks(d, pid, launcher, s);
    Claims(DoLock(d, pid), pid, launcher, s);
  }

  lemma WaiterIsNoHolder(procs: map<Pid, Proc>, after: map<Pid, Proc>, pid: Pid, launcher: Launcher, s: Session)
    requires after == procs[pid := Waiting(launcher, s)] && LockFree(procs, s.id)
    ensures LockFree(after, s.id)
  {
  }

  // ----- the intent

  /** The record a launch stores: the next seq, with nothing of the run before. */
  function Launched(launcher: Launcher, s: Session, modes: seq<string>, tunnel: string, t: int): Session {
    s.(seqNo := s.seqNo + 1, phase := if launcher == Plane then Submitting else Queued, launcher := launcher,
       spec := if launcher == Client then s.spec.(tunnelModes := modes) else s.spec, error := "", startedAt := None,
       updatedAt := t, tunnel := tunnel, jobId := "", node := "", jobName := JobName(s.id, s.seqNo + 1))
  }

  lemma IntentIsLaunched(launcher: Launcher, s: Session, modes: seq<string>, tunnel: string, t: int)
    ensures Intent(launcher, if launcher == Client then s.spec.(tunnelModes := modes) else s.spec, s, tunnel, t) ==
            Launched(launcher, s, modes, tunnel, t)
  {
  }

  lemma Issues(w: World, pid: Pid, launcher: Launcher, s: Session, modes: seq<string>, tunnel: string, t: int)
    requires At(w, pid) && w.core.procs[pid] == Claimed(launcher, s, s) && t !in w.core.taken
    ensures var d := DoIssue(w, pid, modes, tunnel, t, true, true);
            && d.core.sessions == w.core.sessions && d.core.procs == w.core.procs[pid := Issued(launcher, s, Launched(launcher, s, modes, tunnel, t))]
            && d.caps == w.caps + {(s.id, s.seqNo + 1)} && d.runs == w.runs && SameRest(w, d)
  {
    IntentIsLaunched(launcher, s, modes, tunnel, t);
  }

  lemma Persists(w: World, pid: Pid, launcher: Launcher, s: Session, intent: Session)
    requires At(w, pid) && w.core.procs[pid] == Issued(launcher, s, intent) && intent.id == s.id
    requires s.id in w.core.sessions && w.core.sessions[s.id] == s
    ensures var d := DoPersist(w, pid, true);
            && d.core.sessions == w.core.sessions[s.id := intent] && d.caps == w.caps && d.runs == w.runs && SameRest(w, d)
            && d.core.procs == (if launcher == Plane then w.core.procs[pid := Submitted(intent)] else w.core.procs - {pid})
  {
    if launcher == Plane {} else {}
  }

  function LaunchSteps(pid: Pid, launcher: Launcher, id: Id, owner: Principal, trace: string, modes: seq<string>, tunnel: string, t: int): seq<Step> {
    [OnClaim(Retire(pid, launcher, id, owner)), OnClaim(RetireRelease(pid, true, true)), OnClaim(FreezeRun(pid, true, trace, true))] +
    ([OnClaim(Lock(pid)), OnClaim(Claim(pid))] + [OnClaim(Issue(pid, modes, tunnel, t, true, true)), OnClaim(Persist(pid, true))])
  }

  function Launch(w: World, pid: Pid, launcher: Launcher, id: Id, owner: Principal, trace: string, modes: seq<string>, tunnel: string, t: int): World {
    DoPersist(DoIssue(DoClaim(DoLock(Prepared(w, pid, launcher, id, owner, trace), pid), pid), pid, modes, tunnel, t, true, true), pid, true)
  }

  /** What a launch that nothing disturbs leads to. */
  predicate LaunchLeaves(w: World, d: World, pid: Pid, launcher: Launcher, s: Session, intent: Session, trace: string) {
    && d.core.sessions == w.core.sessions[s.id := intent] && d.runs == FrozenRuns(w.runs, s, true, trace)
    && d.caps == w.caps - {(s.id, s.seqNo)} + {(s.id, s.seqNo + 1)} && d.links == w.links
    && d.core.procs == (if launcher == Plane then w.core.procs[pid := Submitted(intent)] else w.core.procs)
  }

  lemma StoresLaunch(w: World, claimed: World, pid: Pid, launcher: Launcher, s: Session, trace: string, modes: seq<string>, tunnel: string, t: int)
    requires !At(w, pid) && GoesOn(w, claimed, pid, Claimed(launcher, s, s)) && t !in w.core.taken && s.id in w.core.sessions && w.core.sessions[s.id] == s
    requires claimed.runs == FrozenRuns(w.runs, s, true, trace) && claimed.caps == w.caps - {(s.id, s.seqNo)} && claimed.links == w.links
    ensures LaunchLeaves(w, DoPersist(DoIssue(claimed, pid, modes, tunnel, t, true, true), pid, true), pid, launcher, s,
                         Launched(launcher, s, modes, tunnel, t), trace)
  {
    Issues(claimed, pid, launcher, s, modes, tunnel, t);
    Persists(DoIssue(claimed, pid, modes, tunnel, t, true, true), pid, launcher, s, Launched(launcher, s, modes, tunnel, t));
  }

  lemma LaunchUndisturbed(w: World, pid: Pid, launcher: Launcher, id: Id, trace: string, modes: seq<string>, tunnel: string, t: int)
    requires !At(w, pid) && LockFree(w.core.procs, id) && t !in w.core.taken
    requires id in w.core.sessions && Terminal(w.core.sessions[id].phase) && w.core.sessions[id].id == id
    requires (id, 0) !in w.caps || w.core.sessions[id].seqNo != 0
    ensures var s := w.core.sessions[id];
            LaunchLeaves(w, Launch(w, pid, launcher, id, s.owner, trace, modes, tunnel, t), pid, launcher, s, Launched(launcher, s, modes, tunnel, t), trace)
  {
    var s := w.core.sessions[id];
    var prepared := Prepared(w, pid, launcher, id, s.owner, trace);
    PreparesLaunch(w, pid, launcher, id, trace);
    ClaimsLaunch(w, prepared, pid, launcher, s);
    StoresLaunch(w, DoClaim(DoLock(prepared, pid), pid), pid, launcher, s, trace, modes, tunnel, t);
  }

  lemma {:induction false} RunOnSplit(w: World, a: seq<Step>, b: seq<Step>)
    ensures RunOn(w, a + b) == RunOn(RunOn(w, a), b)
    decreases |a|
  {
    if a == [] {
      assert a + b == b;
    } else {
      assert (a + b)[1..] == a[1..] + b;
      RunOnSplit(Apply(w, a[0]), a[1..], b);
    }
  }

  lemma OnLaunch(w: World, pid: Pid, launcher: Launcher, id: Id, owner: Principal, trace: string, modes: seq<string>, tunnel: string, t: int)
    ensures RunOn(w, LaunchSteps(pid, launcher, id, owner, trace, modes, tunnel, t)) == Launch(w, pid, launcher, id, owner, trace, modes, tunnel, t)
  {
    var prepare := [OnClaim(Retire(pid, launcher, id, owner)), OnClaim(RetireRelease(pid, true, true)), OnClaim(FreezeRun(pid, true, trace, true))];
    var claim := [OnClaim(Lock(pid)), OnClaim(Claim(pid))];
    var store := [OnClaim(Issue(pid, modes, tunnel, t, true, true)), OnClaim(Persist(pid, true))];
    RunOnSplit(w, prepare, claim + store);
    OnThree(w, prepare[0], prepare[1], prepare[2]);
    var prepared := Prepared(w, pid, launcher, id, owner, trace);
    assert RunOn(w, prepare) == prepared;
    RunOnSplit(prepared, claim, store);
    OnTwo(prepared, claim[0], claim[1]);
    var claimed := DoClaim(DoLock(prepared, pid), pid);
    assert RunOn(prepared, claim) == claimed;
    OnTwo(claimed, store[0], store[1]);
  }

  /**
   A launch by the owner of a session that is over, when nothing fails or disturbs it: the run before is frozen, its
   capability file is gone and that of the next seq is there; the record is the next seq with nothing left of the run
   before but who owns it and when it was created; Start then goes on to submit it, Attach is done.
   */
  lemma UndisturbedLaunch(steps: seq<Step>, pid: Pid, launcher: Launcher, id: Id, trace: string, modes: seq<string>, tunnel: string, t: int)
    requires var w := Run(steps);
             !At(w, pid) && LockFree(w.core.procs, id) && t !in w.core.taken && id in w.core.sessions && Terminal(w.core.sessions[id].phase)
    ensures var w := Run(steps);
            var s := w.core.sessions[id];
            LaunchLeaves(w, Run(steps + LaunchSteps(pid, launcher, id, s.owner, trace, modes, tunnel, t)), pid, launcher, s,
                         Launched(launcher, s, modes, tunnel, t), trace)
  {
    KeyedRun(steps, id);
    NoFileForSeqZero(steps, id);
    RunLaunch(steps, pid, launcher, id, Run(steps).core.sessions[id].owner, trace, modes, tunnel, t);
    LaunchUndisturbed(Run(steps), pid, launcher, id, trace, modes, tunnel, t);
  }

  lemma RunLaunch(steps: seq<Step>, pid: Pid, launcher: Launcher, id: Id, owner: Principal, trace: string, modes: seq<string>, tunnel: string, t: int)
    ensures Run(steps + LaunchSteps(pid, launcher, id, owner, trace, modes, tunnel, t)) == Launch(Run(steps), pid, launcher, id, owner, trace, modes, tunnel, t)
  {
    RunMore(steps, LaunchSteps(pid, launcher, id, owner, trace, modes, tunnel, t));
    OnLaunch(Run(steps), pid, launcher, id, owner, trace, modes, tunnel, t);
  }

  lemma KeyedRun(steps: seq<Step>, id: Id)
    requires id in Run(steps).core.sessions
    ensures Run(steps).core.sessions[id].id == id
  {
    RunsAreSafe(steps);
  }

  lemma NoFileForSeqZero(steps: seq<Step>, id: Id)
    ensures (id, 0) !in Run(steps).caps
  {
    if (id, 0) in Run(steps).caps { CapabilityCleanup.NoFileOutlivesItsRun(steps, id, 0); }
  }

  // ----- who may operate

  /** The principal in whose name a step begins an operation on a session. */
  predicate Begins(step: Step, id: Id, principal: Principal) {
    || (step.OnStop? && step.stop.Stop? && step.stop.id == id && step.stop.principal == principal)
    || (step.OnClaim? && step.claim.Retire? && step.claim.id == id && step.claim.principal == principal)
    || (step.OnRecord? && step.record.Delete? && step.record.id == id && step.record.principal == principal)
    || (step.OnRecord? && step.record.Adopt? && step.record.id == id && step.record.principal == principal)
  }

  /** Over every run: only the owner of a stored session can begin to stop, launch, delete or adopt it. */
  lemma OnlyOwnersOperate(steps: seq<Step>, step: Step, id: Id, principal: Principal)
    requires Begins(step, id, principal) && Run(steps + [step]) != Run(steps)
    ensures id in Run(steps).core.sessions && Run(steps).core.sessions[id].owner == principal
    ensures (step.OnClaim? || (step.OnRecord? && step.record.Delete?)) ==> Terminal(Run(steps).core.sessions[id].phase)
  {
    RunOne(steps, step);
    OwnerBegins(Run(steps), step, id, principal);
  }

  lemma OwnerBegins(w: World, step: Step, id: Id, principal: Principal)
    requires Begins(step, id, principal) && Apply(w, step) != w
    ensures id in w.core.sessions && w.core.sessions[id].owner == principal
    ensures (step.OnClaim? || (step.OnRecord? && step.record.Delete?)) ==> Terminal(w.core.sessions[id].phase)
  {
  }

  /** Over every run: a launch claims a record of the owner it was begun for, also when the id was defined again since. */
  lemma LaunchesStayWithTheirOwner(steps: seq<Step>, pid: Pid)
    requires At(Run(steps), pid) && Run(steps).core.procs[pid].Claimed?
    ensures var q := Run(steps).core.procs[pid]; q.prev.id == q.snap.id && q.prev.owner == q.snap.owner && Terminal(q.prev.phase)
  {
    RunsAreSafe(steps);
    assert ProcOk(Run(steps).core, Run(steps).core.procs[pid]);
  }

  // ----- launches that fail on the way

  /** The process ends, and the records, the files but one, and the history are left alone. */
  predicate EndsEarly(w: World, d: World, pid: Pid) {
    d.core.sessions == w.core.sessions && d.core.procs == w.core.procs - {pid} && d.runs == w.runs && d.caps <= w.caps
  }

  /**
   A launch that cannot release the tunnel of the run before, cannot remove its file or record it, or finds that the
   session was launched, deleted or taken over by someone else, ends without touching a record.
   */
  lemma LaunchesEndEarly(steps: seq<Step>, pid: Pid, step: ClaimStep)
    requires At(Run(steps), pid)
    requires var w := Run(steps);
             var q := w.core.procs[pid];
             || (q.Retiring? && step == RetireRelease(pid, false, false) && q.snap.tunnel != "")
             || (q.Freezing? && step.FreezeRun? && step.pid == pid && !step.saved)
             || (q.Freezing? && step.FreezeRun? && step.pid == pid && !step.removed && q.snap.seqNo != 0)
             || (q.Preparing? && step == Claim(pid) &&
                 (q.snap.id !in w.core.sessions || w.core.sessions[q.snap.id].owner != q.snap.owner || !Terminal(w.core.sessions[q.snap.id].phase)))
    ensures EndsEarly(Run(steps), Run(steps + [OnClaim(step)]), pid)
  {
    RunOne(steps, OnClaim(step));
    RunsAreSafe(steps);
    assert ProcOk(Run(steps).core, Run(steps).core.procs[pid]);
    StepEndsEarly(Run(steps), pid, step);
  }

  lemma StepEndsEarly(w: World, pid: Pid, step: ClaimStep)
    requires At(w, pid) && (w.core.procs[pid].Freezing? ==> Terminal(w.core.procs[pid].snap.phase))
    requires var q := w.core.procs[pid];
             || (q.Retiring? && step == RetireRelease(pid, false, false) && q.snap.tunnel != "")
             || (q.Freezing? && step.FreezeRun? && step.pid == pid && !step.saved)
             || (q.Freezing? && step.FreezeRun? && step.pid == pid && !step.removed && q.snap.seqNo != 0)
             || (q.Preparing? && step == Claim(pid) &&
                 (q.snap.id !in w.core.sessions || w.core.sessions[q.snap.id].owner != q.snap.owner || !Terminal(w.core.sessions[q.snap.id].phase)))
    ensures EndsEarly(w, ApplyClaim(w, step), pid)
  {
  }

  /** Issuing fails, the save fails, or the record is not the one that was claimed any more. */
  predicate IssueFails(w: World, pid: Pid, first: ClaimStep) {
    At(w, pid) &&
    var q := w.core.procs[pid];
    || (q.Claimed? && first.Issue? && first.pid == pid && first.now !in w.core.taken && !(first.written && first.ok))
    || (q.Issued? && first.Persist? && first.pid == pid &&
        (!first.saved || q.prev.id !in w.core.sessions || w.core.sessions[q.prev.id].updatedAt != q.prev.updatedAt ||
         w.core.sessions[q.prev.id].phase != q.prev.phase))
  }

  function TakeBackSteps(pid: Pid, first: ClaimStep): seq<Step> { [OnClaim(first), OnClaim(Unissue(pid, true))] }

  /** The file of the seq after the claimed record is gone, the process has ended, and nothing else has changed. */
  predicate TakenBackTo(w: World, d: World, pid: Pid) {
    && At(w, pid) && (w.core.procs[pid].Claimed? || w.core.procs[pid].Issued?)
    && d.core.sessions == w.core.sessions && d.core.procs == w.core.procs - {pid} && d.runs == w.runs
    && d.caps == w.caps - {(w.core.procs[pid].prev.id, w.core.procs[pid].prev.seqNo + 1)}
  }

  /** A launch whose capability could not be issued, or whose intent was not stored, takes its file back. */
  lemma FailedIssueIsTakenBack(steps: seq<Step>, pid: Pid, first: ClaimStep)
    requires IssueFails(Run(steps), pid, first)
    ensures TakenBackTo(Run(steps), Run(steps + TakeBackSteps(pid, first)), pid)
  {
    IssuedIntent(steps, pid);
    RunTakeBack(steps, pid, first);
    TakenBack(Run(steps), pid, first);
  }

  /** An intent is that of the seq after the claimed record. */
  predicate IntentFollows(w: World, pid: Pid) {
    At(w, pid) && w.core.procs[pid].Issued? ==>
      w.core.procs[pid].intent.id == w.core.procs[pid].prev.id && w.core.procs[pid].intent.seqNo == w.core.procs[pid].prev.seqNo + 1
  }

  lemma IssuedIntent(steps: seq<Step>, pid: Pid)
    ensures IntentFollows(Run(steps), pid)
  {
    RunsAreSafe(steps);
    assert At(Run(steps), pid) ==> ProcOk(Run(steps).core, Run(steps).core.procs[pid]);
  }

  lemma RunTakeBack(steps: seq<Step>, pid: Pid, first: ClaimStep)
    ensures Run(steps + TakeBackSteps(pid, first)) == DoUnissue(ApplyClaim(Run(steps), first), pid, true)
  {
    RunTwo(steps, OnClaim(first), OnClaim(Unissue(pid, true)));
  }

  lemma TakenBack(w: World, pid: Pid, first: ClaimStep)
    requires IssueFails(w, pid, first)
    requires IntentFollows(w, pid)
    ensures TakenBackTo(w, DoUnissue(ApplyClaim(w, first), pid, true), pid)
  {
    var q := w.core.procs[pid];
    var a := ApplyClaim(w, first);
    assert At(a, pid) && a.core.procs[pid].Unissuing? && a.core.procs[pid].intent.id == q.prev.id && a.core.procs[pid].intent.seqNo == q.prev.seqNo + 1;
    assert a.core.sessions == w.core.sessions && a.core.procs - {pid} == w.core.procs - {pid} && a.runs == w.runs;
    assert a.caps == w.caps || a.caps == w.caps + {(q.prev.id, q.prev.seqNo + 1)};
  }

  // ----- submitting

  /** The record and the process of a launch that has stored its intent. */
  predicate Stored(w: World, pid: Pid, intent: Session) {
    At(w, pid) && w.core.procs[pid] == Submitted(intent) && intent.id in w.core.sessions && w.core.sessions[intent.id] == intent &&
    intent.phase == Submitting && intent.jobId == ""
  }

  function SubmitSteps(pid: Pid, jobId: string, t: int): seq<Step> {
    [OnSubmit(Provision(pid, true)), OnSubmit(Submit(pid, Accepted(jobId))), OnSubmit(Record(pid, t, true))]
  }

  /** A submission that is accepted: the record is Queued with its job, which the scheduler has under the run's name. */
  lemma UndisturbedSubmission(steps: seq<Step>, pid: Pid, intent: Session, jobId: string, t: int)
    requires Stored(Run(steps), pid, intent) && jobId != "" && jobId !in Run(steps).accepted && t !in Run(steps).core.taken
    ensures var w, d := Run(steps), Run(steps + SubmitSteps(pid, jobId, t));
            && d.core.sessions == w.core.sessions[intent.id := intent.(phase := Queued, jobId := jobId, updatedAt := t)]
            && d.core.procs == w.core.procs - {pid} && d.caps == w.caps && d.cancelled == w.cancelled
            && jobId in d.accepted && d.accepted[jobId].name == intent.jobName && d.kept == w.kept + {jobId}
  {
    RunSubmission(steps, pid, jobId, t);
    SubmissionUndisturbed(Run(steps), pid, intent, jobId, t);
  }

  lemma RunSubmission(steps: seq<Step>, pid: Pid, jobId: string, t: int)
    ensures Run(steps + SubmitSteps(pid, jobId, t)) == DoRecord(DoSubmit(DoProvision(Run(steps), pid, true), pid, Accepted(jobId)), pid, t, true)
  {
    RunThree(steps, OnSubmit(Provision(pid, true)), OnSubmit(Submit(pid, Accepted(jobId))), OnSubmit(Record(pid, t, true)));
  }

  lemma SubmissionUndisturbed(w: World, pid: Pid, intent: Session, jobId: string, t: int)
    requires Stored(w, pid, intent) && jobId != "" && jobId !in w.accepted && t !in w.core.taken
    ensures var d := DoRecord(DoSubmit(DoProvision(w, pid, true), pid, Accepted(jobId)), pid, t, true);
            && d.core.sessions == w.core.sessions[intent.id := intent.(phase := Queued, jobId := jobId, updatedAt := t)]
            && d.core.procs == w.core.procs - {pid} && d.caps == w.caps && d.cancelled == w.cancelled
            && jobId in d.accepted && d.accepted[jobId].name == intent.jobName && d.kept == w.kept + {jobId}
  {
    var provisioned := DoProvision(w, pid, true);
    assert GoesOn(w, provisioned, pid, Provisioned(intent));
    var returned := DoSubmit(provisioned, pid, Accepted(jobId));
    assert GoesOn(w, returned, pid, Returned(intent, jobId)) && returned.caps == w.caps && returned.kept == w.kept && returned.cancelled == w.cancelled;
    Recorded(returned, pid, intent, jobId, t);
  }

  lemma Recorded(w: World, pid: Pid, intent: Session, jobId: string, t: int)
    requires At(w, pid) && w.core.procs[pid] == Returned(intent, jobId) && t !in w.core.taken
    requires intent.id in w.core.sessions && w.core.sessions[intent.id] == intent && intent.phase == Submitting
    ensures var d := DoRecord(w, pid, t, true);
            && d.core.sessions == w.core.sessions[intent.id := intent.(phase := Queued, jobId := jobId, updatedAt := t)]
            && d.core.procs == w.core.procs - {pid} && d.caps == w.caps && d.cancelled == w.cancelled && d.accepted == w.accepted
            && d.kept == w.kept + {jobId}
  {
  }

  /** How a launch fails for good: its environment cannot be prepared, or sbatch refuses the job. */
  function FailSteps(pid: Pid, refused: bool, removed: bool, note: string, t: int): seq<Step> {
    (if refused then [OnSubmit(Provision(pid, true)), OnSubmit(Submit(pid, Refused))] else [OnSubmit(Provision(pid, false))]) +
    [OnSubmit(AbandonRelease(pid, removed, note)), OnSubmit(Abandon(pid, t, true))]
  }

  lemma OnFail(w: World, pid: Pid, refused: bool, removed: bool, note: string, t: int)
    ensures RunOn(w, FailSteps(pid, refused, removed, note, t)) ==
            DoAbandon(DoAbandonRelease(if refused then DoSubmit(DoProvision(w, pid, true), pid, Refused) else DoProvision(w, pid, false),
                                       pid, removed, note), pid, t, true)
  {
    var start := if refused then [OnSubmit(Provision(pid, true)), OnSubmit(Submit(pid, Refused))] else [OnSubmit(Provision(pid, false))];
    var end := [OnSubmit(AbandonRelease(pid, removed, note)), OnSubmit(Abandon(pid, t, true))];
    RunOnSplit(w, start, end);
    if refused { OnTwo(w, start[0], start[1]); } else { OnOne(w, start[0]); }
    OnTwo(RunOn(w, start), end[0], end[1]);
  }

  lemma OnOne(w: World, a: Step)
    ensures RunOn(w, [a]) == Apply(w, a)
  {
    assert [a][1..] == [];
  }

  /** A launch that fails for good is compensated: its file is released, and its record says Failed and why. */
  lemma FailedLaunchIsCompensated(steps: seq<Step>, pid: Pid, intent: Session, refused: bool, removed: bool, note: string, t: int)
    requires Stored(Run(steps), pid, intent) && t !in Run(steps).core.taken
    ensures var w, d := Run(steps), Run(steps + FailSteps(pid, refused, removed, note, t));
            && d.core.sessions == w.core.sessions[intent.id := intent.(phase := Failed, tunnel := "", error := note, updatedAt := t)]
            && d.core.procs == w.core.procs - {pid} && d.accepted == w.accepted
            && d.caps == (if removed then w.caps - {(intent.id, intent.seqNo)} else w.caps)
  {
    RunMore(steps, FailSteps(pid, refused, removed, note, t));
    OnFail(Run(steps), pid, refused, removed, note, t);
    Compensated(Run(steps), pid, intent, refused, removed, note, t);
  }

  lemma Compensated(w: World, pid: Pid, intent: Session, refused: bool, removed: bool, note: string, t: int)
    requires Stored(w, pid, intent) && t !in w.core.taken
    ensures var failed := if refused then DoSubmit(DoProvision(w, pid, true), pid, Refused) else DoProvision(w, pid, false);
            var d := DoAbandon(DoAbandonRelease(failed, pid, removed, note), pid, t, true);
            && d.core.sessions == w.core.sessions[intent.id := intent.(phase := Failed, tunnel := "", error := note, updatedAt := t)]
            && d.core.procs == w.core.procs - {pid} && d.accepted == w.accepted
            && d.caps == (if removed then w.caps - {(intent.id, intent.seqNo)} else w.caps)
  {
    var failed := if refused then DoSubmit(DoProvision(w, pid, true), pid, Refused) else DoProvision(w, pid, false);
    assert GoesOn(w, failed, pid, Abandoning(intent)) && failed.caps == w.caps && failed.accepted == w.accepted by {
      if refused { assert GoesOn(w, DoProvision(w, pid, true), pid, Provisioned(intent)); }
    }
    var released := DoAbandonRelease(failed, pid, removed, note);
    assert GoesOn(w, released, pid, Abandoned(intent, note));
    assert released.caps == (if removed then w.caps - {(intent.id, intent.seqNo)} else w.caps) && released.accepted == w.accepted;
    AbandonStores(released, pid, t, true);
    AbandonKeepsFiles(released, pid, t, true);
  }

  lemma AbandonKeepsFiles(w: World, pid: Pid, now: int, saved: bool)
    ensures DoAbandon(w, pid, now, saved).caps == w.caps && DoAbandon(w, pid, now, saved).accepted == w.accepted
  {
  }

  /** A submission whose outcome is unknown leaves the record and the file for reconciliation to find the job by its name. */
  lemma AmbiguousSubmissionIsLeft(steps: seq<Step>, pid: Pid, intent: Session, outcome: Submission)
    requires At(Run(steps), pid) && Run(steps).core.procs[pid] == Provisioned(intent)
    requires outcome.AmbiguousLost? || (outcome.AmbiguousTaken? && outcome.jobId != "" && outcome.jobId !in Run(steps).accepted)
    ensures var w, d := Run(steps), Run(steps + [OnSubmit(Submit(pid, outcome))]);
            && d.core.sessions == w.core.sessions && d.caps == w.caps && d.core.procs == w.core.procs - {pid}
            && (outcome.AmbiguousTaken? ==> outcome.jobId in d.accepted && d.accepted[outcome.jobId].name == intent.jobName)
  {
    RunOne(steps, OnSubmit(Submit(pid, outcome)));
  }

  function CancelSteps(pid: Pid, t: int, diagnostic: string, u: int): seq<Step> {
    [OnSubmit(Record(pid, t, true)), OnSubmit(Scancel(pid, diagnostic)), OnSubmit(Note(pid, u, true))]
  }

  lemma RunCancel(steps: seq<Step>, pid: Pid, t: int, diagnostic: string, u: int)
    ensures Run(steps + CancelSteps(pid, t, diagnostic, u)) == DoNote(DoScancel(DoRecord(Run(steps), pid, t, true), pid, diagnostic), pid, u, true)
  {
    RunThree(steps, OnSubmit(Record(pid, t, true)), OnSubmit(Scancel(pid, diagnostic)), OnSubmit(Note(pid, u, true)));
  }

  /** A job that came back after its run was stopped is stored, cancelled, and the outcome noted. */
  lemma SupersededJobIsCancelled(steps: seq<Step>, pid: Pid, intent: Session, jobId: string, t: int, diagnostic: string, u: int)
    requires At(Run(steps), pid) && Run(steps).core.procs[pid] == Returned(intent, jobId) && t !in Run(steps).core.taken
    requires u !in Run(steps).core.taken && u != t && intent.id in Run(steps).core.sessions
    requires Settled(Run(steps).core.sessions[intent.id].phase)
    ensures var w := Run(steps);
            var d := Run(steps + CancelSteps(pid, t, diagnostic, u));
            var s := w.core.sessions[intent.id];
            && d.core.sessions == w.core.sessions[intent.id := s.(jobId := jobId, error := diagnostic, updatedAt := u)]
            && d.core.procs == w.core.procs - {pid} && d.cancelled == w.cancelled + {jobId} && d.kept == w.kept
  {
    KeyedRun(steps, intent.id);
    RunCancel(steps, pid, t, diagnostic, u);
    SupersededCancelled(Run(steps), pid, intent, jobId, t, diagnostic, u);
  }

  /** The outcome of a cancellation is noted only on a record that has that very job and is not Queued. */
  lemma ForeignJobIsNotNoted(steps: seq<Step>, pid: Pid, u: int, saved: bool)
    requires At(Run(steps), pid) && Run(steps).core.procs[pid].Noting? && u !in Run(steps).core.taken
    requires var w, q := Run(steps).core, Run(steps).core.procs[pid];
             q.intent.id in w.sessions ==> w.sessions[q.intent.id].jobId != q.jobId || w.sessions[q.intent.id].phase == Queued
    ensures EndsEarly(Run(steps), Run(steps + [OnSubmit(Note(pid, u, saved))]), pid)
  {
    RunOne(steps, OnSubmit(Note(pid, u, saved)));
    NotNoted(Run(steps), pid, u, saved);
  }

  lemma NotNoted(w: World, pid: Pid, u: int, saved: bool)
    requires At(w, pid) && w.core.procs[pid].Noting? && u !in w.core.taken
    requires var q := w.core.procs[pid];
             q.intent.id in w.core.sessions ==> w.core.sessions[q.intent.id].jobId != q.jobId || w.core.sessions[q.intent.id].phase == Queued
    ensures EndsEarly(w, DoNote(w, pid, u, saved), pid)
  {
  }

  lemma SupersededCancelled(w: World, pid: Pid, intent: Session, jobId: string, t: int, diagnostic: string, u: int)
    requires At(w, pid) && w.core.procs[pid] == Returned(intent, jobId) && t !in w.core.taken && u !in w.core.taken && u != t
    requires intent.id in w.core.sessions && w.core.sessions[intent.id].id == intent.id && Settled(w.core.sessions[intent.id].phase)
    ensures var d := DoNote(DoScancel(DoRecord(w, pid, t, true), pid, diagnostic), pid, u, true);
            var s := w.core.sessions[intent.id];
            && d.core.sessions == w.core.sessions[intent.id := s.(jobId := jobId, error := diagnostic, updatedAt := u)]
            && d.core.procs == w.core.procs - {pid} && d.cancelled == w.cancelled + {jobId} && d.kept == w.kept
  {
    var s := w.core.sessions[intent.id];
    var r := s.(jobId := jobId, updatedAt := t);
    var a := DoRecord(w, pid, t, true);
    assert a.core.sessions == w.core.sessions[intent.id := r] && a.core.procs == w.core.procs[pid := Cancelling(intent, jobId, true)];
    assert a.core.taken == w.core.taken + {t} && a.cancelled == w.cancelled && a.kept == w.kept;
    var b := DoScancel(a, pid, diagnostic);
    assert b.core == a.core.(procs := w.core.procs[pid := Noting(intent, jobId, diagnostic)]) && b.cancelled == w.cancelled + {jobId};
    Noted(b, pid, intent, jobId, diagnostic, u);
  }

  lemma Noted(w: World, pid: Pid, intent: Session, jobId: string, diagnostic: string, u: int)
    requires At(w, pid) && w.core.procs[pid] == Noting(intent, jobId, diagnostic) && u !in w.core.taken
    requires intent.id in w.core.sessions && w.core.sessions[intent.id].id == intent.id
    requires w.core.sessions[intent.id].jobId == jobId && w.core.sessions[intent.id].phase != Queued
    ensures var d := DoNote(w, pid, u, true);
            && d.core.sessions == w.core.sessions[intent.id := w.core.sessions[intent.id].(error := diagnostic, updatedAt := u)]
            && d.core.procs == w.core.procs - {pid} && d.cancelled == w.cancelled && d.kept == w.kept
  {
  }
}
