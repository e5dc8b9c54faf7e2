/** The properties of the session lifecycle over every run of its protocol. */
module SessionTheorems {
  import opened SessionTypes
  import opened Reconciliation
  import opened RunHistory
  import opened SessionCycles
  import opened SessionProtocol
  import opened SessionInvariant
  import opened SessionSafety
  import opened SessionCapability

  lemma {:induction false} RunsAreSafe(steps: seq<Step>)
    ensures Inv(Run(steps).core)
  {
    if steps != [] {
      RunsAreSafe(steps[..|steps| - 1]);
      StepSafe(Run(steps[..|steps| - 1]), steps[|steps| - 1]);
    }
  }

  // ----- no lost update

  /** In every run, two stored versions of a session with equal stamp and state are the same record. */
  lemma VersionsAreUnique(steps: seq<Step>, a: Session, b: Session)
    requires a in Run(steps).core.hist && b in Run(steps).core.hist && a.id == b.id && a.updatedAt == b.updatedAt && a.phase == b.phase
    ensures a == b
  {
    RunsAreSafe(steps);
  }

  /**
   In every run, a reconcile merge or a stop's merge whose snapshot passes the version check, and a submit intent
   whose previous record passes it, is applied to exactly the record it was computed from.
   */
  lemma NoLostUpdate(steps: seq<Step>, pid: Pid)
    requires At(Run(steps), pid)
    ensures var c := Run(steps).core;
            var q := c.procs[pid];
            && ((q.Watched? || q.StopFinishing?) && q.snap.id in c.sessions && SnapshotCurrent(c.sessions[q.snap.id], q.snap)
                ==> c.sessions[q.snap.id] == q.snap)
            && (q.Issued? && q.prev.id in c.sessions && IntentApplies(c.sessions[q.prev.id], q.prev)
                ==> c.sessions[q.prev.id] == q.prev)
  {
    RunsAreSafe(steps);
    var c := Run(steps).core;
    var q := c.procs[pid];
    assert ProcOk(c, q);
    if (q.Watched? || q.StopFinishing?) && q.snap.id in c.sessions && SnapshotCurrent(c.sessions[q.snap.id], q.snap) {
      SnapshotIsCurrent(c, q.snap);
    } else if q.Issued? && q.prev.id in c.sessions && IntentApplies(c.sessions[q.prev.id], q.prev) {
      SnapshotIsCurrent(c, q.prev);
    }
  }

  // ----- runs and their prefixes

  lemma {:induction false} HistoryGrows(steps: seq<Step>, i: nat)
    requires i <= |steps|
    ensures Run(steps[..i]).core.hist <= Run(steps).core.hist
  {
    if i < |steps| {
      var before := steps[..|steps| - 1];
      assert before[..i] == steps[..i];
      HistoryGrows(before, i);
      RunsAreSafe(before);
      StepSafe(Run(before), steps[|steps| - 1]);
    } else {
      assert steps[..i] == steps;
    }
  }

  /**
   Stop is sticky. Take a record at some moment of a run and the record under the same id at a later moment. If they
   belong to the same run of the session (the same life and seq), then a settled one stays settled and Submitting is not
   re-entered. In any case lives, seqs within a life, and owners move only forward.
   */
  lemma StopIsSticky(steps: seq<Step>, i: nat, id: Id)
    requires i <= |steps| && id in Run(steps[..i]).core.sessions && id in Run(steps).core.sessions
    ensures var a := Run(steps[..i]).core.sessions[id];
            var b := Run(steps).core.sessions[id];
            && a.life <= b.life
            && (a.life == b.life ==> a.owner == b.owner && a.seqNo <= b.seqNo)
            && (SameRun(a, b) && Settled(a.phase) ==> Settled(b.phase))
            && (SameRun(a, b) && b.phase == Submitting ==> a.phase == Submitting)
  {
    RunsAreSafe(steps[..i]);
    RunsAreSafe(steps);
    HistoryGrows(steps, i);
    var a := Run(steps[..i]).core.sessions[id];
    var b := Run(steps).core.sessions[id];
    assert Latest(Run(steps[..i]).core.hist, a);
    assert Latest(Run(steps).core.hist, b);
    assert Precedes(a, b);
  }

  predicate Keyed(c: Core) { forall id :: id in c.sessions ==> c.sessions[id].id == id }

  predicate SeqStays(c: Core, d: Core, id: Id) {
    id in c.sessions && id in d.sessions ==> d.sessions[id].seqNo == c.sessions[id].seqNo
  }

  lemma StoreSeq(c: Core, pid: Pid, r: Session, now: int, q: Option<Proc>, id: Id)
    requires r.id in c.sessions && r.seqNo == c.sessions[r.id].seqNo
    ensures SeqStays(c, Store(c, pid, r, now, q), id)
  {
  }

  lemma StopFinishSeq(w: World, pid: Pid, now: int, removed: bool, cleanup: string, trace: string, saved: bool, id: Id)
    requires Keyed(w.core)
    ensures SeqStays(w.core, DoStopFinish(w, pid, now, removed, cleanup, trace, saved).core, id)
  {
    if At(w, pid) && w.core.procs[pid].StopFinishing? {
      var q := w.core.procs[pid];
      if q.snap.id in w.core.sessions {
        var s := w.core.sessions[q.snap.id];
        assert s.id == q.snap.id;
        var m := StopMerged(s, q.snap, q.cand, q.note, now);
        assert m.id == s.id && m.seqNo == s.seqNo;
        StoreSeq(w.core, pid, Frozen(m, removed, cleanup), now, None, id);
      }
    }
  }

  lemma StopSeq(w: World, step: StopStep, id: Id)
    requires Keyed(w.core)
    ensures SeqStays(w.core, ApplyStop(w, step).core, id)
  {
    match step
    case StopFinish(pid, now, removed, note, trace, saved) => StopFinishSeq(w, pid, now, removed, note, trace, saved, id);
    case _ =>
  }

  lemma SubmitSeq(w: World, step: SubmitStep, id: Id)
    requires Keyed(w.core)
    ensures SeqStays(w.core, ApplySubmit(w, step).core, id)
  {
    if step.Record? || step.Abandon? || step.Note? {
      RecordSeq(w, step, id);
    }
  }

  lemma RecordSeq(w: World, step: SubmitStep, id: Id)
    requires Keyed(w.core) && (step.Record? || step.Abandon? || step.Note?)
    ensures SeqStays(w.core, ApplySubmit(w, step).core, id)
  {
    if At(w, step.pid) && (w.core.procs[step.pid].Returned? || w.core.procs[step.pid].Abandoned? || w.core.procs[step.pid].Noting?) {
      var key := w.core.procs[step.pid].intent.id;
      assert key in w.core.sessions ==> w.core.sessions[key].id == key;
    }
  }

  lemma WatchSeq(w: World, step: WatchStep, id: Id)
    requires Keyed(w.core)
    ensures SeqStays(w.core, ApplyWatch(w, step).core, id)
  {
    if step.MergeWatched? && At(w, step.pid) && w.core.procs[step.pid].Watched? {
      var key := w.core.procs[step.pid].snap.id;
      assert key in w.core.sessions ==> w.core.sessions[key].id == key;
    }
  }

  lemma LinkSeq(w: World, step: LinkStep, id: Id)
    requires Keyed(w.core)
    ensures SeqStays(w.core, ApplyLink(w, step).core, id)
  {
    if step.LinkReady? && At(w, step.pid) && w.core.procs[step.pid].Registered? {
      var key := w.core.procs[step.pid].snap.id;
      assert key in w.core.sessions ==> w.core.sessions[key].id == key;
    }
  }

  lemma ClaimSeq(w: World, step: ClaimStep, id: Id)
    requires !step.Persist?
    ensures SeqStays(w.core, ApplyClaim(w, step).core, id)
  {
  }

  lemma RecordStepSeq(w: World, step: RecordStep, id: Id)
    requires Inv(w.core) && id in w.core.sessions && id in ApplyRecord(w, step).core.sessions
    ensures var b := ApplyRecord(w, step).core.sessions[id];
            b.seqNo != w.core.sessions[id].seqNo ==> step.Adopt? && step.id == b.id && b.seqNo == |step.history|
  {
    if step.Adopt? && step.id in w.core.sessions { assert w.core.sessions[step.id].id == step.id; }
  }

  /** Only two cycles change a seq: storing a submit intent, and adopting a history, which sets it to the run count. */
  predicate MovesSeq(step: Step, b: Session) {
    || (step.OnClaim? && step.claim.Persist?)
    || (step.OnRecord? && step.record.Adopt? && step.record.id == b.id && b.seqNo == |step.record.history|)
  }

  lemma SeqMovesOnlyBy(w: World, step: Step, id: Id)
    requires Inv(w.core) && id in w.core.sessions && id in Apply(w, step).core.sessions
    ensures var a := w.core.sessions[id]; var b := Apply(w, step).core.sessions[id]; a.seqNo != b.seqNo ==> MovesSeq(step, b)
  {
    match step
    case OnRecord(s) => RecordStepSeq(w, s, id);
    case OnClaim(s) => if !s.Persist? { ClaimSeq(w, s, id); }
    case _ => OtherSeq(w, step, id);
  }

  lemma OtherSeq(w: World, step: Step, id: Id)
    requires Keyed(w.core) && !step.OnRecord? && !step.OnClaim?
    ensures SeqStays(w.core, Apply(w, step).core, id)
  {
    match step
    case OnStop(s) => StopSeq(w, s, id);
    case OnSubmit(s) => SubmitSeq(w, s, id);
    case OnWatch(s) => WatchSeq(w, s, id);
    case OnLink(s) => LinkSeq(w, s, id);
    case _ =>
  }

  /** Seq discipline: what any one step of any run does to any stored record. */
  lemma SeqDiscipline(steps: seq<Step>, step: Step, id: Id)
    requires id in Run(steps).core.sessions && id in Run(steps + [step]).core.sessions
    ensures RecordMoves(Run(steps).core, Run(steps).core.sessions[id], Run(steps + [step]).core.sessions[id])
    ensures var b := Run(steps + [step]).core.sessions[id];
            Run(steps).core.sessions[id].seqNo != b.seqNo ==> MovesSeq(step, b)
  {
    RunsAreSafe(steps);
    StepSafe(Run(steps), step);
    assert (steps + [step])[..|steps|] == steps;
    SeqMovesOnlyBy(Run(steps), step, id);
  }

  /**
   Between its submit intent and its job record, a launch finds its own seq, or a record of a later life that was never
   launched, or none; and no other launch of the id is under way.
   */
  lemma LaunchFindsItsRun(steps: seq<Step>, pid: Pid, other: Pid)
    requires At(Run(steps), pid) && At(Run(steps), other)
    requires var q := Run(steps).core.procs[pid]; q.Submitted? || q.Provisioned? || q.Abandoning? || q.Abandoned? || q.Returned?
    ensures var c := Run(steps).core;
            var intent := c.procs[pid].intent;
            && (intent.id in c.sessions && c.sessions[intent.id].life == intent.life ==> c.sessions[intent.id].seqNo == intent.seqNo)
            && (intent.id in c.sessions && c.sessions[intent.id].life != intent.life ==>
                  c.sessions[intent.id].life > intent.life && Settled(c.sessions[intent.id].phase))
            && (forall v :: v in c.hist && v.id == intent.id && v.life > intent.life ==> Settled(v.phase))
            && (HoldsLock(c.procs[other]) && ProcId(c.procs[other]) == intent.id ==> other == pid)
  {
    RunsAreSafe(steps);
    var c := Run(steps).core;
    assert ProcOk(c, c.procs[pid]);
    var intent := c.procs[pid].intent;
    if intent.id in c.sessions {
      assert Latest(c.hist, c.sessions[intent.id]);
      assert Precedes(intent, c.sessions[intent.id]);
    }
  }

  // ----- the fate of a returned job

  predicate Carries(q: Proc, jobId: string) { CarriesJob(q) && q.jobId == jobId }

  predicate InFlight(c: Core, jobId: string) { exists p :: p in c.procs && Carries(c.procs[p], jobId) }

  predicate BeingCancelled(c: Core, jobId: string) {
    exists p :: p in c.procs && c.procs[p].Cancelling? && c.procs[p].jobId == jobId
  }

  /** The job id was stored on a Queued record of the very run it was submitted for. */
  predicate KeptOn(hist: set<Session>, intent: Session, jobId: string) {
    exists v :: v in hist && SameRun(v, intent) && v.jobId == jobId && v.phase == Queued
  }

  /** A process that carries a job is the launch it was returned to. */
  predicate CarriersOk(w: World) {
    forall p :: p in w.core.procs && CarriesJob(w.core.procs[p]) ==>
                  w.core.procs[p].jobId in w.returned && w.returned[w.core.procs[p].jobId] == w.core.procs[p].intent
  }

  predicate FateInv(w: World) {
    && CarriersOk(w) && w.returned.Keys <= w.accepted.Keys && w.lost <= w.returned.Keys
    && (forall j :: j in w.returned ==> j in w.kept || j in w.cancelled || j in w.lost || InFlight(w.core, j))
    && (forall j :: j in w.kept ==> j in w.returned && KeptOn(w.core.hist, w.returned[j], j))
    && (forall j :: j in w.stopFirst ==> j in w.cancelled || j in w.lost || BeingCancelled(w.core, j))
  }

  ghost predicate SameFates(w: World, d: World) {
    && d.accepted == w.accepted && d.returned == w.returned && d.kept == w.kept && d.cancelled == w.cancelled
    && d.stopFirst == w.stopFirst && d.lost == w.lost && w.core.hist <= d.core.hist
    && (forall p :: CarrierAt(d.core.procs, p) == CarrierAt(w.core.procs, p))
  }

  /** The process at `p`, if it carries a job. */
  function CarrierAt(procs: map<Pid, Proc>, p: Pid): Option<Proc> {
    if p in procs && CarriesJob(procs[p]) then Some(procs[p]) else None
  }

  lemma KeptOnGrows(before: set<Session>, after: set<Session>, intent: Session, jobId: string)
    requires before <= after && KeptOn(before, intent, jobId)
    ensures KeptOn(after, intent, jobId)
  {
    var v :| v in before && SameRun(v, intent) && v.jobId == jobId && v.phase == Queued;
    assert v in after;
  }

  lemma SameFatesKeep(w: World, d: World)
    requires FateInv(w) && SameFates(w, d)
    ensures FateInv(d)
  {
    forall p | p in d.core.procs && CarriesJob(d.core.procs[p])
      ensures d.core.procs[p].jobId in d.returned && d.returned[d.core.procs[p].jobId] == d.core.procs[p].intent
    {
      assert CarrierAt(d.core.procs, p) == CarrierAt(w.core.procs, p);
    }
    forall j | j in d.returned ensures j in d.kept || j in d.cancelled || j in d.lost || InFlight(d.core, j) {
      if InFlight(w.core, j) {
        var p :| p in w.core.procs && Carries(w.core.procs[p], j);
        assert CarrierAt(d.core.procs, p) == CarrierAt(w.core.procs, p);
      }
    }
    forall j | j in d.kept ensures KeptOn(d.core.hist, d.returned[j], j) {
      KeptOnGrows(w.core.hist, d.core.hist, w.returned[j], j);
    }
    forall j | j in d.stopFirst ensures j in d.cancelled || j in d.lost || BeingCancelled(d.core, j) {
      if BeingCancelled(w.core, j) {
        var p :| p in w.core.procs && w.core.procs[p].Cancelling? && w.core.procs[p].jobId == j;
        assert CarrierAt(d.core.procs, p) == CarrierAt(w.core.procs, p);
      }
    }
  }

  lemma RecordFates(w: World, step: RecordStep)
    ensures SameFates(w, ApplyRecord(w, step))
  {
    match step
    case Stamp(now) =>
    case Define(id, _, _, _, stamp) => if stamp in w.core.stamped && id !in w.core.sessions {}
    case Adopt(id, principal, history, born, now) => AdoptFate(w, id, principal, history, born, now);
    case Delete(pid, id, principal) => if !At(w, pid) && id in w.core.sessions {}
    case DeleteCapability(pid, removed) => if At(w, pid) && w.core.procs[pid].Deleting? { if removed {} else {} }
    case Stats(_, _, _) =>
  }

  lemma AdoptFate(w: World, id: Id, principal: Principal, history: seq<FinishedRun>, born: Option<int>, now: int)
    ensures SameFates(w, DoAdopt(w, id, principal, history, born, now))
  {
  }

  lemma StopFates(w: World, step: StopStep)
    ensures SameFates(w, ApplyStop(w, step))
  {
    match step
    case Stop(pid, id, principal, now) => StopFate(w, pid, id, principal, now);
    case StopRelease(pid, removed, _) => if At(w, pid) && w.core.procs[pid].StopReleasing? { if removed {} else {} }
    case StopUnlink(pid) => if At(w, pid) && w.core.procs[pid].StopUnlinking? {}
    case StopObserve(pid, _, _, _, _) => if At(w, pid) && w.core.procs[pid].StopObserving? {}
    case StopFinish(pid, now, removed, note, trace, saved) => StopFinishFate(w, pid, now, removed, note, trace, saved);
  }

  lemma StopFate(w: World, pid: Pid, id: Id, principal: Principal, now: int)
    ensures SameFates(w, DoStop(w, pid, id, principal, now))
  {
    if now !in w.core.taken && !At(w, pid) && id in w.core.sessions { if Terminal(w.core.sessions[id].phase) {} else {} }
  }

  lemma StopFinishFate(w: World, pid: Pid, now: int, removed: bool, note: string, trace: string, saved: bool)
    ensures SameFates(w, DoStopFinish(w, pid, now, removed, note, trace, saved))
  {
    if now !in w.core.taken && At(w, pid) && w.core.procs[pid].StopFinishing? {
      if w.core.procs[pid].snap.id !in w.core.sessions {} else if saved {} else {}
    }
  }

  lemma ClaimFates(w: World, step: ClaimStep)
    ensures SameFates(w, ApplyClaim(w, step))
  {
    match step
    case RetireRelease(pid, removed, ok) => RetireReleaseFate(w, pid, removed, ok);
    case FreezeRun(pid, removed, trace, saved) => FreezeRunFate(w, pid, removed, trace, saved);
    case Issue(pid, modes, tunnel, now, written, ok) => IssueFate(w, pid, modes, tunnel, now, written, ok);
    case Persist(pid, saved) => PersistFate(w, pid, saved);
    case _ => LockFates(w, step);
  }

  lemma LockFates(w: World, step: ClaimStep)
    requires step.Retire? || step.Lock? || step.Claim? || step.Unissue?
    ensures SameFates(w, ApplyClaim(w, step))
  {
    match step
    case Retire(pid, _, id, _) => if !At(w, pid) && id in w.core.sessions {}
    case Lock(pid) => if At(w, pid) && w.core.procs[pid].Waiting? {}
    case Claim(pid) => if At(w, pid) && w.core.procs[pid].Preparing? {}
    case Unissue(pid, removed) => if At(w, pid) && w.core.procs[pid].Unissuing? { if removed {} else {} }
    case _ =>
  }

  lemma RetireReleaseFate(w: World, pid: Pid, removed: bool, ok: bool)
    ensures SameFates(w, DoRetireRelease(w, pid, removed, ok))
  {
    if At(w, pid) && w.core.procs[pid].Retiring? { if ok || w.core.procs[pid].snap.tunnel == "" {} else {} }
  }

  lemma FreezeRunFate(w: World, pid: Pid, removed: bool, trace: string, saved: bool)
    ensures SameFates(w, DoFreezeRun(w, pid, removed, trace, saved))
  {
    if At(w, pid) && w.core.procs[pid].Freezing? { if saved && !RemovalFails(w.core.procs[pid].snap, removed) {} else {} }
  }

  lemma IssueFate(w: World, pid: Pid, modes: seq<string>, tunnel: string, stamp: int, written: bool, ok: bool)
    ensures SameFates(w, DoIssue(w, pid, modes, tunnel, stamp, written, ok))
  {
    if stamp !in w.core.taken && At(w, pid) && w.core.procs[pid].Claimed? { if written && ok {} else {} }
  }

  lemma PersistFate(w: World, pid: Pid, saved: bool)
    ensures SameFates(w, DoPersist(w, pid, saved))
  {
    if At(w, pid) && w.core.procs[pid].Issued? {
      var q := w.core.procs[pid];
      if saved && q.prev.id in w.core.sessions && IntentApplies(w.core.sessions[q.prev.id], q.prev) {
        if q.launcher == Plane {} else {}
      } else {
      }
    }
  }

  lemma WatchFates(w: World, step: WatchStep)
    ensures SameFates(w, ApplyWatch(w, step))
  {
    match step
    case Watch(pid, id) => if !At(w, pid) && id in w.core.sessions {}
    case Observe(pid, _, _, _, _) => if At(w, pid) && w.core.procs[pid].Watching? {}
    case MergeWatched(pid, now, removed, note, trace, saved) => MergeFate(w, pid, now, removed, note, trace, saved);
  }

  lemma MergeFate(w: World, pid: Pid, now: int, removed: bool, note: string, trace: string, saved: bool)
    ensures SameFates(w, DoMerge(w, pid, now, removed, note, trace, saved))
  {
    if now !in w.core.taken && At(w, pid) && w.core.procs[pid].Watched? {
      var q := w.core.procs[pid];
      if q.snap.id !in w.core.sessions || !MergeApplies(w.core.sessions[q.snap.id], q.snap, q.cand) {} else if saved {} else {}
    }
  }

  lemma LinkFates(w: World, step: LinkStep)
    ensures SameFates(w, ApplyLink(w, step))
  {
    match step
    case OpenLink(pid, id) => if !At(w, pid) && id in w.core.sessions {}
    case Register(pid) => if At(w, pid) && w.core.procs[pid].Linking? {}
    case LinkReady(pid, now, saved) =>
      if now !in w.core.taken && At(w, pid) && w.core.procs[pid].Registered? {
        var s := w.core.procs[pid].snap;
        if saved && s.id in w.core.sessions && LinkApplies(w.core.sessions[s.id], s.seqNo) {} else {}
      }
    case LinkClosed(pid) => if At(w, pid) && w.core.procs[pid].Linked? {}
  }

  lemma SubmitFates(w: World, step: SubmitStep)
    requires step.Provision? || step.AbandonRelease? || step.Abandon? || step.Note?
    ensures SameFates(w, ApplySubmit(w, step))
  {
    match step
    case Provision(pid, ok) => if At(w, pid) && w.core.procs[pid].Submitted? { if ok {} else {} }
    case AbandonRelease(pid, removed, _) => if At(w, pid) && w.core.procs[pid].Abandoning? { if removed {} else {} }
    case Abandon(pid, now, saved) => AbandonFate(w, pid, now, saved);
    case Note(pid, now, saved) => NoteFate(w, pid, now, saved);
    case _ =>
  }

  lemma AbandonFate(w: World, pid: Pid, now: int, saved: bool)
    ensures SameFates(w, DoAbandon(w, pid, now, saved))
  {
    if now !in w.core.taken && At(w, pid) && w.core.procs[pid].Abandoned? {
      var q := w.core.procs[pid];
      if saved && q.intent.id in w.core.sessions && AbandonApplies(w.core.sessions[q.intent.id], q.intent) {} else {}
    }
  }

  lemma NoteFate(w: World, pid: Pid, now: int, saved: bool)
    ensures SameFates(w, DoNote(w, pid, now, saved))
  {
    if now !in w.core.taken && At(w, pid) && w.core.procs[pid].Noting? {
      var q := w.core.procs[pid];
      if saved && q.intent.id in w.core.sessions && CancelNoteApplies(w.core.sessions[q.intent.id], q.jobId) {} else {}
    }
  }

  lemma SubmitFate(w: World, pid: Pid, outcome: Submission)
    requires FateInv(w)
    ensures FateInv(DoSubmit(w, pid, outcome))
  {
    var d := DoSubmit(w, pid, outcome);
    if outcome.Accepted? && d != w {
      var e := w.(core := Leave(w.core, pid));
      SameFatesKeep(w, e);
      ReturnFate(e, d, pid, outcome.jobId);
    } else if outcome.AmbiguousTaken? && d != w {
      SameFatesKeep(w, d.(accepted := w.accepted));
    } else {
      SameFatesKeep(w, d);
    }
  }

  /** sbatch returns a new job id. */
  lemma ReturnFate(w: World, d: World, pid: Pid, jobId: string)
    requires FateInv(w) && !At(w, pid) && jobId !in w.accepted && At(d, pid) && d.core.procs[pid].Returned?
    requires d.core.procs[pid].jobId == jobId
    requires d == w.(core := w.core.(procs := w.core.procs[pid := d.core.procs[pid]]), accepted := d.accepted,
                     returned := w.returned[jobId := d.core.procs[pid].intent])
    requires d.accepted.Keys == w.accepted.Keys + {jobId}
    ensures FateInv(d)
  {
    forall j | j in d.returned ensures j in d.kept || j in d.cancelled || j in d.lost || InFlight(d.core, j) {
      if j == jobId {
        assert Carries(d.core.procs[pid], j);
      } else if InFlight(w.core, j) {
        var p :| p in w.core.procs && Carries(w.core.procs[p], j);
        assert p in d.core.procs && Carries(d.core.procs[p], j);
      }
    }
    forall j | j in d.stopFirst ensures j in d.cancelled || j in d.lost || BeingCancelled(d.core, j) {
      if BeingCancelled(w.core, j) {
        var p :| p in w.core.procs && w.core.procs[p].Cancelling? && w.core.procs[p].jobId == j;
        assert p in d.core.procs && d.core.procs[p].Cancelling?;
      }
    }
  }

  /** A stop stored before the job id is recorded is seen by the recording cycle. */
  lemma StopIsSeen(c: Core, intent: Session, jobId: string, now: int)
    requires Inv(c) && Sent(c, intent) && StopWasStored(c.hist, intent) && intent.id in c.sessions
    ensures Superseded(SubmittedJob(c.sessions[intent.id], jobId, now))
  {
    var v :| v in c.hist && v.id == intent.id && v.life == intent.life && v.seqNo == intent.seqNo && Settled(v.phase);
    assert Latest(c.hist, c.sessions[intent.id]);
    assert Precedes(v, c.sessions[intent.id]);
  }

  /** Every other job's fate is untouched when one process moves on. */
  predicate OthersKept(w: World, d: World, pid: Pid) {
    && w.core.hist <= d.core.hist && w.kept <= d.kept && w.cancelled <= d.cancelled
    && d.accepted == w.accepted && d.returned == w.returned && d.lost == w.lost
    && (forall p :: p in w.core.procs && p != pid ==> p in d.core.procs && d.core.procs[p] == w.core.procs[p])
    && (forall p :: p in d.core.procs && p != pid ==> p in w.core.procs)
    && (pid in d.core.procs && CarriesJob(d.core.procs[pid]) ==>
          pid in w.core.procs && CarriesJob(w.core.procs[pid]) && d.core.procs[pid].jobId == w.core.procs[pid].jobId &&
          d.core.procs[pid].intent == w.core.procs[pid].intent)
  }

  lemma OneMoves(w: World, d: World, pid: Pid, jobId: string)
    requires FateInv(w) && OthersKept(w, d, pid) && pid in w.core.procs && Carries(w.core.procs[pid], jobId)
    requires jobId in d.kept || jobId in d.cancelled || BeingCancelled(d.core, jobId)
    requires d.kept <= w.kept + {jobId} && d.stopFirst <= w.stopFirst + {jobId}
    requires jobId in d.kept ==> jobId in w.kept || KeptOn(d.core.hist, w.core.procs[pid].intent, jobId)
    requires jobId in d.stopFirst ==> jobId in d.cancelled || BeingCancelled(d.core, jobId) ||
                                      (jobId in w.stopFirst && w.core.procs[pid].Returned?)
    ensures FateInv(d)
  {
    forall j | j in d.returned ensures j in d.kept || j in d.cancelled || j in d.lost || InFlight(d.core, j) {
      if j == jobId && BeingCancelled(d.core, j) {
        var p :| p in d.core.procs && d.core.procs[p].Cancelling? && d.core.procs[p].jobId == j;
        assert Carries(d.core.procs[p], j);
      } else if j != jobId && InFlight(w.core, j) {
        var p :| p in w.core.procs && Carries(w.core.procs[p], j);
        assert p != pid && Carries(d.core.procs[p], j);
      }
    }
    forall j | j in d.kept ensures j in d.returned && KeptOn(d.core.hist, d.returned[j], j) {
      if j in w.kept { KeptOnGrows(w.core.hist, d.core.hist, w.returned[j], j); }
    }
    forall j | j in d.stopFirst ensures j in d.cancelled || j in d.lost || BeingCancelled(d.core, j) {
      if j in w.stopFirst && BeingCancelled(w.core, j) && (j != jobId || w.core.procs[pid].Returned?) {
        var p :| p in w.core.procs && w.core.procs[p].Cancelling? && w.core.procs[p].jobId == j;
        assert p != pid && d.core.procs[p].Cancelling?;
      }
    }
  }

  lemma KeptFate(w: World, d: World, pid: Pid, now: int)
    requires FateInv(w) && Inv(w.core) && At(w, pid) && w.core.procs[pid].Returned?
    requires var q := w.core.procs[pid];
             && q.intent.id in w.core.sessions
             && var r := SubmittedJob(w.core.sessions[q.intent.id], q.jobId, now);
                && r.phase == Queued && r in d.core.hist && OthersKept(w, d, pid) && d.kept == w.kept + {q.jobId}
                && d.stopFirst == (if StopWasStored(w.core.hist, q.intent) then w.stopFirst + {q.jobId} else w.stopFirst)
    ensures FateInv(d)
  {
    var q := w.core.procs[pid];
    assert ProcOk(w.core, q);
    assert !StopWasStored(w.core.hist, q.intent) by {
      if StopWasStored(w.core.hist, q.intent) { StopIsSeen(w.core, q.intent, q.jobId, now); }
    }
    assert SameRun(w.core.sessions[q.intent.id], q.intent);
    OneMoves(w, d, pid, q.jobId);
  }

  lemma CancelFate(w: World, d: World, pid: Pid)
    requires FateInv(w) && At(w, pid) && w.core.procs[pid].Returned? && At(d, pid) && d.core.procs[pid].Cancelling?
    requires var jobId := w.core.procs[pid].jobId;
             && d.core.procs[pid].jobId == jobId && d.core.procs[pid].intent == w.core.procs[pid].intent && OthersKept(w, d, pid) && d.kept == w.kept
             && d.stopFirst <= w.stopFirst + {jobId}
    ensures FateInv(d)
  {
    OneMoves(w, d, pid, w.core.procs[pid].jobId);
  }

  lemma RecordFate(w: World, pid: Pid, now: int, saved: bool)
    requires FateInv(w) && Inv(w.core)
    ensures FateInv(DoRecord(w, pid, now, saved))
  {
    if now !in w.core.taken && At(w, pid) && w.core.procs[pid].Returned? {
      var q := w.core.procs[pid];
      var d := DoRecord(w, pid, now, saved);
      RecordShape(w, pid, now, saved);
      if saved && q.intent.id in w.core.sessions {
        if Superseded(SubmittedJob(w.core.sessions[q.intent.id], q.jobId, now)) { CancelFate(w, d, pid); } else { KeptFate(w, d, pid, now); }
      } else {
        CancelFate(w, d, pid);
      }
    }
  }

  lemma ScancelFate(w: World, pid: Pid, note: string)
    requires FateInv(w)
    ensures FateInv(DoScancel(w, pid, note))
  {
    if At(w, pid) && w.core.procs[pid].Cancelling? {
      OneMoves(w, DoScancel(w, pid, note), pid, w.core.procs[pid].jobId);
    }
  }

  lemma FateStep(w: World, step: Step)
    requires FateInv(w) && Inv(w.core)
    ensures FateInv(Apply(w, step))
  {
    match step
    case OnRecord(s) => RecordFates(w, s); SameFatesKeep(w, ApplyRecord(w, s));
    case OnStop(s) => StopFates(w, s); SameFatesKeep(w, ApplyStop(w, s));
    case OnClaim(s) => ClaimFates(w, s); SameFatesKeep(w, ApplyClaim(w, s));
    case OnWatch(s) => WatchFates(w, s); SameFatesKeep(w, ApplyWatch(w, s));
    case OnLink(s) => LinkFates(w, s); SameFatesKeep(w, ApplyLink(w, s));
    case OnSubmit(s) => SubmitStepFate(w, s);
    case GiveUp(pid) => GiveUpFate(w, pid); SameFatesKeep(w, DoGiveUp(w, pid));
    case Forget(jobId) => SameFatesKeep(w, DoForget(w, jobId));
    case Restart => RestartFate(w);
  }

  lemma GiveUpFate(w: World, pid: Pid) ensures SameFates(w, DoGiveUp(w, pid)) {}

  /** A restart loses exactly the jobs that only a process knew. */
  lemma RestartFate(w: World)
    requires FateInv(w)
    ensures FateInv(DoRestart(w))
  {
    var d := DoRestart(w);
    forall j | InFlight(w.core, j) ensures j in d.lost {
      var p :| p in w.core.procs && Carries(w.core.procs[p], j);
      assert w.core.procs[p].jobId in CarriedJobs(w.core);
    }
    forall j | BeingCancelled(w.core, j) ensures j in d.lost {
      var p :| p in w.core.procs && w.core.procs[p].Cancelling? && w.core.procs[p].jobId == j;
      assert Carries(w.core.procs[p], j);
    }
  }

  lemma SubmitStepFate(w: World, step: SubmitStep)
    requires FateInv(w) && Inv(w.core)
    ensures FateInv(ApplySubmit(w, step))
  {
    match step
    case Submit(pid, outcome) => SubmitFate(w, pid, outcome);
    case Record(pid, now, saved) => RecordFate(w, pid, now, saved);
    case Scancel(pid, note) => ScancelFate(w, pid, note);
    case _ => SubmitFates(w, step); SameFatesKeep(w, ApplySubmit(w, step));
  }

  /**
   Every job id that sbatch ever returned is stored on a Queued record of the run it was submitted for, or scancel was
   issued for it, or a launch still carries it, or it was carried by a launch when the service died; and if a stop of
   that run had been stored before the id was recorded, the first of these is not enough.
   */
  lemma {:induction false} ReturnedJobsAreSettled(steps: seq<Step>)
    ensures FateInv(Run(steps))
  {
    if steps != [] {
      ReturnedJobsAreSettled(steps[..|steps| - 1]);
      RunsAreSafe(steps[..|steps| - 1]);
      FateStep(Run(steps[..|steps| - 1]), steps[|steps| - 1]);
    }
  }

  /** What happened to a job is not forgotten. */
  ghost predicate FatesGrow(w: World, d: World) {
    && w.kept <= d.kept && w.cancelled <= d.cancelled && w.stopFirst <= d.stopFirst && w.lost <= d.lost
    && forall j :: j in w.returned ==> j in d.returned && d.returned[j] == w.returned[j]
  }

  lemma SubmitFatesGrow(w: World, step: SubmitStep)
    requires w.returned.Keys <= w.accepted.Keys
    ensures FatesGrow(w, ApplySubmit(w, step))
  {
    match step
    case Submit(pid, outcome) => if At(w, pid) && w.core.procs[pid].Provisioned? && outcome.Accepted? {}
    case Record(pid, now, saved) =>
      if now !in w.core.taken && At(w, pid) && w.core.procs[pid].Returned? { RecordShape(w, pid, now, saved); }
    case Scancel(pid, _) => if At(w, pid) && w.core.procs[pid].Cancelling? {}
    case _ => SubmitFates(w, step);
  }

  lemma FatesGrowStep(w: World, step: Step)
    requires w.returned.Keys <= w.accepted.Keys
    ensures FatesGrow(w, Apply(w, step))
  {
    match step
    case OnRecord(s) => RecordFates(w, s);
    case OnStop(s) => StopFates(w, s);
    case OnClaim(s) => ClaimFates(w, s);
    case OnWatch(s) => WatchFates(w, s);
    case OnLink(s) => LinkFates(w, s);
    case OnSubmit(s) => SubmitFatesGrow(w, s);
    case GiveUp(pid) => GiveUpFate(w, pid);
    case _ =>
  }

  /** Over every run, across restarts: a returned job stays returned, with its intent, and every fate stays recorded. */
  lemma {:induction false} FatesAreKept(steps: seq<Step>, i: nat)
    requires i <= |steps|
    ensures FatesGrow(Run(steps[..i]), Run(steps))
  {
    if i == |steps| {
      assert steps[..i] == steps;
    } else {
      var before := steps[..|steps| - 1];
      assert before[..i] == steps[..i];
      FatesAreKept(before, i);
      ReturnedJobsAreSettled(before);
      FatesGrowStep(Run(before), steps[|steps| - 1]);
    }
  }

  // ----- run history

  lemma AdoptHistory(w: World, id: Id, principal: Principal, history: seq<FinishedRun>, born: Option<int>, now: int)
    requires WellFormed(w.runs)
    ensures var runs := DoAdopt(w, id, principal, history, born, now).runs; WellFormed(runs) && Evolves(w.runs, runs)
  {
    assert EvolvesBy(w.runs, w.runs, 0);
    if DoAdopt(w, id, principal, history, born, now) != w {
      RecordAllKeeps(w.runs, AdoptedRuns(Adopted(w.core.sessions[id], history, born, now), history));
    }
  }

  lemma FrozenHistory(w: World, runs: seq<RunRecord>)
    requires WellFormed(w.runs)
    requires runs == w.runs || exists s, removed, trace :: runs == FrozenRuns(w.runs, s, removed, trace)
    ensures WellFormed(runs) && Evolves(w.runs, runs)
  {
    assert EvolvesBy(w.runs, w.runs, 0);
    if runs != w.runs {
      var s, removed, trace :| runs == FrozenRuns(w.runs, s, removed, trace);
      FreezeKeepsHistory(w.runs, s, removed, trace);
    }
  }

  lemma StopRuns(w: World, step: StopStep)
    requires WellFormed(w.runs)
    ensures var runs := ApplyStop(w, step).runs; WellFormed(runs) && Evolves(w.runs, runs)
  {
    FrozenHistory(w, ApplyStop(w, step).runs);
  }

  lemma ClaimRuns(w: World, step: ClaimStep)
    requires WellFormed(w.runs)
    ensures var runs := ApplyClaim(w, step).runs; WellFormed(runs) && Evolves(w.runs, runs)
  {
    FrozenHistory(w, ApplyClaim(w, step).runs);
  }

  lemma WatchRuns(w: World, step: WatchStep)
    requires WellFormed(w.runs)
    ensures var runs := ApplyWatch(w, step).runs; WellFormed(runs) && Evolves(w.runs, runs)
  {
    FrozenHistory(w, ApplyWatch(w, step).runs);
  }

  lemma SubmitRuns(w: World, step: SubmitStep) ensures ApplySubmit(w, step).runs == w.runs {}

  lemma LinkRuns(w: World, step: LinkStep) ensures ApplyLink(w, step).runs == w.runs {}

  lemma RecordRuns(w: World, step: RecordStep)
    requires WellFormed(w.runs)
    ensures var runs := ApplyRecord(w, step).runs; WellFormed(runs) && Evolves(w.runs, runs)
  {
    match step
    case Adopt(id, principal, history, born, now) => AdoptHistory(w, id, principal, history, born, now);
    case Stats(id, seqNo, stats) => AttachStatsKeeps(w.runs, id, seqNo, stats);
    case _ => FrozenHistory(w, w.runs);
  }

  lemma HistoryStep(w: World, step: Step)
    requires WellFormed(w.runs)
    ensures WellFormed(Apply(w, step).runs) && Evolves(w.runs, Apply(w, step).runs)
  {
    match step
    case OnRecord(s) => RecordRuns(w, s);
    case OnStop(s) => StopRuns(w, s);
    case OnClaim(s) => ClaimRuns(w, s);
    case OnWatch(s) => WatchRuns(w, s);
    case OnSubmit(s) => SubmitRuns(w, s); FrozenHistory(w, w.runs);
    case OnLink(s) => LinkRuns(w, s); FrozenHistory(w, w.runs);
    case _ => FrozenHistory(w, w.runs);
  }

  /**
   Over every run the history holds at most 200 records, with distinct (session, seq) pairs and seq at least 1; between
   any two moments it only gains records in front, loses them from the oldest end when full, and lets absent stats
   arrive once.
   */
  lemma {:induction false} HistoryOverRuns(steps: seq<Step>, i: nat)
    requires i <= |steps|
    ensures WellFormed(Run(steps).runs) && Evolves(Run(steps[..i]).runs, Run(steps).runs)
  {
    HistoryIsWellFormed(steps);
    if i == |steps| {
      assert steps[..i] == steps;
      assert EvolvesBy(Run(steps).runs, Run(steps).runs, 0);
    } else {
      var before := steps[..|steps| - 1];
      assert before[..i] == steps[..i];
      HistoryOverRuns(before, i);
      LastHistoryStep(steps);
      EvolvesTransitive(Run(steps[..i]).runs, Run(before).runs, Run(steps).runs);
    }
  }

  lemma {:induction false} HistoryIsWellFormed(steps: seq<Step>)
    ensures WellFormed(Run(steps).runs)
  {
    if steps != [] {
      HistoryIsWellFormed(steps[..|steps| - 1]);
      HistoryStep(Run(steps[..|steps| - 1]), steps[|steps| - 1]);
    }
  }

  lemma LastHistoryStep(steps: seq<Step>)
    requires steps != []
    ensures Evolves(Run(steps[..|steps| - 1]).runs, Run(steps).runs)
  {
    HistoryIsWellFormed(steps[..|steps| - 1]);
    HistoryStep(Run(steps[..|steps| - 1]), steps[|steps| - 1]);
  }
}
