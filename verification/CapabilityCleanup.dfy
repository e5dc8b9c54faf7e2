/**
 No capability file outlives its run (subsystems/session/tunnel.go, telemetry.go, lifecycle.go): in every run of the
 session protocol, each file is that of a record that is not over, or of a launch that has not stored its intent yet, or
 one whose removal failed or was cut short by a restart.
 */
module CapabilityCleanup {
  import opened SessionTypes
  import opened Reconciliation
  import opened SessionCycles
  import opened SessionProtocol
  import opened SessionInvariant
  import opened SessionSafety
  import opened SessionTheorems

  type File = (Id, nat)

  // ----- the files whose removal failed

  function FileOf(s: Session): File { (s.id, s.seqNo) }

  predicate Unstored(q: Proc) { q.Issued? || q.Unissuing? }

  /** The files that only a process knows about. */
  function UnstoredFiles(c: Core): set<File> { set p | p in c.procs && Unstored(c.procs[p]) :: FileOf(c.procs[p].intent) }

  /** What a step leaves behind: a removal that failed, or the launches that a restart cut short. */
  function LeftBy(w: World, step: Step): set<File> {
    if step.Restart? then UnstoredFiles(w.core)
    else if step.OnClaim? && step.claim.Unissue? && !step.claim.removed && At(w, step.claim.pid) && w.core.procs[step.claim.pid].Unissuing? then
      {FileOf(w.core.procs[step.claim.pid].intent)}
    else if step.OnSubmit? && step.submit.AbandonRelease? && !step.submit.removed && At(w, step.submit.pid) && w.core.procs[step.submit.pid].Abandoning? then
      {FileOf(w.core.procs[step.submit.pid].intent)}
    else {}
  }

  /** The files left behind in a run and not removed since. */
  function Left(steps: seq<Step>): set<File> {
    if steps == [] then {}
    else (Left(steps[..|steps| - 1]) + LeftBy(Run(steps[..|steps| - 1]), steps[|steps| - 1])) * Run(steps).caps
  }

  // ----- the invariant

  /** The record under the id is of this seq and not over. */
  predicate OpenRun(sessions: map<Id, Session>, f: File) { f.0 in sessions && sessions[f.0].seqNo == f.1 && !Terminal(sessions[f.0].phase) }

  ghost predicate Issuing(procs: map<Pid, Proc>, f: File) { exists p :: p in procs && Unstored(procs[p]) && FileOf(procs[p].intent) == f }

  ghost predicate Covered(c: Core, left: set<File>, f: File) { OpenRun(c.sessions, f) || Issuing(c.procs, f) || f in left }

  ghost predicate CleanInv(w: World, left: set<File>) {
    && (forall f :: f in w.caps ==> f.1 >= 1 && Covered(w.core, left, f))
    && (forall p :: p in w.core.procs && w.core.procs[p].Abandoned? ==> FileOf(w.core.procs[p].intent) !in w.caps || FileOf(w.core.procs[p].intent) in left)
  }

  // ----- steps that write no file

  /** The processes that know about a file. */
  function KeeperAt(procs: map<Pid, Proc>, p: Pid): Option<Proc> {
    if p in procs && (Unstored(procs[p]) || procs[p].Abandoned?) then Some(procs[p]) else None
  }

  /** No file appears, the keepers stay, and a run is over only without its file. */
  ghost predicate Quietly(w: World, d: World) {
    && d.caps <= w.caps && (forall p :: KeeperAt(d.core.procs, p) == KeeperAt(w.core.procs, p))
    && (forall f: File :: OpenRun(w.core.sessions, f) ==> OpenRun(d.core.sessions, f) || f !in d.caps)
  }

  lemma KeepersStay(w: World, d: World, f: File)
    requires (forall p :: KeeperAt(d.core.procs, p) == KeeperAt(w.core.procs, p)) && Issuing(w.core.procs, f)
    ensures Issuing(d.core.procs, f)
  {
    var p :| p in w.core.procs && Unstored(w.core.procs[p]) && FileOf(w.core.procs[p].intent) == f;
    assert KeeperAt(d.core.procs, p) == KeeperAt(w.core.procs, p);
  }

  lemma QuietlyKeeps(w: World, d: World, left: set<File>)
    requires CleanInv(w, left) && Quietly(w, d)
    ensures CleanInv(d, left * d.caps)
  {
    forall f | f in d.caps ensures f.1 >= 1 && Covered(d.core, left * d.caps, f) {
      assert Covered(w.core, left, f);
      if Issuing(w.core.procs, f) { KeepersStay(w, d, f); }
    }
    forall p | p in d.core.procs && d.core.procs[p].Abandoned?
      ensures FileOf(d.core.procs[p].intent) !in d.caps || FileOf(d.core.procs[p].intent) in left * d.caps
    {
      assert KeeperAt(d.core.procs, p) == KeeperAt(w.core.procs, p);
    }
  }

  /** One process, which knows about no file before and after, goes on, or ends; no record changes. */
  lemma MovesOn(w: World, d: World, pid: Pid)
    requires d.caps <= w.caps && d.core.sessions == w.core.sessions
    requires KeeperAt(w.core.procs, pid).None? && KeeperAt(d.core.procs, pid).None?
    requires forall p :: p != pid && p in d.core.procs ==> p in w.core.procs && d.core.procs[p] == w.core.procs[p]
    requires forall p :: p != pid && p in w.core.procs ==> p in d.core.procs
    ensures Quietly(w, d)
  {
  }

  /** It stores a record of the same seq, which is over only if it was. */
  lemma StoresOn(w: World, d: World, pid: Pid, r: Session)
    requires d.caps <= w.caps && r.id in w.core.sessions && d.core.sessions == w.core.sessions[r.id := r]
    requires r.seqNo == w.core.sessions[r.id].seqNo && (Terminal(r.phase) ==> Terminal(w.core.sessions[r.id].phase))
    requires KeeperAt(w.core.procs, pid).None? && KeeperAt(d.core.procs, pid).None?
    requires forall p :: p != pid && p in d.core.procs ==> p in w.core.procs && d.core.procs[p] == w.core.procs[p]
    requires forall p :: p != pid && p in w.core.procs ==> p in d.core.procs
    ensures Quietly(w, d)
  {
  }

  lemma Unchanged(w: World) ensures Quietly(w, w) {}

  lemma RecordQuiet(w: World, step: RecordStep)
    requires Inv(w.core)
    ensures Quietly(w, ApplyRecord(w, step))
  {
    match step
    case Define(id, _, _, _, stamp) => if stamp in w.core.stamped && id !in w.core.sessions {}
    case Adopt(id, principal, history, born, now) => AdoptQuiet(w, id, principal, history, born, now);
    case Delete(pid, id, principal) => DeleteQuiet(w, pid, id, principal);
    case DeleteCapability(pid, removed) =>
      if At(w, pid) && w.core.procs[pid].Deleting? { MovesOn(w, DoDeleteCapability(w, pid, removed), pid); }
    case _ =>
  }

  lemma DeleteQuiet(w: World, pid: Pid, id: Id, principal: Principal)
    ensures Quietly(w, DoDelete(w, pid, id, principal))
  {
    if !At(w, pid) && id in w.core.sessions {}
  }

  lemma AdoptQuiet(w: World, id: Id, principal: Principal, history: seq<FinishedRun>, born: Option<int>, now: int)
    requires Inv(w.core)
    ensures Quietly(w, DoAdopt(w, id, principal, history, born, now))
  {
    if DoAdopt(w, id, principal, history, born, now) != w {
      var s := w.core.sessions[id];
      assert s.id == id && Latest(w.core.hist, s) && s.phase == Stopped;
    }
  }

  lemma StopQuiet(w: World, step: StopStep)
    requires Inv(w.core)
    ensures Quietly(w, ApplyStop(w, step))
  {
    match step
    case Stop(pid, id, principal, now) => BeginQuiet(w, pid, id, principal, now);
    case StopFinish(pid, now, removed, note, trace, saved) => StopFinishQuiet(w, pid, now, removed, note, trace, saved);
    case _ => StopMiddleQuiet(w, step);
  }

  lemma StopMiddleQuiet(w: World, step: StopStep)
    requires step.StopRelease? || step.StopUnlink? || step.StopObserve?
    ensures Quietly(w, ApplyStop(w, step))
  {
    if ApplyStop(w, step) != w { MovesOn(w, ApplyStop(w, step), step.pid); } else { Unchanged(w); }
  }

  lemma BeginQuiet(w: World, pid: Pid, id: Id, principal: Principal, now: int)
    requires id in w.core.sessions ==> w.core.sessions[id].id == id
    ensures Quietly(w, DoStop(w, pid, id, principal, now))
  {
    var d := DoStop(w, pid, id, principal, now);
    if d == w {
      Unchanged(w);
    } else {
      var s := w.core.sessions[id];
      if Terminal(s.phase) { MovesOn(w, d, pid); } else { StoresOn(w, d, pid, StopStored(s, now)); }
    }
  }

  /** Freezing stores the end of a run only when the file is gone. */
  lemma FreezeQuiet(w: World, d: World, pid: Pid, m: Session, removed: bool, note: string, saved: bool)
    requires m.id in w.core.sessions && m.seqNo == w.core.sessions[m.id].seqNo && (m.seqNo == 0 ==> Terminal(w.core.sessions[m.id].phase))
    requires d.caps == FreezeCapability(w, m, removed).caps && At(w, pid) && KeeperAt(w.core.procs, pid).None?
    requires d.core.procs == w.core.procs - {pid}
    requires d.core.sessions == (if saved then w.core.sessions[m.id := Frozen(m, removed, note)] else w.core.sessions)
    ensures Quietly(w, d)
  {
    forall f: File | OpenRun(w.core.sessions, f) ensures OpenRun(d.core.sessions, f) || f !in d.caps {
      if saved && f.0 == m.id { if Terminal(m.phase) { if removed {} else {} } else {} }
    }
  }

  lemma StopFinishQuiet(w: World, pid: Pid, now: int, removed: bool, note: string, trace: string, saved: bool)
    requires Inv(w.core)
    ensures Quietly(w, DoStopFinish(w, pid, now, removed, note, trace, saved))
  {
    if now !in w.core.taken && At(w, pid) && w.core.procs[pid].StopFinishing? {
      var q := w.core.procs[pid];
      assert ProcOk(w.core, q);
      if q.snap.id in w.core.sessions { StopMergedShape(w.core, q.snap, q.cand, q.note, now); }
      FinishQuiet(w, pid, now, removed, note, trace, saved);
    } else {
      Unchanged(w);
    }
  }

  lemma FinishQuiet(w: World, pid: Pid, now: int, removed: bool, note: string, trace: string, saved: bool)
    requires now !in w.core.taken && At(w, pid) && w.core.procs[pid].StopFinishing?
    requires var q := w.core.procs[pid];
             q.snap.id in w.core.sessions ==>
               var s := w.core.sessions[q.snap.id];
               var m := StopMerged(s, q.snap, q.cand, q.note, now);
               s.id == q.snap.id && m.id == s.id && m.seqNo == s.seqNo && (m.seqNo == 0 ==> Terminal(s.phase))
    ensures Quietly(w, DoStopFinish(w, pid, now, removed, note, trace, saved))
  {
    var q := w.core.procs[pid];
    var d := DoStopFinish(w, pid, now, removed, note, trace, saved);
    if q.snap.id !in w.core.sessions {
      MovesOn(w, d, pid);
    } else {
      StopFinishParts(w, pid, now, removed, note, trace, saved);
      FreezeQuiet(w, d, pid, StopMerged(w.core.sessions[q.snap.id], q.snap, q.cand, q.note, now), removed, note, saved);
    }
  }

  lemma StopMergedShape(c: Core, snap: Session, cand: Session, note: string, now: int)
    requires Inv(c) && snap in c.hist && snap.id in c.sessions && Settled(snap.phase) && Computed(snap, cand)
    ensures var s := c.sessions[snap.id];
            var m := StopMerged(s, snap, cand, note, now);
            s.id == snap.id && m.id == s.id && m.seqNo == s.seqNo && (m.seqNo == 0 ==> Terminal(s.phase))
  {
    assert Latest(c.hist, c.sessions[snap.id]);
    StopMergedFollows(c, snap, cand, note, now);
  }

  lemma StopFinishParts(w: World, pid: Pid, now: int, removed: bool, note: string, trace: string, saved: bool)
    requires now !in w.core.taken && At(w, pid) && w.core.procs[pid].StopFinishing? && w.core.procs[pid].snap.id in w.core.sessions
    requires w.core.sessions[w.core.procs[pid].snap.id].id == w.core.procs[pid].snap.id
    ensures var q := w.core.procs[pid];
            var m := StopMerged(w.core.sessions[q.snap.id], q.snap, q.cand, q.note, now);
            var d := DoStopFinish(w, pid, now, removed, note, trace, saved);
            && d.caps == FreezeCapability(w, m, removed).caps && d.core.procs == w.core.procs - {pid} && m.id == q.snap.id
            && d.core.sessions == (if saved then w.core.sessions[m.id := Frozen(m, removed, note)] else w.core.sessions)
  {
    if saved {} else {}
  }

  lemma MergeQuiet(w: World, pid: Pid, now: int, removed: bool, note: string, trace: string, saved: bool)
    requires Inv(w.core)
    ensures Quietly(w, DoMerge(w, pid, now, removed, note, trace, saved))
  {
    if now !in w.core.taken && At(w, pid) && w.core.procs[pid].Watched? {
      var q := w.core.procs[pid];
      assert ProcOk(w.core, q);
      if q.snap.id !in w.core.sessions || !MergeApplies(w.core.sessions[q.snap.id], q.snap, q.cand) {
      } else {
        var s := w.core.sessions[q.snap.id];
        assert Latest(w.core.hist, s);
        var m := Merge(s, q.snap, q.cand, now);
        MergeParts(w, pid, now, removed, note, trace, saved);
        FreezeQuiet(w, DoMerge(w, pid, now, removed, note, trace, saved), pid, m, removed, note, saved);
      }
    }
  }

  lemma MergeParts(w: World, pid: Pid, now: int, removed: bool, note: string, trace: string, saved: bool)
    requires now !in w.core.taken && At(w, pid) && w.core.procs[pid].Watched? && w.core.procs[pid].snap.id in w.core.sessions
    requires MergeApplies(w.core.sessions[w.core.procs[pid].snap.id], w.core.procs[pid].snap, w.core.procs[pid].cand)
    requires w.core.sessions[w.core.procs[pid].snap.id].id == w.core.procs[pid].snap.id
    ensures var q := w.core.procs[pid];
            var m := Merge(w.core.sessions[q.snap.id], q.snap, q.cand, now);
            var d := DoMerge(w, pid, now, removed, note, trace, saved);
            && d.caps == FreezeCapability(w, m, removed).caps && d.core.procs == w.core.procs - {pid}
            && m.id == q.snap.id && m.seqNo == w.core.sessions[q.snap.id].seqNo
            && d.core.sessions == (if saved then w.core.sessions[m.id := Frozen(m, removed, note)] else w.core.sessions)
  {
    if saved {} else {}
  }

  lemma WatchQuiet(w: World, step: WatchStep)
    requires Inv(w.core)
    ensures Quietly(w, ApplyWatch(w, step))
  {
    match step
    case MergeWatched(pid, now, removed, note, trace, saved) => MergeQuiet(w, pid, now, removed, note, trace, saved);
    case _ => LookQuiet(w, step);
  }

  lemma LookQuiet(w: World, step: WatchStep)
    requires step.Watch? || step.Observe?
    ensures Quietly(w, ApplyWatch(w, step))
  {
    if ApplyWatch(w, step) != w { MovesOn(w, ApplyWatch(w, step), step.pid); } else { Unchanged(w); }
  }

  lemma LinkQuiet(w: World, step: LinkStep)
    requires Inv(w.core)
    ensures Quietly(w, ApplyLink(w, step))
  {
    match step
    case LinkReady(pid, now, saved) => ReadyQuiet(w, pid, now, saved);
    case _ => ConnectQuiet(w, step);
  }

  lemma ConnectQuiet(w: World, step: LinkStep)
    requires !step.LinkReady?
    ensures Quietly(w, ApplyLink(w, step))
  {
    if ApplyLink(w, step) != w { MovesOn(w, ApplyLink(w, step), step.pid); } else { Unchanged(w); }
  }

  lemma ReadyQuiet(w: World, pid: Pid, now: int, saved: bool)
    requires forall id :: id in w.core.sessions ==> w.core.sessions[id].id == id
    ensures Quietly(w, DoLinkReady(w, pid, now, saved))
  {
    var d := DoLinkReady(w, pid, now, saved);
    if d == w {
      Unchanged(w);
    } else {
      var s := w.core.procs[pid].snap;
      if saved && s.id in w.core.sessions && LinkApplies(w.core.sessions[s.id], s.seqNo) {
        assert w.core.sessions[s.id].id == s.id;
        StoresOn(w, d, pid, LinkedReady(w.core.sessions[s.id], now));
      } else {
        MovesOn(w, d, pid);
      }
    }
  }

  lemma GiveUpQuiet(w: World, pid: Pid)
    ensures Quietly(w, DoGiveUp(w, pid))
  {
    if DoGiveUp(w, pid) != w { MovesOn(w, DoGiveUp(w, pid), pid); } else { Unchanged(w); }
  }

  // ----- launches

  lemma EarlyClaimQuiet(w: World, step: ClaimStep)
    requires step.Retire? || step.Lock? || step.Claim? || step.RetireRelease? || step.FreezeRun?
    ensures Quietly(w, ApplyClaim(w, step))
  {
    match step
    case FreezeRun(pid, removed, trace, saved) => FreezeRunQuiet(w, pid, removed, trace, saved);
    case RetireRelease(pid, removed, ok) => ReleaseQuiet(w, pid, removed, ok);
    case Retire(pid, launcher, id, principal) => RetireQuiet(w, pid, launcher, id, principal);
    case Lock(pid) => LockQuiet(w, pid);
    case Claim(pid) => ClaimQuiet(w, pid);
    case _ =>
  }

  lemma RetireQuiet(w: World, pid: Pid, launcher: Launcher, id: Id, principal: Principal)
    ensures Quietly(w, DoRetire(w, pid, launcher, id, principal))
  {
    if DoRetire(w, pid, launcher, id, principal) != w { MovesOn(w, DoRetire(w, pid, launcher, id, principal), pid); } else { Unchanged(w); }
  }

  lemma LockQuiet(w: World, pid: Pid)
    ensures Quietly(w, DoLock(w, pid))
  {
    if DoLock(w, pid) != w { MovesOn(w, DoLock(w, pid), pid); } else { Unchanged(w); }
  }

  lemma ClaimQuiet(w: World, pid: Pid)
    ensures Quietly(w, DoClaim(w, pid))
  {
    if DoClaim(w, pid) != w { MovesOn(w, DoClaim(w, pid), pid); } else { Unchanged(w); }
  }

  lemma FreezeRunQuiet(w: World, pid: Pid, removed: bool, trace: string, saved: bool)
    ensures Quietly(w, DoFreezeRun(w, pid, removed, trace, saved))
  {
    if DoFreezeRun(w, pid, removed, trace, saved) != w { MovesOn(w, DoFreezeRun(w, pid, removed, trace, saved), pid); } else { Unchanged(w); }
  }

  lemma ReleaseQuiet(w: World, pid: Pid, removed: bool, ok: bool)
    ensures Quietly(w, DoRetireRelease(w, pid, removed, ok))
  {
    if DoRetireRelease(w, pid, removed, ok) != w { MovesOn(w, DoRetireRelease(w, pid, removed, ok), pid); } else { Unchanged(w); }
  }

  /** Issuing is the only step that writes a file, and a process keeps it. */
  lemma IssueClean(w: World, pid: Pid, modes: seq<string>, tunnel: string, t: int, written: bool, ok: bool, left: set<File>)
    requires LocksOk(w.core.procs) && CleanInv(w, left)
    requires At(w, pid) && w.core.procs[pid].Claimed? ==> w.core.procs[pid].prev.id == w.core.procs[pid].snap.id
    ensures var d := DoIssue(w, pid, modes, tunnel, t, written, ok); CleanInv(d, left * d.caps)
  {
    if t !in w.core.taken && At(w, pid) && w.core.procs[pid].Claimed? {
      IssueParts(w, pid, modes, tunnel, t, written, ok);
      var d := DoIssue(w, pid, modes, tunnel, t, written, ok);
      IssuedClean(w, d, pid, left);
    } else {
      Unchanged(w);
      QuietlyKeeps(w, w, left);
    }
  }

  lemma IssueParts(w: World, pid: Pid, modes: seq<string>, tunnel: string, t: int, written: bool, ok: bool)
    requires t !in w.core.taken && At(w, pid) && w.core.procs[pid].Claimed?
    ensures var d := DoIssue(w, pid, modes, tunnel, t, written, ok);
            && At(d, pid) && Unstored(d.core.procs[pid]) && d.core.procs == w.core.procs[pid := d.core.procs[pid]]
            && d.core.procs[pid].intent.id == w.core.procs[pid].prev.id && d.core.procs[pid].intent.seqNo >= 1
            && d.caps <= w.caps + {FileOf(d.core.procs[pid].intent)} && d.core.sessions == w.core.sessions
  {
    if written && ok {} else {}
  }

  lemma IssuedClean(w: World, d: World, pid: Pid, left: set<File>)
    requires LocksOk(w.core.procs) && CleanInv(w, left) && At(w, pid) && w.core.procs[pid].Claimed? && d.core.sessions == w.core.sessions
    requires At(d, pid) && Unstored(d.core.procs[pid]) && d.core.procs == w.core.procs[pid := d.core.procs[pid]]
    requires d.core.procs[pid].intent.id == ProcId(w.core.procs[pid]) && d.core.procs[pid].intent.seqNo >= 1
    requires d.caps <= w.caps + {FileOf(d.core.procs[pid].intent)}
    ensures CleanInv(d, left * d.caps)
  {
    forall f | f in d.caps ensures f.1 >= 1 && Covered(d.core, left * d.caps, f) {
      if f == FileOf(d.core.procs[pid].intent) {
        assert Issuing(d.core.procs, f);
      } else {
        assert Covered(w.core, left, f);
        if Issuing(w.core.procs, f) { OtherIssuing(w.core.procs, d.core.procs, pid, f); }
      }
    }
    forall p | p in d.core.procs && d.core.procs[p].Abandoned?
      ensures FileOf(d.core.procs[p].intent) !in d.caps || FileOf(d.core.procs[p].intent) in left * d.caps
    {
      HoldersDiffer(w.core.procs, pid, p);
    }
  }

  lemma HoldersDiffer(procs: map<Pid, Proc>, p: Pid, q: Pid)
    requires LocksOk(procs) && p in procs && q in procs && p != q && HoldsLock(procs[p]) && HoldsLock(procs[q])
    ensures ProcId(procs[p]) != ProcId(procs[q])
  {
  }

  lemma OtherIssuing(procs: map<Pid, Proc>, after: map<Pid, Proc>, pid: Pid, f: File)
    requires Issuing(procs, f) && pid in procs && !Unstored(procs[pid])
    requires forall p :: p in procs && p != pid ==> p in after && after[p] == procs[p]
    ensures Issuing(after, f)
  {
    var p :| p in procs && Unstored(procs[p]) && FileOf(procs[p].intent) == f;
    assert p in after && Unstored(after[p]);
  }

  /** A stored intent opens its run; a refused one is still to be taken back. */
  lemma PersistClean(w: World, pid: Pid, saved: bool, left: set<File>)
    requires Inv(w.core) && CleanInv(w, left)
    ensures var d := DoPersist(w, pid, saved); CleanInv(d, left * d.caps)
  {
    var d := DoPersist(w, pid, saved);
    if At(w, pid) && w.core.procs[pid].Issued? {
      var q := w.core.procs[pid];
      assert ProcOk(w.core, q);
      if saved && q.prev.id in w.core.sessions && IntentApplies(w.core.sessions[q.prev.id], q.prev) {
        SnapshotIsCurrent(w.core, q.prev);
        PersistParts(w, pid);
        StoredClean(w, d, pid, q.intent, left);
      } else {
        RefusedClean(w, d, pid, q, left);
      }
    } else {
      Unchanged(w);
      QuietlyKeeps(w, w, left);
    }
  }

  lemma PersistParts(w: World, pid: Pid)
    requires At(w, pid) && w.core.procs[pid].Issued?
    requires var q := w.core.procs[pid]; q.prev.id in w.core.sessions && IntentApplies(w.core.sessions[q.prev.id], q.prev) && q.intent.id == q.prev.id
    ensures var d := DoPersist(w, pid, true);
            var q := w.core.procs[pid];
            && d.caps == w.caps && d.core.sessions == w.core.sessions[q.intent.id := q.intent] && KeeperAt(d.core.procs, pid).None?
            && (forall p :: p in w.core.procs && p != pid ==> p in d.core.procs && d.core.procs[p] == w.core.procs[p])
            && (forall p :: p in d.core.procs && p != pid ==> p in w.core.procs)
  {
    if w.core.procs[pid].launcher == Plane {} else {}
  }

  lemma StoredClean(w: World, d: World, pid: Pid, intent: Session, left: set<File>)
    requires CleanInv(w, left) && At(w, pid) && Unstored(w.core.procs[pid]) && w.core.procs[pid].intent == intent
    requires intent.id in w.core.sessions && Terminal(w.core.sessions[intent.id].phase) && !Terminal(intent.phase)
    requires d.caps == w.caps && d.core.sessions == w.core.sessions[intent.id := intent] && KeeperAt(d.core.procs, pid).None?
    requires forall p :: p in w.core.procs && p != pid ==> p in d.core.procs && d.core.procs[p] == w.core.procs[p]
    requires forall p :: p in d.core.procs && p != pid ==> p in w.core.procs
    ensures CleanInv(d, left * d.caps)
  {
    forall f | f in d.caps ensures f.1 >= 1 && Covered(d.core, left * d.caps, f) {
      assert Covered(w.core, left, f);
      if Issuing(w.core.procs, f) && f != FileOf(intent) {
        var p :| p in w.core.procs && Unstored(w.core.procs[p]) && FileOf(w.core.procs[p].intent) == f;
        assert p != pid && p in d.core.procs && Unstored(d.core.procs[p]);
      }
    }
  }

  lemma RefusedClean(w: World, d: World, pid: Pid, q: Proc, left: set<File>)
    requires CleanInv(w, left) && At(w, pid) && q.Issued? && w.core.procs[pid] == q
    requires d.caps == w.caps && d.core == Enter(w.core, pid, Unissuing(q.intent))
    ensures CleanInv(d, left * d.caps)
  {
    forall f | f in d.caps ensures f.1 >= 1 && Covered(d.core, left * d.caps, f) {
      assert Covered(w.core, left, f);
      if Issuing(w.core.procs, f) {
        var p :| p in w.core.procs && Unstored(w.core.procs[p]) && FileOf(w.core.procs[p].intent) == f;
        assert p in d.core.procs && Unstored(d.core.procs[p]) && FileOf(d.core.procs[p].intent) == f;
      }
    }
  }

  /** A launch takes its file back, or leaves it. */
  lemma UnissueClean(w: World, pid: Pid, removed: bool, left: set<File>)
    requires CleanInv(w, left)
    ensures var d := DoUnissue(w, pid, removed); CleanInv(d, (left + LeftBy(w, OnClaim(Unissue(pid, removed)))) * d.caps)
  {
    var d := DoUnissue(w, pid, removed);
    if At(w, pid) && w.core.procs[pid].Unissuing? {
      var intent := w.core.procs[pid].intent;
      var more := left + LeftBy(w, OnClaim(Unissue(pid, removed)));
      forall f | f in d.caps ensures f.1 >= 1 && Covered(d.core, more * d.caps, f) {
        assert Covered(w.core, left, f);
        if Issuing(w.core.procs, f) && f != FileOf(intent) {
          var p :| p in w.core.procs && Unstored(w.core.procs[p]) && FileOf(w.core.procs[p].intent) == f;
          assert p != pid && p in d.core.procs && Unstored(d.core.procs[p]);
        }
      }
    } else {
      Unchanged(w);
      QuietlyKeeps(w, w, left);
    }
  }

  // ----- submissions

  lemma SubmitQuiet(w: World, step: SubmitStep)
    requires Inv(w.core) && !step.AbandonRelease? && !step.Abandon?
    ensures Quietly(w, ApplySubmit(w, step))
  {
    match step
    case Record(pid, now, saved) => JobQuiet(w, pid, now, saved);
    case Note(pid, now, saved) => NoteQuiet(w, pid, now, saved);
    case Submit(pid, outcome) => OutcomeQuiet(w, pid, outcome);
    case Provision(pid, ok) => ProvisionQuiet(w, pid, ok);
    case Scancel(pid, note) => ScancelQuiet(w, pid, note);
    case _ =>
  }

  lemma ProvisionQuiet(w: World, pid: Pid, ok: bool)
    ensures Quietly(w, DoProvision(w, pid, ok))
  {
    if DoProvision(w, pid, ok) != w { MovesOn(w, DoProvision(w, pid, ok), pid); } else { Unchanged(w); }
  }

  lemma ScancelQuiet(w: World, pid: Pid, note: string)
    ensures Quietly(w, DoScancel(w, pid, note))
  {
    if DoScancel(w, pid, note) != w { MovesOn(w, DoScancel(w, pid, note), pid); } else { Unchanged(w); }
  }

  lemma OutcomeQuiet(w: World, pid: Pid, outcome: Submission)
    ensures Quietly(w, DoSubmit(w, pid, outcome))
  {
    if DoSubmit(w, pid, outcome) != w { MovesOn(w, DoSubmit(w, pid, outcome), pid); } else { Unchanged(w); }
  }

  lemma JobQuiet(w: World, pid: Pid, now: int, saved: bool)
    requires Inv(w.core)
    ensures Quietly(w, DoRecord(w, pid, now, saved))
  {
    var d := DoRecord(w, pid, now, saved);
    if now !in w.core.taken && At(w, pid) && w.core.procs[pid].Returned? {
      var q := w.core.procs[pid];
      if saved && q.intent.id in w.core.sessions {
        var r := SubmittedJob(w.core.sessions[q.intent.id], q.jobId, now);
        assert r.id == q.intent.id;
        JobParts(w, pid, now);
        StoresOn(w, d, pid, r);
      } else {
        MovesOn(w, d, pid);
      }
    } else {
      Unchanged(w);
    }
  }

  lemma JobParts(w: World, pid: Pid, now: int)
    requires now !in w.core.taken && At(w, pid) && w.core.procs[pid].Returned? && w.core.procs[pid].intent.id in w.core.sessions
    requires w.core.sessions[w.core.procs[pid].intent.id].id == w.core.procs[pid].intent.id
    ensures var q := w.core.procs[pid];
            var r := SubmittedJob(w.core.sessions[q.intent.id], q.jobId, now);
            var d := DoRecord(w, pid, now, true);
            && d.caps == w.caps && d.core.sessions == w.core.sessions[r.id := r] && KeeperAt(d.core.procs, pid).None?
            && (forall p :: p in w.core.procs && p != pid ==> p in d.core.procs && d.core.procs[p] == w.core.procs[p])
            && (forall p :: p in d.core.procs && p != pid ==> p in w.core.procs)
  {
    var q := w.core.procs[pid];
    if Superseded(SubmittedJob(w.core.sessions[q.intent.id], q.jobId, now)) {} else {}
  }

  lemma NoteQuiet(w: World, pid: Pid, now: int, saved: bool)
    requires forall id :: id in w.core.sessions ==> w.core.sessions[id].id == id
    ensures Quietly(w, DoNote(w, pid, now, saved))
  {
    var d := DoNote(w, pid, now, saved);
    if now !in w.core.taken && At(w, pid) && w.core.procs[pid].Noting? {
      var q := w.core.procs[pid];
      if saved && q.intent.id in w.core.sessions && CancelNoteApplies(w.core.sessions[q.intent.id], q.jobId) {
        assert w.core.sessions[q.intent.id].id == q.intent.id;
        StoresOn(w, d, pid, CancelNoted(w.core.sessions[q.intent.id], q.diagnostic, now));
      } else {
        MovesOn(w, d, pid);
      }
    } else {
      Unchanged(w);
    }
  }

  /** A launch that gave up releases its file, or leaves it. */
  lemma AbandonReleaseClean(w: World, pid: Pid, removed: bool, note: string, left: set<File>)
    requires CleanInv(w, left)
    ensures var d := DoAbandonRelease(w, pid, removed, note);
            CleanInv(d, (left + LeftBy(w, OnSubmit(AbandonRelease(pid, removed, note)))) * d.caps)
  {
    var d := DoAbandonRelease(w, pid, removed, note);
    if At(w, pid) && w.core.procs[pid].Abandoning? {
      var more := left + LeftBy(w, OnSubmit(AbandonRelease(pid, removed, note)));
      forall f | f in d.caps ensures f.1 >= 1 && Covered(d.core, more * d.caps, f) {
        assert Covered(w.core, left, f);
        if Issuing(w.core.procs, f) { OtherIssuing(w.core.procs, d.core.procs, pid, f); }
      }
    } else {
      Unchanged(w);
      QuietlyKeeps(w, w, left);
    }
  }

  /** Then its record is over, without its file. */
  lemma AbandonClean(w: World, pid: Pid, now: int, saved: bool, left: set<File>)
    requires Inv(w.core) && CleanInv(w, left)
    ensures var d := DoAbandon(w, pid, now, saved); CleanInv(d, left * d.caps)
  {
    var d := DoAbandon(w, pid, now, saved);
    if now !in w.core.taken && At(w, pid) && w.core.procs[pid].Abandoned? {
      var q := w.core.procs[pid];
      AbandonParts(w, pid, now, saved);
      forall f | f in d.caps ensures f.1 >= 1 && Covered(d.core, left * d.caps, f) {
        assert Covered(w.core, left, f);
        if Issuing(w.core.procs, f) { OtherIssuing(w.core.procs, d.core.procs, pid, f); }
      }
    } else {
      Unchanged(w);
      QuietlyKeeps(w, w, left);
    }
  }

  lemma AbandonParts(w: World, pid: Pid, now: int, saved: bool)
    requires Inv(w.core) && now !in w.core.taken && At(w, pid) && w.core.procs[pid].Abandoned?
    ensures var d := DoAbandon(w, pid, now, saved);
            var q := w.core.procs[pid];
            && d.caps == w.caps && d.core.procs == w.core.procs - {pid}
            && (forall f: File :: OpenRun(w.core.sessions, f) && f != FileOf(q.intent) ==> OpenRun(d.core.sessions, f))
  {
    var q := w.core.procs[pid];
    if saved && q.intent.id in w.core.sessions && AbandonApplies(w.core.sessions[q.intent.id], q.intent) {
      assert w.core.sessions[q.intent.id].id == q.intent.id;
    } else {
    }
  }

  lemma RestartClean(w: World, left: set<File>)
    requires CleanInv(w, left)
    ensures var d := DoRestart(w); CleanInv(d, (left + LeftBy(w, Restart)) * d.caps)
  {
    var d := DoRestart(w);
    forall f | f in d.caps ensures f.1 >= 1 && Covered(d.core, (left + UnstoredFiles(w.core)) * d.caps, f) {
      assert Covered(w.core, left, f);
      if Issuing(w.core.procs, f) {
        var p :| p in w.core.procs && Unstored(w.core.procs[p]) && FileOf(w.core.procs[p].intent) == f;
        assert f in UnstoredFiles(w.core);
      }
    }
  }

  lemma ClaimClean(w: World, step: ClaimStep, left: set<File>)
    requires Inv(w.core) && CleanInv(w, left)
    ensures var d := ApplyClaim(w, step); CleanInv(d, (left + LeftBy(w, OnClaim(step))) * d.caps)
  {
    assert !step.Unissue? ==> left + LeftBy(w, OnClaim(step)) == left;
    match step
    case Issue(pid, modes, tunnel, t, written, ok) =>
      assert At(w, pid) ==> ProcOk(w.core, w.core.procs[pid]);
      IssueClean(w, pid, modes, tunnel, t, written, ok, left);
    case Persist(pid, saved) => PersistClean(w, pid, saved, left);
    case Unissue(pid, removed) => UnissueClean(w, pid, removed, left);
    case _ => EarlyClaimQuiet(w, step); QuietlyKeeps(w, ApplyClaim(w, step), left);
  }

  lemma SubmitClean(w: World, step: SubmitStep, left: set<File>)
    requires Inv(w.core) && CleanInv(w, left)
    ensures var d := ApplySubmit(w, step); CleanInv(d, (left + LeftBy(w, OnSubmit(step))) * d.caps)
  {
    assert !step.AbandonRelease? ==> left + LeftBy(w, OnSubmit(step)) == left;
    match step
    case AbandonRelease(pid, removed, note) => AbandonReleaseClean(w, pid, removed, note, left);
    case Abandon(pid, now, saved) => AbandonClean(w, pid, now, saved, left);
    case _ => SubmitQuiet(w, step); QuietlyKeeps(w, ApplySubmit(w, step), left);
  }

  lemma StepClean(w: World, step: Step, left: set<File>)
    requires Inv(w.core) && CleanInv(w, left)
    ensures var d := Apply(w, step); CleanInv(d, (left + LeftBy(w, step)) * d.caps)
  {
    match step
    case OnClaim(s) => ClaimClean(w, s, left);
    case OnSubmit(s) => SubmitClean(w, s, left);
    case Restart => RestartClean(w, left);
    case _ => assert left + LeftBy(w, step) == left; OtherClean(w, step, left);
  }

  lemma OtherClean(w: World, step: Step, left: set<File>)
    requires Inv(w.core) && CleanInv(w, left) && !step.OnClaim? && !step.OnSubmit? && !step.Restart?
    ensures var d := Apply(w, step); CleanInv(d, left * d.caps)
  {
    match step
    case OnRecord(s) => RecordQuiet(w, s); QuietlyKeeps(w, ApplyRecord(w, s), left);
    case OnStop(s) => StopQuiet(w, s); QuietlyKeeps(w, ApplyStop(w, s), left);
    case OnWatch(s) => WatchQuiet(w, s); QuietlyKeeps(w, ApplyWatch(w, s), left);
    case OnLink(s) => LinkQuiet(w, s); QuietlyKeeps(w, ApplyLink(w, s), left);
    case GiveUp(pid) => GiveUpQuiet(w, pid); QuietlyKeeps(w, DoGiveUp(w, pid), left);
    case Forget(jobId) => QuietlyKeeps(w, DoForget(w, jobId), left);
    case _ =>
  }

  lemma {:induction false} RunsAreClean(steps: seq<Step>)
    ensures CleanInv(Run(steps), Left(steps))
  {
    if steps != [] {
      RunsAreClean(steps[..|steps| - 1]);
      RunsAreSafe(steps[..|steps| - 1]);
      StepClean(Run(steps[..|steps| - 1]), steps[|steps| - 1], Left(steps[..|steps| - 1]));
    }
  }

  /**
   Over every run: a capability file is that of the current seq of a record that is not over, or of a launch that has
   written it and not stored its intent, or its removal failed or was cut short and it has not been removed since.
   */
  lemma NoFileOutlivesItsRun(steps: seq<Step>, id: Id, seqNo: nat)
    requires (id, seqNo) in Run(steps).caps
    ensures seqNo >= 1
    ensures || OpenRun(Run(steps).core.sessions, (id, seqNo))
            || Issuing(Run(steps).core.procs, (id, seqNo))
            || (id, seqNo) in Left(steps)
  {
    RunsAreClean(steps);
    assert Covered(Run(steps).core, Left(steps), (id, seqNo));
  }

  /** In particular a run that is over has no file, unless its removal failed or a launch of the id is under way. */
  lemma EndedRunsHaveNoFile(steps: seq<Step>, id: Id)
    requires id in Run(steps).core.sessions && Terminal(Run(steps).core.sessions[id].phase)
    ensures var f := (id, Run(steps).core.sessions[id].seqNo); f in Run(steps).caps ==> Issuing(Run(steps).core.procs, f) || f in Left(steps)
  {
    RunsAreClean(steps);
    var f := (id, Run(steps).core.sessions[id].seqNo);
    assert f in Run(steps).caps ==> Covered(Run(steps).core, Left(steps), f);
  }

  // ----- where files come from

  /** The step issues the capability of the next seq of the record it claimed, and the file reaches the disk. */
  predicate Writes(w: World, step: Step, f: File) {
    && step.OnClaim? && step.claim.Issue? && step.claim.written && step.claim.now !in w.core.taken && At(w, step.claim.pid)
    && w.core.procs[step.claim.pid].Claimed? && f == (w.core.procs[step.claim.pid].prev.id, w.core.procs[step.claim.pid].prev.seqNo + 1)
  }

  lemma ClaimWrites(w: World, step: ClaimStep, f: File)
    requires f !in w.caps
    ensures f in ApplyClaim(w, step).caps <==> Writes(w, OnClaim(step), f)
  {
    match step
    case Issue(pid, modes, tunnel, now, written, ok) => if now !in w.core.taken && At(w, pid) && w.core.procs[pid].Claimed? { if written {} else {} }
    case Persist(pid, saved) => if At(w, pid) && w.core.procs[pid].Issued? { if w.core.procs[pid].launcher == Plane {} else {} }
    case _ =>
  }

  lemma StepWrites(w: World, step: Step, f: File)
    requires f !in w.caps
    ensures f in Apply(w, step).caps <==> Writes(w, step, f)
  {
    match step
    case OnClaim(s) => ClaimWrites(w, s, f);
    case OnSubmit(s) => SubmitWrites(w, s);
    case OnStop(s) => StopWrites(w, s);
    case OnWatch(s) => WatchWrites(w, s);
    case _ =>
  }

  lemma SubmitWrites(w: World, step: SubmitStep) ensures ApplySubmit(w, step).caps <= w.caps {}

  lemma StopWrites(w: World, step: StopStep) ensures ApplyStop(w, step).caps <= w.caps {}

  lemma WatchWrites(w: World, step: WatchStep) ensures ApplyWatch(w, step).caps <= w.caps {}

  /** Over every run: a capability file appears exactly when a launch that has claimed the record before issues it. */
  lemma FilesAppearExactly(steps: seq<Step>, step: Step, f: File)
    requires f !in Run(steps).caps
    ensures f in Run(steps + [step]).caps <==> Writes(Run(steps), step, f)
  {
    assert (steps + [step])[..|steps|] == steps;
    StepWrites(Run(steps), step, f);
  }
}
