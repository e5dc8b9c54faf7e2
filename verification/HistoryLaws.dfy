/**
 What the run history tells (subsystems/session/telemetry.go, lifecycle.go), over every run of the session protocol: each
 record is the end of a run as it was stored, or a run of a history that was adopted; and how sessions are defined,
 adopted and deleted.
 */
module HistoryLaws {
  import opened SessionTypes
  import opened Reconciliation
  import opened RunHistory
  import opened SessionCycles
  import opened SessionProtocol
  import opened SessionInvariant
  import opened SessionSafety
  import opened SessionTheorems
  import opened StopLaws
  import CapabilityCleanup
  import CapabilityTheorems

  // ----- the records tell the truth

  /** The record tells how this version of a session ended; statistics and samples come from elsewhere. */
  predicate Tells(r: RunRecord, v: Session) {
    && Terminal(v.phase) && r.sessionId == v.id && r.seqNo == v.seqNo && r.owner == v.owner && r.launcher == v.launcher && r.spec == v.spec
    && r.finalPhase == v.phase && r.error == v.error && r.startedAt == v.startedAt && r.endedAt == v.updatedAt
  }

  ghost predicate Told(hist: set<Session>, r: RunRecord) { exists v :: v in hist && Tells(r, v) }

  /** The record is the run of this number in an adopted history. */
  predicate IsRun(r: RunRecord, id: Id, history: seq<FinishedRun>, k: nat) {
    && k < |history| && r.sessionId == id && r.seqNo == k + 1
    && r.finalPhase == history[k].finalPhase && r.error == history[k].error && r.startedAt == history[k].startedAt
    && history[k].endedAt == Some(r.endedAt) && r.trace == history[k].trace
  }

  ghost predicate AdoptsIn(step: Step, r: RunRecord) {
    step.OnRecord? && step.record.Adopt? && exists k: nat :: IsRun(r, step.record.id, step.record.history, k)
  }

  ghost predicate WasAdopted(steps: seq<Step>, r: RunRecord) { exists i :: 0 <= i < |steps| && AdoptsIn(steps[i], r) }

  /** Every record after a step was there before, but for statistics, or tells a stored version, or is adopted. */
  ghost predicate NewlyTold(before: seq<RunRecord>, hist: set<Session>, step: Step, after: seq<RunRecord>) {
    forall i :: 0 <= i < |after| ==>
                  (exists j :: 0 <= j < |before| && SameButStats(before[j], after[i])) || Told(hist, after[i]) || AdoptsIn(step, after[i])
  }

  lemma SameRuns(runs: seq<RunRecord>, hist: set<Session>, step: Step)
    ensures NewlyTold(runs, hist, step, runs)
  {
    forall i | 0 <= i < |runs| ensures exists j :: 0 <= j < |runs| && SameButStats(runs[j], runs[i]) { assert SameButStats(runs[i], runs[i]); }
  }

  lemma RecordedTold(runs: seq<RunRecord>, r: RunRecord, hist: set<Session>, step: Step)
    requires Told(hist, r) || AdoptsIn(step, r)
    ensures NewlyTold(runs, hist, step, RecordRun(runs, r))
  {
    var after := RecordRun(runs, r);
    forall i | 0 <= i < |after|
      ensures (exists j :: 0 <= j < |runs| && SameButStats(runs[j], after[i])) || Told(hist, after[i]) || AdoptsIn(step, after[i])
    {
      if after == runs {
        assert SameButStats(runs[i], after[i]);
      } else if i > 0 {
        assert after[i] == runs[i - 1] && SameButStats(runs[i - 1], after[i]);
      }
    }
  }

  lemma FrozenTold(runs: seq<RunRecord>, m: Session, removed: bool, trace: string, hist: set<Session>, step: Step)
    requires Frozen(m, removed, "") == m ==> m in hist
    ensures NewlyTold(runs, hist, step, FrozenRuns(runs, m, removed, trace))
  {
    if Terminal(m.phase) && !RemovalFails(m, removed) {
      assert Tells(RunOf(m, trace), m);
      RecordedTold(runs, RunOf(m, trace), hist, step);
    } else {
      SameRuns(runs, hist, step);
    }
  }

  lemma {:induction false} StatsTold(runs: seq<RunRecord>, id: Id, seqNo: nat, stats: RunStats, i: nat)
    requires i < |AttachStats(runs, id, seqNo, stats)|
    ensures i < |runs| && SameButStats(runs[i], AttachStats(runs, id, seqNo, stats)[i])
  {
    if runs != [] && i > 0 && !(Records(runs[0], id, seqNo) && runs[0].stats.None?) {
      StatsTold(runs[1..], id, seqNo, stats, i - 1);
    }
  }

  lemma {:induction false} AdoptedTold(runs: seq<RunRecord>, s: Session, history: seq<FinishedRun>, n: nat, hist: set<Session>, step: Step)
    requires AdoptableRuns(history) && n <= |history|
    requires step.OnRecord? && step.record.Adopt? && step.record.id == s.id && step.record.history == history
    ensures NewlyTold(runs, hist, step, RecordAll(runs, AdoptedRuns(s, history)[..n]))
  {
    var rs := AdoptedRuns(s, history);
    if n == 0 {
      SameRuns(runs, hist, step);
    } else {
      assert rs[..n][..n - 1] == rs[..n - 1] && rs[..n][n - 1] == rs[n - 1];
      AdoptedTold(runs, s, history, n - 1, hist, step);
      var mid := RecordAll(runs, rs[..n - 1]);
      assert IsRun(rs[n - 1], s.id, history, n - 1);
      RecordedTold(mid, rs[n - 1], hist, step);
      ToldTwice(runs, mid, RecordRun(mid, rs[n - 1]), hist, step);
    }
  }

  lemma ToldTwice(a: seq<RunRecord>, b: seq<RunRecord>, c: seq<RunRecord>, hist: set<Session>, step: Step)
    requires NewlyTold(a, hist, step, b) && NewlyTold(b, hist, step, c)
    ensures NewlyTold(a, hist, step, c)
  {
    forall i | 0 <= i < |c|
      ensures (exists j :: 0 <= j < |a| && SameButStats(a[j], c[i])) || Told(hist, c[i]) || AdoptsIn(step, c[i])
    {
      if j :| 0 <= j < |b| && SameButStats(b[j], c[i]) { ToldAgain(a, b[j], c[i], hist, step); }
    }
  }

  /** Statistics do not change what a record tells. */
  lemma ToldAgain(a: seq<RunRecord>, q: RunRecord, r: RunRecord, hist: set<Session>, step: Step)
    requires SameButStats(q, r)
    requires (exists j :: 0 <= j < |a| && SameButStats(a[j], q)) || Told(hist, q) || AdoptsIn(step, q)
    ensures (exists j :: 0 <= j < |a| && SameButStats(a[j], r)) || Told(hist, r) || AdoptsIn(step, r)
  {
    if j :| 0 <= j < |a| && SameButStats(a[j], q) {
      assert SameButStats(a[j], r);
    } else if Told(hist, q) {
      var v :| v in hist && Tells(q, v);
      assert Tells(r, v);
    } else {
      var k: nat :| IsRun(q, step.record.id, step.record.history, k);
      assert IsRun(r, step.record.id, step.record.history, k);
    }
  }

  // ----- step by step

  lemma RecordTold(w: World, step: RecordStep)
    requires Inv(w.core)
    ensures var d := ApplyRecord(w, step); NewlyTold(w.runs, d.core.hist, OnRecord(step), d.runs)
  {
    match step
    case Adopt(id, principal, history, born, now) => AdoptStepTold(w, id, principal, history, born, now);
    case Stats(id, seqNo, stats) =>
      var after := AttachStats(w.runs, id, seqNo, stats);
      forall i | 0 <= i < |after| ensures exists j :: 0 <= j < |w.runs| && SameButStats(w.runs[j], after[i]) {
        StatsTold(w.runs, id, seqNo, stats, i);
      }
    case _ => SameRuns(w.runs, ApplyRecord(w, step).core.hist, OnRecord(step));
  }

  lemma AdoptStepTold(w: World, id: Id, principal: Principal, history: seq<FinishedRun>, born: Option<int>, now: int)
    requires id in w.core.sessions ==> w.core.sessions[id].id == id
    ensures var d := DoAdopt(w, id, principal, history, born, now);
            NewlyTold(w.runs, d.core.hist, OnRecord(Adopt(id, principal, history, born, now)), d.runs)
  {
    var d := DoAdopt(w, id, principal, history, born, now);
    var step := OnRecord(Adopt(id, principal, history, born, now));
    if d == w {
      SameRuns(w.runs, d.core.hist, step);
    } else {
      var r := Adopted(w.core.sessions[id], history, born, now);
      AdoptedToldBy(w.runs, r, id, history, d.core.hist, step);
    }
  }

  lemma AdoptedToldBy(runs: seq<RunRecord>, r: Session, id: Id, history: seq<FinishedRun>, hist: set<Session>, step: Step)
    requires AdoptableRuns(history) && r.id == id && step.OnRecord? && step.record.Adopt? && step.record.id == id && step.record.history == history
    ensures NewlyTold(runs, hist, step, RecordAll(runs, AdoptedRuns(r, history)))
  {
    AdoptedTold(runs, r, history, |history|, hist, step);
    assert AdoptedRuns(r, history)[..|history|] == AdoptedRuns(r, history);
  }

  lemma StopFinishTold(w: World, pid: Pid, now: int, removed: bool, note: string, trace: string, saved: bool, step: Step)
    ensures var d := DoStopFinish(w, pid, now, removed, note, trace, saved); NewlyTold(w.runs, d.core.hist, step, d.runs)
  {
    var d := DoStopFinish(w, pid, now, removed, note, trace, saved);
    if now !in w.core.taken && At(w, pid) && w.core.procs[pid].StopFinishing? && w.core.procs[pid].snap.id in w.core.sessions && saved {
      var q := w.core.procs[pid];
      FrozenTold(w.runs, StopMerged(w.core.sessions[q.snap.id], q.snap, q.cand, q.note, now), removed, trace, d.core.hist, step);
    } else {
      SameRuns(w.runs, d.core.hist, step);
    }
  }

  lemma MergeTold(w: World, pid: Pid, now: int, removed: bool, note: string, trace: string, saved: bool, step: Step)
    ensures var d := DoMerge(w, pid, now, removed, note, trace, saved); NewlyTold(w.runs, d.core.hist, step, d.runs)
  {
    var d := DoMerge(w, pid, now, removed, note, trace, saved);
    if now !in w.core.taken && At(w, pid) && w.core.procs[pid].Watched? && w.core.procs[pid].snap.id in w.core.sessions && saved &&
       MergeApplies(w.core.sessions[w.core.procs[pid].snap.id], w.core.procs[pid].snap, w.core.procs[pid].cand) {
      var q := w.core.procs[pid];
      FrozenTold(w.runs, Merge(w.core.sessions[q.snap.id], q.snap, q.cand, now), removed, trace, d.core.hist, step);
    } else {
      SameRuns(w.runs, d.core.hist, step);
    }
  }

  lemma FreezeRunTold(w: World, pid: Pid, removed: bool, trace: string, saved: bool, step: Step)
    requires At(w, pid) && w.core.procs[pid].Freezing? ==> w.core.procs[pid].snap in w.core.hist
    ensures var d := DoFreezeRun(w, pid, removed, trace, saved); NewlyTold(w.runs, d.core.hist, step, d.runs)
  {
    var d := DoFreezeRun(w, pid, removed, trace, saved);
    if At(w, pid) && w.core.procs[pid].Freezing? && saved {
      FrozenTold(w.runs, w.core.procs[pid].snap, removed, trace, d.core.hist, step);
    } else {
      SameRuns(w.runs, d.core.hist, step);
    }
  }

  lemma StopTold(w: World, step: StopStep)
    ensures var d := ApplyStop(w, step); NewlyTold(w.runs, d.core.hist, OnStop(step), d.runs)
  {
    match step
    case StopFinish(pid, now, removed, note, trace, saved) => StopFinishTold(w, pid, now, removed, note, trace, saved, OnStop(step));
    case _ => SameRuns(w.runs, ApplyStop(w, step).core.hist, OnStop(step));
  }

  lemma ClaimTold(w: World, step: ClaimStep)
    requires Inv(w.core)
    ensures var d := ApplyClaim(w, step); NewlyTold(w.runs, d.core.hist, OnClaim(step), d.runs)
  {
    match step
    case FreezeRun(pid, removed, trace, saved) =>
      assert At(w, pid) ==> ProcOk(w.core, w.core.procs[pid]);
      FreezeRunTold(w, pid, removed, trace, saved, OnClaim(step));
    case _ => OtherClaimTold(w, step);
  }

  lemma OtherClaimTold(w: World, step: ClaimStep)
    requires !step.FreezeRun?
    ensures var d := ApplyClaim(w, step); NewlyTold(w.runs, d.core.hist, OnClaim(step), d.runs)
  {
    assert ApplyClaim(w, step).runs == w.runs;
    SameRuns(w.runs, ApplyClaim(w, step).core.hist, OnClaim(step));
  }

  lemma WatchTold(w: World, step: WatchStep)
    ensures var d := ApplyWatch(w, step); NewlyTold(w.runs, d.core.hist, OnWatch(step), d.runs)
  {
    match step
    case MergeWatched(pid, now, removed, note, trace, saved) => MergeTold(w, pid, now, removed, note, trace, saved, OnWatch(step));
    case _ => SameRuns(w.runs, ApplyWatch(w, step).core.hist, OnWatch(step));
  }

  lemma StepTold(w: World, step: Step)
    requires Inv(w.core)
    ensures var d := Apply(w, step); NewlyTold(w.runs, d.core.hist, step, d.runs)
  {
    match step
    case OnRecord(s) => RecordTold(w, s);
    case OnStop(s) => StopTold(w, s);
    case OnClaim(s) => ClaimTold(w, s);
    case OnWatch(s) => WatchTold(w, s);
    case OnSubmit(s) => SubmitRuns(w, s); SameRuns(w.runs, ApplySubmit(w, s).core.hist, step);
    case OnLink(s) => LinkRuns(w, s); SameRuns(w.runs, ApplyLink(w, s).core.hist, step);
    case _ => SameRuns(w.runs, Apply(w, step).core.hist, step);
  }

  /**
   Over every run, each record of the history tells exactly how a stored version of its session ended - state, error,
   start, end, launcher, spec and owner - or it is a run of a history that was adopted, as it was given.
   */
  lemma {:induction false} HistoryTellsTheTruth(steps: seq<Step>, r: RunRecord)
    requires r in Run(steps).runs
    ensures Told(Run(steps).core.hist, r) || WasAdopted(steps, r)
  {
    if steps != [] {
      var before, step := steps[..|steps| - 1], steps[|steps| - 1];
      var w, d := Run(before), Run(steps);
      RunsAreSafe(before);
      StepTold(w, step);
      StepSafe(w, step);
      var i :| 0 <= i < |d.runs| && d.runs[i] == r;
      if j :| 0 <= j < |w.runs| && SameButStats(w.runs[j], d.runs[i]) {
        HistoryTellsTheTruth(before, w.runs[j]);
        StaysTold(before, steps, w.core.hist, d.core.hist, w.runs[j], r);
      } else if AdoptsIn(step, r) {
        assert AdoptsIn(steps[|steps| - 1], r);
      }
    }
  }

  lemma StaysTold(before: seq<Step>, steps: seq<Step>, earlier: set<Session>, hist: set<Session>, q: RunRecord, r: RunRecord)
    requires steps != [] && before == steps[..|steps| - 1] && earlier <= hist && SameButStats(q, r)
    requires Told(earlier, q) || WasAdopted(before, q)
    ensures Told(hist, r) || WasAdopted(steps, r)
  {
    if Told(earlier, q) {
      var v :| v in earlier && Tells(q, v);
      assert v in hist && Tells(r, v);
    } else {
      var i :| 0 <= i < |before| && AdoptsIn(before[i], q);
      var k: nat :| IsRun(q, before[i].record.id, before[i].record.history, k);
      assert IsRun(r, steps[i].record.id, steps[i].record.history, k);
      assert AdoptsIn(steps[i], r);
    }
  }

  // ----- every end is recorded

  /** No run that is going on is over afterwards. */
  predicate StaysOpen(a: map<Id, Session>, b: map<Id, Session>) {
    forall id :: id in a && !Terminal(a[id].phase) && id in b ==> !Terminal(b[id].phase)
  }

  /** A run that is over afterwards is in the history. */
  predicate EndsRecorded(a: map<Id, Session>, b: map<Id, Session>, runs: seq<RunRecord>) {
    forall id :: id in a && !Terminal(a[id].phase) && id in b && Terminal(b[id].phase) ==> Recorded(runs, id, b[id].seqNo)
  }

  lemma FreezeRecords(w: World, sessions: map<Id, Session>, m: Session, removed: bool, note: string, trace: string)
    requires WellFormed(w.runs) && m.id in w.core.sessions && (m.seqNo == 0 ==> Terminal(w.core.sessions[m.id].phase))
    requires sessions == w.core.sessions[m.id := Frozen(m, removed, note)]
    ensures EndsRecorded(w.core.sessions, sessions, FrozenRuns(w.runs, m, removed, trace))
  {
    RecordRunKeeps(w.runs, RunOf(m, trace));
  }

  lemma StopFinishRecords(w: World, pid: Pid, now: int, removed: bool, note: string, trace: string, saved: bool)
    requires Inv(w.core) && WellFormed(w.runs)
    ensures var d := DoStopFinish(w, pid, now, removed, note, trace, saved); EndsRecorded(w.core.sessions, d.core.sessions, d.runs)
  {
    if now !in w.core.taken && At(w, pid) && w.core.procs[pid].StopFinishing? && w.core.procs[pid].snap.id in w.core.sessions && saved {
      var q := w.core.procs[pid];
      assert ProcOk(w.core, q);
      CapabilityCleanup.StopMergedShape(w.core, q.snap, q.cand, q.note, now);
      CapabilityCleanup.StopFinishParts(w, pid, now, removed, note, trace, saved);
      FreezeRecords(w, DoStopFinish(w, pid, now, removed, note, trace, saved).core.sessions,
                    StopMerged(w.core.sessions[q.snap.id], q.snap, q.cand, q.note, now), removed, note, trace);
    }
  }

  lemma MergeRecords(w: World, pid: Pid, now: int, removed: bool, note: string, trace: string, saved: bool)
    requires Inv(w.core) && WellFormed(w.runs)
    ensures var d := DoMerge(w, pid, now, removed, note, trace, saved); EndsRecorded(w.core.sessions, d.core.sessions, d.runs)
  {
    if now !in w.core.taken && At(w, pid) && w.core.procs[pid].Watched? && w.core.procs[pid].snap.id in w.core.sessions && saved &&
       MergeApplies(w.core.sessions[w.core.procs[pid].snap.id], w.core.procs[pid].snap, w.core.procs[pid].cand) {
      var q := w.core.procs[pid];
      assert Latest(w.core.hist, w.core.sessions[q.snap.id]);
      CapabilityCleanup.MergeParts(w, pid, now, removed, note, trace, saved);
      FreezeRecords(w, DoMerge(w, pid, now, removed, note, trace, saved).core.sessions,
                    Merge(w.core.sessions[q.snap.id], q.snap, q.cand, now), removed, note, trace);
    }
  }

  lemma RecordOpen(w: World, step: RecordStep)
    requires Inv(w.core)
    ensures StaysOpen(w.core.sessions, ApplyRecord(w, step).core.sessions)
  {
    match step
    case Adopt(id, principal, history, born, now) =>
      assert id in w.core.sessions ==> Latest(w.core.hist, w.core.sessions[id]) && w.core.sessions[id].id == id;
      AdoptOpen(w, id, principal, history, born, now);
    case Define(id, principal, spec, createdAt, stamp) => if stamp in w.core.stamped && id !in w.core.sessions {}
    case _ =>
  }

  lemma AdoptOpen(w: World, id: Id, principal: Principal, history: seq<FinishedRun>, born: Option<int>, now: int)
    requires id in w.core.sessions ==> w.core.sessions[id].id == id && (w.core.sessions[id].seqNo == 0 ==> w.core.sessions[id].phase == Stopped)
    ensures StaysOpen(w.core.sessions, DoAdopt(w, id, principal, history, born, now).core.sessions)
  {
  }

  lemma StopOpen(w: World, step: StopStep)
    requires !step.StopFinish?
    ensures StaysOpen(w.core.sessions, ApplyStop(w, step).core.sessions)
  {
  }

  lemma ClaimOpen(w: World, step: ClaimStep)
    requires Inv(w.core)
    ensures StaysOpen(w.core.sessions, ApplyClaim(w, step).core.sessions)
  {
    match step
    case Persist(pid, saved) =>
      assert At(w, pid) ==> ProcOk(w.core, w.core.procs[pid]);
      PersistOpen(w, pid, saved);
    case _ => CapabilityTheorems.ClaimStepsLeaveSessions(w, step);
  }

  lemma PersistOpen(w: World, pid: Pid, saved: bool)
    requires At(w, pid) && w.core.procs[pid].Issued? ==> !Terminal(w.core.procs[pid].intent.phase)
    ensures StaysOpen(w.core.sessions, DoPersist(w, pid, saved).core.sessions)
  {
    if At(w, pid) && w.core.procs[pid].Issued? {
      var q := w.core.procs[pid];
      if saved && q.prev.id in w.core.sessions && IntentApplies(w.core.sessions[q.prev.id], q.prev) {
        if q.launcher == Plane {} else {}
      } else {
      }
    }
  }

  lemma SubmitOpen(w: World, step: SubmitStep)
    requires !step.Abandon? && forall id :: id in w.core.sessions ==> w.core.sessions[id].id == id
    ensures StaysOpen(w.core.sessions, ApplySubmit(w, step).core.sessions)
  {
    match step
    case Record(pid, now, saved) => JobOpen(w, pid, now, saved);
    case Note(pid, now, saved) => NoteOpen(w, pid, now, saved);
    case _ =>
  }

  lemma JobOpen(w: World, pid: Pid, now: int, saved: bool)
    requires forall id :: id in w.core.sessions ==> w.core.sessions[id].id == id
    ensures StaysOpen(w.core.sessions, DoRecord(w, pid, now, saved).core.sessions)
  {
    if now !in w.core.taken && At(w, pid) && w.core.procs[pid].Returned? {
      var q := w.core.procs[pid];
      if saved && q.intent.id in w.core.sessions {
        if Superseded(SubmittedJob(w.core.sessions[q.intent.id], q.jobId, now)) {} else {}
      } else {
      }
    }
  }

  lemma NoteOpen(w: World, pid: Pid, now: int, saved: bool)
    requires forall id :: id in w.core.sessions ==> w.core.sessions[id].id == id
    ensures StaysOpen(w.core.sessions, DoNote(w, pid, now, saved).core.sessions)
  {
    if now !in w.core.taken && At(w, pid) && w.core.procs[pid].Noting? {
      var q := w.core.procs[pid];
      if saved && q.intent.id in w.core.sessions && CancelNoteApplies(w.core.sessions[q.intent.id], q.jobId) {} else {}
    }
  }

  lemma WatchOpen(w: World, step: WatchStep)
    requires !step.MergeWatched?
    ensures StaysOpen(w.core.sessions, ApplyWatch(w, step).core.sessions)
  {
  }

  lemma LinkOpen(w: World, step: LinkStep)
    ensures StaysOpen(w.core.sessions, ApplyLink(w, step).core.sessions)
  {
  }

  lemma StepRecords(w: World, step: Step)
    requires Inv(w.core) && WellFormed(w.runs) && !(step.OnSubmit? && step.submit.Abandon?)
    ensures var d := Apply(w, step); EndsRecorded(w.core.sessions, d.core.sessions, d.runs)
  {
    match step
    case OnStop(s) => StopRecords(w, s);
    case OnWatch(s) => WatchRecords(w, s);
    case _ => OtherOpen(w, step);
  }

  lemma OtherOpen(w: World, step: Step)
    requires Inv(w.core) && !step.OnStop? && !step.OnWatch? && !(step.OnSubmit? && step.submit.Abandon?)
    ensures StaysOpen(w.core.sessions, Apply(w, step).core.sessions)
  {
    match step
    case OnRecord(s) => RecordOpen(w, s);
    case OnClaim(s) => ClaimOpen(w, s);
    case OnSubmit(s) => SubmitOpen(w, s);
    case OnLink(s) => LinkOpen(w, s);
    case _ =>
  }

  lemma StopRecords(w: World, step: StopStep)
    requires Inv(w.core) && WellFormed(w.runs)
    ensures var d := ApplyStop(w, step); EndsRecorded(w.core.sessions, d.core.sessions, d.runs)
  {
    match step
    case StopFinish(pid, now, removed, note, trace, saved) => StopFinishRecords(w, pid, now, removed, note, trace, saved);
    case _ => StopOpen(w, step);
  }

  lemma WatchRecords(w: World, step: WatchStep)
    requires Inv(w.core) && WellFormed(w.runs)
    ensures var d := ApplyWatch(w, step); EndsRecorded(w.core.sessions, d.core.sessions, d.runs)
  {
    match step
    case MergeWatched(pid, now, removed, note, trace, saved) => MergeRecords(w, pid, now, removed, note, trace, saved);
    case _ => WatchOpen(w, step);
  }

  /**
   Over every run: the step in which a run ends puts it into the history, unless it is a launch that gave up; that one is
   recorded when its session is launched again.
   */
  lemma EndsAreRecorded(steps: seq<Step>, step: Step, id: Id)
    requires !(step.OnSubmit? && step.submit.Abandon?) && id in Run(steps).core.sessions && id in Run(steps + [step]).core.sessions
    requires !Terminal(Run(steps).core.sessions[id].phase) && Terminal(Run(steps + [step]).core.sessions[id].phase)
    ensures Recorded(Run(steps + [step]).runs, id, Run(steps + [step]).core.sessions[id].seqNo)
  {
    RunOne(steps, step);
    RunsAreSafe(steps);
    HistoryOverRuns(steps, |steps|);
    StepRecords(Run(steps), step);
  }

  // ----- adopting a history

  /** `after` is `before` with `rs` in front, the last first, cut to 200. */
  predicate Fronted(before: seq<RunRecord>, rs: seq<RunRecord>, after: seq<RunRecord>) {
    && |after| == (if |before| + |rs| <= 200 then |before| + |rs| else 200) && |rs| <= |after|
    && (forall j :: 0 <= j < |rs| ==> after[|rs| - 1 - j] == rs[j])
    && (forall k :: |rs| <= k < |after| ==> after[k] == before[k - |rs|])
  }

  lemma RecordedInFront(before: seq<RunRecord>, rs: seq<RunRecord>, mid: seq<RunRecord>, r: RunRecord)
    requires Fronted(before, rs, mid) && |rs| < 200 && r.seqNo >= 1 && !Recorded(mid, r.sessionId, r.seqNo)
    ensures Fronted(before, rs + [r], RecordRun(mid, r))
  {
    var after := RecordRun(mid, r);
    assert forall k :: 0 < k < |after| ==> after[k] == mid[k - 1];
  }

  lemma NotRecordedYet(before: seq<RunRecord>, rs: seq<RunRecord>, mid: seq<RunRecord>, id: Id, seqNo: nat)
    requires Fronted(before, rs, mid) && !HasHistory(before, id) && forall k :: 0 <= k < |rs| ==> rs[k].seqNo != seqNo
    ensures !Recorded(mid, id, seqNo)
  {
    forall i | 0 <= i < |mid| ensures !Records(mid[i], id, seqNo) {
      if i < |rs| {
        var j := |rs| - 1 - i;
        assert rs[j].seqNo != seqNo && mid[|rs| - 1 - j] == rs[j];
      } else {
        assert mid[i] == before[i - |rs|];
      }
    }
  }

  lemma {:induction false} AdoptedInFront(runs: seq<RunRecord>, s: Session, history: seq<FinishedRun>, n: nat)
    requires AdoptableRuns(history) && n <= |history| && |runs| <= 200 && !HasHistory(runs, s.id)
    ensures Fronted(runs, AdoptedRuns(s, history)[..n], RecordAll(runs, AdoptedRuns(s, history)[..n]))
  {
    var rs := AdoptedRuns(s, history);
    if n > 0 {
      assert rs[..n][..n - 1] == rs[..n - 1] && rs[..n] == rs[..n - 1] + [rs[n - 1]];
      AdoptedInFront(runs, s, history, n - 1);
      NotRecordedYet(runs, rs[..n - 1], RecordAll(runs, rs[..n - 1]), s.id, n);
      RecordedInFront(runs, rs[..n - 1], RecordAll(runs, rs[..n - 1]), rs[n - 1]);
    }
  }

  /** A history that may be adopted: 1 to 50 ended runs with at most 20 samples each. */
  predicate Adoptable(history: seq<FinishedRun>) {
    1 <= |history| <= 50 &&
    forall i :: 0 <= i < |history| ==> Terminal(history[i].finalPhase) && history[i].endedAt.Some? && history[i].samples <= 20
  }

  /** The record that shows the last run. */
  function WithLastRun(s: Session, history: seq<FinishedRun>, born: Option<int>, now: int): Session
    requires history != []
  {
    var last := history[|history| - 1];
    s.(seqNo := |history|, phase := last.finalPhase, error := last.error, startedAt := last.startedAt,
       createdAt := if born.Some? then born.value else s.createdAt, updatedAt := now)
  }

  /** The record is the run of this number of the adopted history, for this session. */
  predicate IsAdopted(r: RunRecord, s: Session, history: seq<FinishedRun>, j: nat) {
    IsRun(r, s.id, history, j) && r.owner == s.owner && r.spec == s.spec && r.stats == history[j].stats
  }

  /** It stands in the history as far from the front as it is from the end of what was adopted. */
  predicate InPlace(after: seq<RunRecord>, s: Session, history: seq<FinishedRun>, j: nat) {
    j < |history| <= |after| && IsAdopted(after[|history| - 1 - j], s, history, j)
  }

  /** The history holds all the runs, the last in front, and then what it held, cut to 200. */
  predicate HoldsRuns(before: seq<RunRecord>, after: seq<RunRecord>, s: Session, history: seq<FinishedRun>) {
    var n := |history|;
    && n <= |after| && |after| == (if |before| + n <= 200 then |before| + n else 200)
    && (forall j: nat :: j < n ==> InPlace(after, s, history, j))
    && (forall k :: n <= k < |after| ==> after[k] == before[k - n])
  }

  predicate AdoptLeaves(w: World, d: World, id: Id, history: seq<FinishedRun>, born: Option<int>, now: int) {
    && history != [] && id in w.core.sessions
    && d.core.sessions == w.core.sessions[id := WithLastRun(w.core.sessions[id], history, born, now)]
    && HoldsRuns(w.runs, d.runs, w.core.sessions[id], history) && d.caps == w.caps && d.core.procs == w.core.procs
  }

  /** Who may adopt: the owner, of a valid history, for a session that never ran and has no record in the history. */
  predicate MayAdopt(w: World, id: Id, principal: Principal, history: seq<FinishedRun>) {
    && Adoptable(history) && id in w.core.sessions && w.core.sessions[id].owner == principal && w.core.sessions[id].seqNo == 0
    && forall i :: 0 <= i < |w.runs| ==> w.runs[i].sessionId != id
  }

  lemma AdoptGranted(w: World, id: Id, principal: Principal, history: seq<FinishedRun>, born: Option<int>, now: int)
    requires now !in w.core.taken && |w.runs| <= 200 && MayAdopt(w, id, principal, history) && w.core.sessions[id].id == id
    ensures AdoptLeaves(w, DoAdopt(w, id, principal, history, born, now), id, history, born, now)
  {
    assert !HasHistory(w.runs, id);
    AdoptedHolds(w.runs, w.core.sessions[id], Adopted(w.core.sessions[id], history, born, now), history);
  }

  lemma AdoptedHolds(runs: seq<RunRecord>, s: Session, r: Session, history: seq<FinishedRun>)
    requires AdoptableRuns(history) && |runs| <= 200 && !HasHistory(runs, s.id) && r.id == s.id && r.owner == s.owner && r.spec == s.spec
    ensures HoldsRuns(runs, RecordAll(runs, AdoptedRuns(r, history)), s, history)
  {
    AllInFront(runs, r, history);
    AllAdopted(s, r, history);
    FrontHolds(runs, AdoptedRuns(r, history), RecordAll(runs, AdoptedRuns(r, history)), s, history);
  }

  lemma AllInFront(runs: seq<RunRecord>, r: Session, history: seq<FinishedRun>)
    requires AdoptableRuns(history) && |runs| <= 200 && !HasHistory(runs, r.id)
    ensures Fronted(runs, AdoptedRuns(r, history), RecordAll(runs, AdoptedRuns(r, history)))
  {
    assert AdoptedRuns(r, history)[..|history|] == AdoptedRuns(r, history);
    AdoptedInFront(runs, r, history, |history|);
  }

  lemma AllAdopted(s: Session, r: Session, history: seq<FinishedRun>)
    requires AdoptableRuns(history) && r.id == s.id && r.owner == s.owner && r.spec == s.spec
    ensures forall j :: 0 <= j < |AdoptedRuns(r, history)| ==> IsAdopted(AdoptedRuns(r, history)[j], s, history, j)
  {
  }

  lemma FrontHolds(before: seq<RunRecord>, rs: seq<RunRecord>, after: seq<RunRecord>, s: Session, history: seq<FinishedRun>)
    requires Fronted(before, rs, after) && |rs| == |history| && forall j :: 0 <= j < |rs| ==> IsAdopted(rs[j], s, history, j)
    ensures HoldsRuns(before, after, s, history)
  {
    forall j: nat | j < |history| ensures InPlace(after, s, history, j) { assert IsAdopted(rs[j], s, history, j); }
  }

  lemma AdoptRefused(w: World, id: Id, principal: Principal, history: seq<FinishedRun>, born: Option<int>, now: int)
    requires !MayAdopt(w, id, principal, history)
    ensures DoAdopt(w, id, principal, history, born, now) == w
  {
    if i :| 0 <= i < |w.runs| && w.runs[i].sessionId == id { assert HasHistory(w.runs, id); }
  }

  lemma AdoptUndisturbed(w: World, id: Id, principal: Principal, history: seq<FinishedRun>, born: Option<int>, now: int)
    requires now !in w.core.taken && |w.runs| <= 200 && (id in w.core.sessions ==> w.core.sessions[id].id == id)
    ensures var d := DoAdopt(w, id, principal, history, born, now);
            if MayAdopt(w, id, principal, history) then AdoptLeaves(w, d, id, history, born, now) else d == w
  {
    if MayAdopt(w, id, principal, history) { AdoptGranted(w, id, principal, history, born, now); } else { AdoptRefused(w, id, principal, history, born, now); }
  }

  /** Over every run: an adoption happens exactly when it may, and then it is the whole one. */
  lemma AdoptionIsWhole(steps: seq<Step>, id: Id, principal: Principal, history: seq<FinishedRun>, born: Option<int>, now: int)
    requires now !in Run(steps).core.taken
    ensures var w, d := Run(steps), Run(steps + [OnRecord(Adopt(id, principal, history, born, now))]);
            if MayAdopt(w, id, principal, history) then AdoptLeaves(w, d, id, history, born, now) else d == w
  {
    RunOne(steps, OnRecord(Adopt(id, principal, history, born, now)));
    RunsAreSafe(steps);
    HistoryOverRuns(steps, |steps|);
    AdoptUndisturbed(Run(steps), id, principal, history, born, now);
  }

  // ----- defining and deleting

  /** A new session: it never ran, and belongs to the one who defined it. */
  predicate NewSession(s: Session, id: Id, principal: Principal, spec: Spec, createdAt: int, t: int) {
    && s.id == id && s.owner == principal && s.spec == spec && s.createdAt == createdAt && s.updatedAt == t
    && s.seqNo == 0 && s.phase == Stopped && s.startedAt.None? && s.error == "" && s.jobId == "" && s.tunnel == "" && s.node == ""
    && s.jobName == Unnamed && s.launcher == Plane
  }

  predicate DefineLeaves(w: World, d: World, id: Id, principal: Principal, spec: Spec, createdAt: int, t: int) {
    && d.runs == w.runs && d.caps == w.caps && d.core.procs == w.core.procs
    && (if id in w.core.sessions then d.core.sessions == w.core.sessions
        else id in d.core.sessions && d.core.sessions == w.core.sessions[id := d.core.sessions[id]] &&
             NewSession(d.core.sessions[id], id, principal, spec, createdAt, t) &&
             forall v :: v in w.core.hist ==> v.life < d.core.sessions[id].life)
  }

  lemma DefineUndisturbed(w: World, id: Id, principal: Principal, spec: Spec, createdAt: int, t: int)
    requires t !in w.core.taken && forall v :: v in w.core.hist ==> v.life < w.core.nextLife
    ensures DefineLeaves(w, DoDefine(DoStamp(w, t), id, principal, spec, createdAt, t), id, principal, spec, createdAt, t)
  {
  }

  /** Over every run: a Define creates a session of a new life exactly when the id is free, and otherwise changes nothing. */
  lemma DefinitionIsFresh(steps: seq<Step>, id: Id, principal: Principal, spec: Spec, createdAt: int, t: int)
    requires t !in Run(steps).core.taken
    ensures DefineLeaves(Run(steps), Run(steps + [OnRecord(Stamp(t)), OnRecord(Define(id, principal, spec, createdAt, t))]),
                         id, principal, spec, createdAt, t)
  {
    RunTwo(steps, OnRecord(Stamp(t)), OnRecord(Define(id, principal, spec, createdAt, t)));
    RunsAreSafe(steps);
    DefineUndisturbed(Run(steps), id, principal, spec, createdAt, t);
  }

  predicate DeleteLeaves(w: World, d: World, id: Id, principal: Principal) {
    && d.runs == w.runs && d.links == w.links && d.core.procs == w.core.procs
    && (if id in w.core.sessions && w.core.sessions[id].owner == principal && Terminal(w.core.sessions[id].phase) then
          d.core.sessions == w.core.sessions - {id} && d.caps == w.caps - {(id, w.core.sessions[id].seqNo)}
        else d.core.sessions == w.core.sessions && d.caps == w.caps)
  }

  lemma DeleteUndisturbed(w: World, pid: Pid, id: Id, principal: Principal)
    requires !At(w, pid) && (id in w.core.sessions ==> w.core.sessions[id].id == id)
    ensures DeleteLeaves(w, DoDeleteCapability(DoDelete(w, pid, id, principal), pid, true), id, principal)
  {
    if id in w.core.sessions && w.core.sessions[id].owner == principal && Terminal(w.core.sessions[id].phase) {
      var a := DoDelete(w, pid, id, principal);
      assert a.core.procs == w.core.procs[pid := Deleting(w.core.sessions[id])];
    }
  }

  /** Over every run: a deletion by the owner of a session that is over removes its record and its file, and nothing else. */
  lemma DeletionIsWhole(steps: seq<Step>, pid: Pid, id: Id, principal: Principal)
    requires !At(Run(steps), pid)
    ensures DeleteLeaves(Run(steps), Run(steps + [OnRecord(Delete(pid, id, principal)), OnRecord(DeleteCapability(pid, true))]), id, principal)
  {
    RunTwo(steps, OnRecord(Delete(pid, id, principal)), OnRecord(DeleteCapability(pid, true)));
    RunsAreSafe(steps);
    DeleteUndisturbed(Run(steps), pid, id, principal);
  }
}
