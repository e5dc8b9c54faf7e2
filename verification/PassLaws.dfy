/**
 What many reconcile passes make of a record (subsystems/session/reconcile.go), as the scheduler, the log, the link and
 the client's tunnel answer: each field of the record in terms of the answers alone.
 */
module PassLaws {
  import opened SessionTypes
  import opened Reconciliation
  import opened SessionCycles
  import opened Retirement

  // ----- what reports say

  predicate Known(r: Report) { r.observation.state != Unknown }

  predicate Live(r: Report) { r.observation.state == Pending || r.observation.state == Running }

  /** The last report with a known state, among the first `n`. */
  predicate LastKnown(rs: seq<Report>, k: nat) { k < |rs| && Known(rs[k]) && forall j :: k < j < |rs| ==> !Known(rs[j]) }

  predicate NoneKnown(rs: seq<Report>) { forall j :: 0 <= j < |rs| ==> !Known(rs[j]) }

  /** The job waits and no link is up: whatever was serving is not any more. */
  predicate Resets(r: Report) { r.observation.state == Pending && !r.pass.linked }

  /** The scheduler last said that the job runs, or it was starting or serving before any report. */
  predicate RunsAt(s: Session, rs: seq<Report>) {
    (exists k: nat :: k < |rs| && LastKnown(rs, k) && rs[k].observation.state == Running) ||
    (NoneKnown(rs) && (s.phase == Starting || s.phase == Ready))
  }

  /** The last report shows the run serving: a link is up while the job is alive, or its log has output while it runs. */
  predicate Serves(s: Session, rs: seq<Report>)
    requires rs != []
  {
    var r := rs[|rs| - 1];
    (Live(r) && r.pass.linked) || (r.pass.started && RunsAt(s, rs))
  }

  /** The run was seen serving, or was serving at first, and was not reset since. */
  predicate SeenServing(s: Session, rs: seq<Report>) {
    if rs == [] then s.phase == Ready
    else Serves(s, rs) || (SeenServing(s, rs[..|rs| - 1]) && !Resets(rs[|rs| - 1]))
  }

  /** A live run that is not being stopped, and that no report has ended. */
  predicate Alive(s: Session, rs: seq<Report>) { Watched(s) && s.phase != Stopping && !SomeEnds(rs) }

  predicate PhaseSaid(s: Session, rs: seq<Report>, phase: Phase) {
    if SeenServing(s, rs) then phase == Ready
    else
      && (NoneKnown(rs) ==> phase == s.phase)
      && (forall k: nat :: k < |rs| && LastKnown(rs, k) ==> phase == if rs[k].observation.state == Pending then Queued else Starting)
  }

  lemma LastKnownMore(rs: seq<Report>, r: Report)
    ensures NoneKnown(rs + [r]) <==> NoneKnown(rs) && !Known(r)
    ensures forall k: nat :: LastKnown(rs + [r], k) <==> if Known(r) then k == |rs| else LastKnown(rs, k)
  {
    var more := rs + [r];
    assert forall j :: 0 <= j < |rs| ==> more[j] == rs[j];
    assert more[|rs|] == r;
  }

  lemma {:induction false} LastKnownExists(rs: seq<Report>) returns (k: nat)
    requires !NoneKnown(rs)
    ensures LastKnown(rs, k)
  {
    var init, last := rs[..|rs| - 1], rs[|rs| - 1];
    assert rs == init + [last];
    LastKnownMore(init, last);
    if Known(last) { k := |init|; } else { k := LastKnownExists(init); }
  }

  lemma KnownSetsPhase(d: Session, r: Report)
    requires d.launcher == Plane && Live(r) && Reconcilable(d.phase) && d.phase != Stopping
    ensures AfterReport(d, r).phase ==
            if r.pass.linked then Ready
            else if r.observation.state == Pending then Queued
            else if d.phase == Ready || r.pass.started then Ready else Starting
  {
  }

  lemma RunsNow(s: Session, rs: seq<Report>, r: Report)
    requires Known(r)
    ensures RunsAt(s, rs + [r]) <==> r.observation.state == Running
  {
    LastKnownMore(rs, r);
    assert LastKnown(rs + [r], |rs|) && (rs + [r])[|rs|] == r;
  }

  lemma PhaseAfterKnown(s: Session, rs: seq<Report>, d: Session, r: Report)
    requires d.launcher == Plane && Known(r) && Live(r) && Reconcilable(d.phase) && d.phase != Stopping
    requires d.phase == Ready <==> SeenServing(s, rs)
    ensures PhaseSaid(s, rs + [r], AfterReport(d, r).phase)
    ensures AfterReport(d, r).phase == Ready <==> SeenServing(s, rs + [r])
  {
    var more := rs + [r];
    LastKnownMore(rs, r);
    assert more[..|more| - 1] == rs && more[|more| - 1] == r;
    KnownSetsPhase(d, r);
    RunsNow(s, rs, r);
    assert LastKnown(more, |rs|) && !NoneKnown(more);
  }

  lemma UnknownLeavesPhase(d: Session, r: Report)
    requires d.launcher == Plane && !Known(r) && Reconcilable(d.phase)
    ensures AfterReport(d, r).phase == if d.phase == Starting && r.pass.started then Ready else d.phase
  {
  }

  lemma RunsStays(s: Session, rs: seq<Report>, r: Report)
    requires !Known(r)
    ensures RunsAt(s, rs + [r]) <==> RunsAt(s, rs)
  {
    LastKnownMore(rs, r);
    var more := rs + [r];
    assert forall j :: 0 <= j < |rs| ==> more[j] == rs[j];
    if k: nat :| k < |rs| && LastKnown(rs, k) && rs[k].observation.state == Running { assert LastKnown(more, k); }
    if k: nat :| k < |more| && LastKnown(more, k) && more[k].observation.state == Running { assert LastKnown(rs, k); }
  }

  lemma RunningIsStarting(s: Session, rs: seq<Report>, d: Session)
    requires PhaseSaid(s, rs, d.phase) && !SeenServing(s, rs) && d.phase != Ready && !SomeEnds(rs)
    ensures RunsAt(s, rs) <==> d.phase == Starting
  {
    if !NoneKnown(rs) {
      var k := LastKnownExists(rs);
      assert !Ends(rs[k]);
      forall j: nat | LastKnown(rs, j) ensures j == k {}
    }
  }

  lemma PhaseAfterUnknown(s: Session, rs: seq<Report>, d: Session, r: Report)
    requires d.launcher == Plane && !Known(r) && Reconcilable(d.phase) && d.phase != Stopping && PhaseSaid(s, rs, d.phase) && !SomeEnds(rs)
    requires d.phase == Ready <==> SeenServing(s, rs)
    ensures PhaseSaid(s, rs + [r], AfterReport(d, r).phase)
    ensures AfterReport(d, r).phase == Ready <==> SeenServing(s, rs + [r])
  {
    var more := rs + [r];
    LastKnownMore(rs, r);
    RunsStays(s, rs, r);
    UnknownLeavesPhase(d, r);
    assert more[..|more| - 1] == rs && more[|more| - 1] == r;
    assert forall j :: 0 <= j < |rs| ==> more[j] == rs[j];
    if !SeenServing(s, rs) { RunningIsStarting(s, rs, d); }
  }

  /**
   Over every sequence of passes that see the job alive, a run that is not being stopped is Ready exactly when it was seen
   serving since the last time it waited unlinked; otherwise it is Queued when the last known state was Pending and
   Starting when it was Running, and as it was when no state was known.
   */
  lemma {:induction false} PhaseFollowsReports(s: Session, rs: seq<Report>)
    requires Alive(s, rs)
    ensures var d := AfterReports(s, rs);
            && PhaseSaid(s, rs, d.phase) && (d.phase == Ready <==> SeenServing(s, rs))
            && d.launcher == Plane && Reconcilable(d.phase) && d.phase != Stopping
  {
    if rs != [] {
      var init, last := rs[..|rs| - 1], rs[|rs| - 1];
      assert rs == init + [last];
      OneMoreReport(init, last);
      PhaseFollowsReports(s, init);
      PhaseAfterReport(s, init, AfterReports(s, init), last);
    }
  }

  lemma PhaseAfterReport(s: Session, rs: seq<Report>, d: Session, r: Report)
    requires d.launcher == Plane && Reconcilable(d.phase) && d.phase != Stopping && !SomeEnds(rs) && !Ends(r)
    requires PhaseSaid(s, rs, d.phase) && (d.phase == Ready <==> SeenServing(s, rs))
    ensures var e := AfterReport(d, r);
            && PhaseSaid(s, rs + [r], e.phase) && (e.phase == Ready <==> SeenServing(s, rs + [r]))
            && e.launcher == Plane && Reconcilable(e.phase) && e.phase != Stopping
  {
    if Known(r) {
      PhaseAfterKnown(s, rs, d, r);
      KnownSetsPhase(d, r);
    } else {
      PhaseAfterUnknown(s, rs, d, r);
      UnknownLeavesPhase(d, r);
    }
    ReportMoves(d, r);
  }

  lemma {:induction false} NeverServing(s: Session, rs: seq<Report>)
    requires s.phase != Ready && forall i :: 0 <= i < |rs| ==> !rs[i].pass.linked && !rs[i].pass.started
    ensures !SeenServing(s, rs)
  {
    if rs != [] { NeverServing(s, rs[..|rs| - 1]); }
  }

  /** Without a link and without output in the log, the phase is the scheduler's word. */
  lemma UnlinkedRunsFollowTheScheduler(s: Session, rs: seq<Report>, k: nat)
    requires Alive(s, rs) && s.phase != Ready && LastKnown(rs, k)
    requires forall i :: 0 <= i < |rs| ==> !rs[i].pass.linked && !rs[i].pass.started
    ensures AfterReports(s, rs).phase == Queued <==> rs[k].observation.state == Pending
    ensures AfterReports(s, rs).phase == Starting <==> rs[k].observation.state == Running
  {
    NeverServing(s, rs);
    PhaseFollowsReports(s, rs);
    assert !Ends(rs[k]);
  }

  // ----- the other fields

  predicate FirstWhere<T>(rs: seq<T>, p: T -> bool, i: nat) { i < |rs| && p(rs[i]) && forall j :: 0 <= j < i ==> !p(rs[j]) }

  predicate LastWhere<T>(rs: seq<T>, p: T -> bool, i: nat) { i < |rs| && p(rs[i]) && forall j :: i < j < |rs| ==> !p(rs[j]) }

  predicate Nowhere<T>(rs: seq<T>, p: T -> bool) { forall j :: 0 <= j < |rs| ==> !p(rs[j]) }

  lemma WhereMore<T>(rs: seq<T>, p: T -> bool, r: T)
    ensures Nowhere(rs + [r], p) <==> Nowhere(rs, p) && !p(r)
    ensures forall i: nat :: FirstWhere(rs + [r], p, i) <==> if Nowhere(rs, p) then p(r) && i == |rs| else FirstWhere(rs, p, i)
    ensures forall i: nat :: LastWhere(rs + [r], p, i) <==> if p(r) then i == |rs| else LastWhere(rs, p, i)
  {
    var more := rs + [r];
    assert forall j :: 0 <= j < |rs| ==> more[j] == rs[j];
    assert more[|rs|] == r;
  }

  predicate NamesJob(r: Report) { r.observation.jobId != "" }

  predicate NamesNode(r: Report) { r.observation.node != "" }

  predicate SaysRunning(r: Report) { r.observation.state == Running }

  predicate SaysState(r: Report) { r.observation.state != Unknown }

  /** When the job started, by the report. */
  function StartOf(r: Report): int { r.pass.seen - r.observation.elapsedSeconds * SECOND }

  /** The job id is the first one reported, and never changes. */
  ghost predicate JobSaid(s: Session, rs: seq<Report>, jobId: string) {
    if s.jobId != "" || Nowhere(rs, NamesJob) then jobId == s.jobId
    else forall i: nat :: FirstWhere(rs, NamesJob, i) ==> jobId == rs[i].observation.jobId
  }

  /** The node is the last one reported. */
  ghost predicate NodeSaid(s: Session, rs: seq<Report>, node: string) {
    if Nowhere(rs, NamesNode) then node == s.node
    else forall i: nat :: LastWhere(rs, NamesNode, i) ==> node == rs[i].observation.node
  }

  /** The start is that of the first report that the job runs, and never changes. */
  ghost predicate StartSaid(s: Session, rs: seq<Report>, startedAt: Option<int>) {
    if s.startedAt.Some? || Nowhere(rs, SaysRunning) then startedAt == s.startedAt
    else forall i: nat :: FirstWhere(rs, SaysRunning, i) ==> startedAt == Some(StartOf(rs[i]))
  }

  /** The error is cleared by every known state, except that a stop in progress shows why its cancellation failed. */
  ghost predicate ErrorSaid(s: Session, rs: seq<Report>, error: string) {
    if Nowhere(rs, SaysState) then error == s.error
    else forall i: nat :: LastWhere(rs, SaysState, i) ==> error == if s.phase == Stopping && !Ends(rs[i]) then rs[i].cancelError else ""
  }

  /** Everything else is left as it is. */
  predicate RestKept(s: Session, d: Session) {
    d == s.(phase := d.phase, error := d.error, jobId := d.jobId, node := d.node, startedAt := d.startedAt, updatedAt := d.updatedAt)
  }

  ghost predicate FieldsSaid(s: Session, rs: seq<Report>, d: Session) {
    && JobSaid(s, rs, d.jobId) && NodeSaid(s, rs, d.node) && StartSaid(s, rs, d.startedAt) && ErrorSaid(s, rs, d.error)
    && RestKept(s, d)
  }

  lemma OneReport(d: Session, r: Report)
    requires Watched(d)
    ensures var e := AfterReport(d, r);
            && e.jobId == (if d.jobId != "" then d.jobId else r.observation.jobId)
            && e.node == (if r.observation.node != "" then r.observation.node else d.node)
            && e.startedAt == (if d.startedAt.None? && SaysRunning(r) then Some(StartOf(r)) else d.startedAt)
            && e.error == (if !SaysState(r) then d.error else if d.phase == Stopping && !Ends(r) then r.cancelError else "")
            && RestKept(d, e)
            && e.updatedAt == (if e == d then d.updatedAt else r.pass.merged)
  {
  }

  lemma FieldsAfter(s: Session, rs: seq<Report>, d: Session, r: Report)
    requires FieldsSaid(s, rs, d) && Watched(d) && (d.phase == Stopping <==> s.phase == Stopping)
    ensures FieldsSaid(s, rs + [r], AfterReport(d, r))
  {
    OneReport(d, r);
    JobAfter(s, rs, d, r);
    NodeAfter(s, rs, d, r);
    StartAfter(s, rs, d, r);
    ErrorAfter(s, rs, d, r);
  }

  lemma JobAfter(s: Session, rs: seq<Report>, d: Session, r: Report)
    requires JobSaid(s, rs, d.jobId)
    ensures JobSaid(s, rs + [r], if d.jobId != "" then d.jobId else r.observation.jobId)
  {
    WhereMore(rs, NamesJob, r);
    var more := rs + [r];
    if s.jobId == "" && !Nowhere(rs, NamesJob) {
      var i := FirstExists(rs, NamesJob);
      forall k: nat | FirstWhere(more, NamesJob, k) ensures k == i && more[k] == rs[i] {}
    }
  }

  lemma NodeAfter(s: Session, rs: seq<Report>, d: Session, r: Report)
    requires NodeSaid(s, rs, d.node)
    ensures NodeSaid(s, rs + [r], if r.observation.node != "" then r.observation.node else d.node)
  {
    WhereMore(rs, NamesNode, r);
    var more := rs + [r];
    forall i: nat | LastWhere(more, NamesNode, i) && !NamesNode(r) ensures LastWhere(rs, NamesNode, i) && more[i] == rs[i] {}
  }

  lemma StartAfter(s: Session, rs: seq<Report>, d: Session, r: Report)
    requires StartSaid(s, rs, d.startedAt)
    ensures StartSaid(s, rs + [r], if d.startedAt.None? && SaysRunning(r) then Some(StartOf(r)) else d.startedAt)
  {
    WhereMore(rs, SaysRunning, r);
    var more := rs + [r];
    if s.startedAt.None? && !Nowhere(rs, SaysRunning) {
      var i := FirstExists(rs, SaysRunning);
      forall k: nat | FirstWhere(more, SaysRunning, k) ensures k == i && more[k] == rs[i] {}
    }
  }

  lemma ErrorAfter(s: Session, rs: seq<Report>, d: Session, r: Report)
    requires ErrorSaid(s, rs, d.error) && (d.phase == Stopping <==> s.phase == Stopping)
    ensures ErrorSaid(s, rs + [r], if !SaysState(r) then d.error else if d.phase == Stopping && !Ends(r) then r.cancelError else "")
  {
    WhereMore(rs, SaysState, r);
    var more := rs + [r];
    forall i: nat | LastWhere(more, SaysState, i) && !SaysState(r) ensures LastWhere(rs, SaysState, i) && more[i] == rs[i] {}
  }

  lemma {:induction false} FirstExists<T>(rs: seq<T>, p: T -> bool) returns (i: nat)
    requires !Nowhere(rs, p)
    ensures FirstWhere(rs, p, i)
  {
    var init, last := rs[..|rs| - 1], rs[|rs| - 1];
    assert rs == init + [last];
    WhereMore(init, p, last);
    if Nowhere(init, p) { i := |init|; } else { i := FirstExists(init, p); }
  }

  /**
   Over every sequence of passes that see the job, up to and including the one that reports its end: the job id is the
   first one reported, the node the last one, the start that of the first report that it runs, the error that of the last
   known state; nothing else of the record changes.
   */
  lemma {:induction false} FieldsFollowReports(s: Session, rs: seq<Report>)
    requires Watched(s) && (rs == [] || !SomeEnds(rs[..|rs| - 1]))
    ensures FieldsSaid(s, rs, AfterReports(s, rs))
  {
    if rs != [] {
      var init, last := rs[..|rs| - 1], rs[|rs| - 1];
      assert rs == init + [last];
      if init != [] {
        assert init == init[..|init| - 1] + [init[|init| - 1]];
        OneMoreReport(init[..|init| - 1], init[|init| - 1]);
      }
      FieldsFollowReports(s, init);
      OverExactlyWhenReported(s, init);
      StoppingStays(s, init);
      FieldsAfter(s, init, AfterReports(s, init), last);
    }
  }

  lemma StoppingStays(s: Session, rs: seq<Report>)
    requires Watched(s) && !SomeEnds(rs)
    ensures AfterReports(s, rs).phase == Stopping <==> s.phase == Stopping
  {
    OverExactlyWhenReported(s, rs);
    if s.phase != Stopping { PhaseFollowsReports(s, rs); }
  }

  // ----- a scheduler that does not mention the job

  predicate HasOutput(p: Pass) { p.started }

  /** Passes that find no job change the phase and the error only: as in the log, or the run is over and has no error. */
  lemma {:induction false} AbsenceLeavesTheRest(s: Session, cancelError: string, ps: seq<Pass>)
    requires Watched(s)
    ensures var d := After(s, cancelError, ps);
            && d == s.(phase := d.phase, error := d.error, updatedAt := d.updatedAt)
            && (if Overdue(s, cancelError, ps) then d.phase == Stopped && d.error == ""
                else
                  && d.phase == (if s.phase == Starting && !Nowhere(ps, HasOutput) then Ready else s.phase)
                  && d.error == (if AnswersStop(s, ps) then OrText(cancelError, "scheduler returned no state") else s.error))
  {
    if ps != [] {
      var init, p := ps[..|ps| - 1], ps[|ps| - 1];
      assert ps == init + [p];
      WhereMore(init, HasOutput, p);
      AbsenceLeavesTheRest(s, cancelError, init);
      var r := After(s, cancelError, init);
      if Overdue(s, cancelError, init) { OverStaysOver(r, cancelError, p); } else { AbsenceOnce(r, cancelError, p); }
    }
  }

  /** A stop in progress whose job is known says that the scheduler returned no state. */
  predicate AnswersStop(s: Session, ps: seq<Pass>) { s.phase == Stopping && s.jobId != "" && ps != [] }

  lemma AbsenceOnce(r: Session, cancelError: string, p: Pass)
    requires Watched(r)
    ensures var d := AfterPass(r, cancelError, p);
            && d == r.(phase := d.phase, error := d.error, updatedAt := d.updatedAt)
            && (if Past(r, p) then d.phase == Stopped && d.error == ""
                else
                  && d.phase == (if r.phase == Starting && p.started then Ready else r.phase)
                  && d.error == (if r.phase == Stopping && r.jobId != "" then OrText(cancelError, "scheduler returned no state") else r.error))
  {
  }

  // ----- a scheduler that cannot be reached

  datatype Failure = Failure(error: string, pass: Pass)

  function AfterFailure(s: Session, f: Failure): Session {
    var candidate := PromoteByLog(Candidate(s, Unreachable(f.error), f.pass.linked, f.pass.seen), f.pass.started);
    Frozen(Merge(s, s, candidate, f.pass.merged), true, "")
  }

  function AfterFailures(s: Session, fs: seq<Failure>): Session {
    if fs == [] then s else AfterFailure(AfterFailures(s, fs[..|fs| - 1]), fs[|fs| - 1])
  }

  /** The pass came more than ten minutes after the walltime of a run that had started. */
  predicate Outlived(s: Session, f: Failure) {
    && (s.phase == Starting || s.phase == Ready) && s.startedAt.Some? && s.spec.resources.wallMinutes > 0
    && f.pass.seen > s.startedAt.value + (s.spec.resources.wallMinutes + 10) * MINUTE
  }

  predicate SomeOutlived(s: Session, fs: seq<Failure>) { exists i :: 0 <= i < |fs| && Outlived(s, fs[i]) }

  predicate LogHadOutput(f: Failure) { f.pass.started }

  lemma OneFailure(d: Session, f: Failure)
    requires Watched(d)
    ensures var e := AfterFailure(d, f);
            && e == d.(phase := e.phase, error := e.error, updatedAt := e.updatedAt)
            && (if Outlived(d, f) then e.phase == Stopped && e.error == ""
                else e.phase == (if d.phase == Starting && f.pass.started then Ready else d.phase) && e.error == f.error)
  {
  }

  lemma FailureAfterEnd(d: Session, f: Failure)
    requires d.launcher == Plane && Terminal(d.phase)
    ensures AfterFailure(d, f) == d
  {
  }

  /**
   Over every sequence of passes that cannot reach the scheduler, a run is stopped exactly when one of them came past its
   walltime and grace; otherwise its phase is kept, but for output in the log of a starting run, and the error is the last
   failure. One failed status check ends nothing.
   */
  lemma {:induction false} FailuresEndOnlyTheOutlived(s: Session, fs: seq<Failure>)
    requires Watched(s)
    ensures var d := AfterFailures(s, fs);
            && d == s.(phase := d.phase, error := d.error, updatedAt := d.updatedAt)
            && (if SomeOutlived(s, fs) then d.phase == Stopped && d.error == ""
                else
                  && d.phase == (if s.phase == Starting && !Nowhere(fs, LogHadOutput) then Ready else s.phase)
                  && d.error == (if fs == [] then s.error else fs[|fs| - 1].error))
  {
    if fs != [] {
      var init, f := fs[..|fs| - 1], fs[|fs| - 1];
      assert fs == init + [f];
      WhereMore(init, LogHadOutput, f);
      FailuresEndOnlyTheOutlived(s, init);
      var d := AfterFailures(s, init);
      OutlivedMore(s, init, f);
      if SomeOutlived(s, init) { FailureAfterEnd(d, f); } else { OneFailure(d, f); }
    }
  }

  lemma OutlivedMore(s: Session, fs: seq<Failure>, f: Failure)
    ensures SomeOutlived(s, fs + [f]) <==> SomeOutlived(s, fs) || Outlived(s, f)
  {
    var more := fs + [f];
    if i :| 0 <= i < |fs| && Outlived(s, fs[i]) { assert Outlived(s, more[i]); }
    if Outlived(s, f) { assert Outlived(s, more[|fs|]); }
    if i :| 0 <= i < |more| && Outlived(s, more[i]) { assert i < |fs| ==> Outlived(s, fs[i]); }
  }

  // ----- a client's run

  datatype Probing = Probing(healthy: bool, pass: Pass)

  function AfterProbe(s: Session, p: Probing): Session {
    var candidate := PromoteByLog(Candidate(s, Probe(p.healthy), p.pass.linked, p.pass.seen), p.pass.started);
    Frozen(Merge(s, s, candidate, p.pass.merged), true, "")
  }

  function AfterProbes(s: Session, ps: seq<Probing>): Session {
    if ps == [] then s else AfterProbe(AfterProbes(s, ps[..|ps| - 1]), ps[|ps| - 1])
  }

  predicate Healthy(p: Probing) { p.healthy }

  /** A client's run that waits for its tunnel to answer. */
  predicate AwaitsTunnel(s: Session) { s.phase == Queued && s.tunnel != "" }

  lemma OneProbe(s: Session, p: Probing)
    requires s.launcher == Client && s.phase != Starting
    ensures var d := AfterProbe(s, p);
            && d == s.(phase := d.phase, error := d.error, startedAt := d.startedAt, updatedAt := d.updatedAt)
            && (if s.phase == Stopping then d.phase == Stopped && d.error == "" && d.startedAt == s.startedAt
                else if AwaitsTunnel(s) && p.healthy then
                  d.phase == Ready && d.error == s.error && d.startedAt == (if s.startedAt.Some? then s.startedAt else Some(p.pass.seen))
                else d == s)
  {
  }

  /**
   Over every sequence of passes over a client's run, whatever the scheduler would say: a stop is over after the first
   pass; a queued run with a tunnel becomes Ready with the first healthy answer of the tunnel, which is its start; and
   every other run is left alone.
   */
  lemma {:induction false} ClientRunsFollowTheirTunnel(s: Session, ps: seq<Probing>)
    requires s.launcher == Client && s.phase != Starting
    ensures var d := AfterProbes(s, ps);
            && d == s.(phase := d.phase, error := d.error, startedAt := d.startedAt, updatedAt := d.updatedAt)
            && (s.phase == Stopping && ps != [] ==> d.phase == Stopped && d.error == "" && d.startedAt == s.startedAt)
            && (AwaitsTunnel(s) ==> (d.phase == if Nowhere(ps, Healthy) then Queued else Ready) && d.error == s.error)
            && (AwaitsTunnel(s) && s.startedAt.None? ==> forall i: nat :: FirstWhere(ps, Healthy, i) ==> d.startedAt == Some(ps[i].pass.seen))
            && (s.startedAt.Some? || Nowhere(ps, Healthy) ==> d.startedAt == s.startedAt)
            && (s.phase != Stopping && !AwaitsTunnel(s) ==> d == s)
  {
    if ps != [] {
      var init, p := ps[..|ps| - 1], ps[|ps| - 1];
      assert ps == init + [p];
      WhereMore(init, Healthy, p);
      ClientRunsFollowTheirTunnel(s, init);
      OneProbe(AfterProbes(s, init), p);
      if !Nowhere(init, Healthy) {
        var k := FirstExists(init, Healthy);
        forall i: nat | FirstWhere(ps, Healthy, i) ensures i == k && ps[i] == init[k] {}
      }
    }
  }
}
