/**
 The end of a run over many reconcile passes (subsystems/session/reconcile.go). Passes that reach a scheduler which never
 mentions the job retire a session, not before its window has passed and not long after; passes that see the job end it
 exactly when the scheduler says so.
 */
module Retirement {
  import opened SessionTypes
  import opened Reconciliation
  import opened SessionCycles

  /** One pass: when it looked at the session, when it merged, and whether the run's log had output. */
  datatype Pass = Pass(seen: int, merged: int, started: bool, linked: bool)

  /** The stored record after a pass that found no job; the cleanup that freezing does succeeds. */
  function AfterPass(s: Session, cancelError: string, p: Pass): Session {
    var candidate := PromoteByLog(Candidate(s, Missing(cancelError), p.linked, p.seen), p.started);
    Frozen(Merge(s, s, candidate, p.merged), true, "")
  }

  function After(s: Session, cancelError: string, ps: seq<Pass>): Session {
    if ps == [] then s else AfterPass(After(s, cancelError, ps[..|ps| - 1]), cancelError, ps[|ps| - 1])
  }

  /** Two minutes, or five for a session without a job id. */
  function Window(s: Session): int { if s.jobId == "" then 5 * MINUTE else 2 * MINUTE }

  predicate Past(s: Session, p: Pass) { p.seen - s.updatedAt > Window(s) }

  predicate Watched(s: Session) { s.launcher == Plane && Reconcilable(s.phase) }

  /** How many passes stored a new version that was not the end of the run. */
  function Rewrites(s: Session, cancelError: string, ps: seq<Pass>): nat {
    if ps == [] then 0
    else
      var r := After(s, cancelError, ps[..|ps| - 1]);
      var d := AfterPass(r, cancelError, ps[|ps| - 1]);
      Rewrites(s, cancelError, ps[..|ps| - 1]) + if d != r && !Terminal(d.phase) then 1 else 0
  }

  /** Some pass came past the window of the record it found. */
  predicate Overdue(s: Session, cancelError: string, ps: seq<Pass>) {
    ps != [] && (Overdue(s, cancelError, ps[..|ps| - 1]) || Past(After(s, cancelError, ps[..|ps| - 1]), ps[|ps| - 1]))
  }

  /** Nothing is left to say about this record but its end. */
  predicate Spent(s: Session, cancelError: string) {
    Watched(s) && (s.phase == Ready || (s.phase == Stopping && s.error == OrText(cancelError, "scheduler returned no state")))
  }

  /** A pass retires a session for absence exactly when the session's window has passed. */
  lemma RetiresExactlyPastWindow(s: Session, cancelError: string, p: Pass)
    requires Watched(s)
    ensures Terminal(AfterPass(s, cancelError, p).phase) <==> Past(s, p)
    ensures Past(s, p) ==> AfterPass(s, cancelError, p) == s.(phase := Stopped, error := "", updatedAt := p.merged)
  {
  }

  lemma InsideWindow(s: Session, cancelError: string, p: Pass)
    requires Watched(s) && !Past(s, p)
    ensures var d := AfterPass(s, cancelError, p);
            && Watched(d) && Window(d) == Window(s)
            && (d != s ==> Spent(d, cancelError) && d.updatedAt == p.merged)
            && (Spent(s, cancelError) ==> d == s)
  {
  }

  lemma OverStaysOver(s: Session, cancelError: string, p: Pass)
    requires s.launcher == Plane && Terminal(s.phase)
    ensures AfterPass(s, cancelError, p) == s
  {
  }

  /** Where a session stands after some passes: as it was, rewritten once at `at`, or over. */
  datatype Standing = Untouched | RewrittenAt(at: nat) | Over

  predicate Stands(s: Session, cancelError: string, ps: seq<Pass>, st: Standing) {
    var d := After(s, cancelError, ps);
    match st
    case Untouched => d == s && Watched(d)
    case RewrittenAt(at) => at < |ps| && Spent(d, cancelError) && d.updatedAt == ps[at].merged && Window(d) == Window(s) && !Past(s, ps[at])
    case Over => d.launcher == Plane && d.phase == Stopped
  }

  /**
   The whole course of a session under absence: at most one pass rewrites the record, and the session is retired
   exactly when some pass came past the window of the record it found.
   */
  lemma {:induction false} Course(s: Session, cancelError: string, ps: seq<Pass>) returns (st: Standing)
    requires Watched(s)
    ensures Stands(s, cancelError, ps, st) && Rewrites(s, cancelError, ps) <= if st.Untouched? then 0 else 1
    ensures st.Over? <==> Overdue(s, cancelError, ps)
  {
    st := Untouched;
    if ps != [] {
      var p := ps[|ps| - 1];
      st := Course(s, cancelError, ps[..|ps| - 1]);
      var r := After(s, cancelError, ps[..|ps| - 1]);
      if st.Over? {
        OverStaysOver(r, cancelError, p);
      } else {
        RetiresExactlyPastWindow(r, cancelError, p);
        if Past(r, p) {
          st := Over;
        } else {
          InsideWindow(r, cancelError, p);
          if AfterPass(r, cancelError, p) != r { st := RewrittenAt(|ps| - 1); }
        }
      }
    }
  }

  lemma RetiredExactlyWhenOverdue(s: Session, cancelError: string, ps: seq<Pass>)
    requires Watched(s)
    ensures After(s, cancelError, ps).phase == Stopped <==> Overdue(s, cancelError, ps)
    ensures Rewrites(s, cancelError, ps) <= 1
  {
    var _ := Course(s, cancelError, ps);
  }

  /**
   When no pass takes longer than `lag` from looking to merging, a pass that looks later than two windows and one lag
   after the first record was stored leaves the session stopped.
   */
  lemma RetiredInTime(s: Session, cancelError: string, ps: seq<Pass>, lag: int)
    requires Watched(s) && ps != [] && forall i :: 0 <= i < |ps| ==> ps[i].merged - ps[i].seen <= lag
    requires lag >= 0 && ps[|ps| - 1].seen > s.updatedAt + 2 * Window(s) + lag
    ensures After(s, cancelError, ps).phase == Stopped
  {
    var n := |ps| - 1;
    var st := Course(s, cancelError, ps[..n]);
    var r := After(s, cancelError, ps[..n]);
    if st.RewrittenAt? { assert ps[..n][st.at] == ps[st.at]; }
    if st.Over? {
      OverStaysOver(r, cancelError, ps[n]);
    } else {
      RetiresExactlyPastWindow(r, cancelError, ps[n]);
    }
  }

  // ----- passes that see the job

  datatype Report = Report(observation: Observation, cancelError: string, pass: Pass)

  predicate Ends(r: Report) { r.observation.state == Ended || r.observation.state == Expired || r.observation.state == Broken }

  function AfterReport(s: Session, r: Report): Session {
    var candidate := PromoteByLog(Candidate(s, Seen(r.observation, r.cancelError), r.pass.linked, r.pass.seen), r.pass.started);
    Frozen(Merge(s, s, candidate, r.pass.merged), true, "")
  }

  function AfterReports(s: Session, rs: seq<Report>): Session {
    if rs == [] then s else AfterReport(AfterReports(s, rs[..|rs| - 1]), rs[|rs| - 1])
  }

  lemma ReportMoves(s: Session, r: Report)
    requires Watched(s)
    ensures var d := AfterReport(s, r);
            && d.launcher == Plane && (Terminal(d.phase) <==> Ends(r)) && (Ends(r) ==> (d.phase == Failed <==> r.observation.state == Broken))
            && (s.phase == Stopping && !Ends(r) ==> d.phase == Stopping)
  {
    ObservationOutcome(s, r.observation, r.cancelError, r.pass.linked, r.pass.seen);
  }

  lemma ReportAfterEnd(s: Session, r: Report)
    requires s.launcher == Plane && Terminal(s.phase)
    ensures AfterReport(s, r) == s
  {
  }

  /** The first report that says the job ended. */
  predicate FirstEnd(rs: seq<Report>, i: nat) { i < |rs| && Ends(rs[i]) && forall j :: 0 <= j < i ==> !Ends(rs[j]) }

  predicate SomeEnds(rs: seq<Report>) { exists i :: 0 <= i < |rs| && Ends(rs[i]) }

  lemma OneMoreReport(rs: seq<Report>, r: Report)
    ensures SomeEnds(rs + [r]) <==> SomeEnds(rs) || Ends(r)
    ensures forall i: nat :: FirstEnd(rs + [r], i) <==> if SomeEnds(rs) then FirstEnd(rs, i) else i == |rs| && Ends(r)
  {
    var more := rs + [r];
    assert forall i :: 0 <= i < |rs| ==> more[i] == rs[i];
    assert more[|rs|] == r;
  }

  ghost predicate Outcome(s: Session, rs: seq<Report>, d: Session) {
    && d.launcher == Plane && (Terminal(d.phase) <==> SomeEnds(rs))
    && (forall i: nat :: FirstEnd(rs, i) ==> (d.phase == Failed <==> rs[i].observation.state == Broken))
    && (s.phase == Stopping ==> Settled(d.phase))
  }

  lemma OutcomeAfter(s: Session, rs: seq<Report>, d: Session, r: Report)
    requires Outcome(s, rs, d)
    ensures Outcome(s, rs + [r], AfterReport(d, r))
  {
    OneMoreReport(rs, r);
    if SomeEnds(rs) { ReportAfterEnd(d, r); } else { ReportMoves(d, r); }
    forall i: nat | FirstEnd(rs + [r], i)
      ensures AfterReport(d, r).phase == Failed <==> (rs + [r])[i].observation.state == Broken
    {
      assert SomeEnds(rs) ==> FirstEnd(rs, i);
    }
  }

  /**
   Over every sequence of passes that see the job, the run is over exactly when one of them said that the job ended, and
   then for good: Failed exactly when the first of them said it broke. A stop in progress stays one until then.
   */
  lemma {:induction false} OverExactlyWhenReported(s: Session, rs: seq<Report>)
    requires Watched(s)
    ensures Outcome(s, rs, AfterReports(s, rs))
  {
    if rs != [] {
      var init := rs[..|rs| - 1];
      OverExactlyWhenReported(s, init);
      OutcomeAfter(s, init, AfterReports(s, init), rs[|rs| - 1]);
      assert rs == init + [rs[|rs| - 1]];
    }
  }
}
