/**
 Scheduler reconciliation (subsystems/session/reconcile.go): how one observation of the scheduler turns a snapshot
 of a session into a candidate, and how the candidate is merged into the stored record.
 */
module Reconciliation {
  import opened SessionTypes
  import Text

  const PROPAGATION_WINDOW := 2 * MINUTE
  const PROVISION_TIMEOUT := 5 * MINUTE
  const WALLTIME_GRACE := 10 * MINUTE

  datatype JobState = Unknown | Pending | Running | Ended | Expired | Broken

  /** `node` is the usable part of what the scheduler reported, see `UsableNode`. */
  datatype Observation = Observation(jobId: string, state: JobState, node: string, elapsedSeconds: nat)

  /** A reported node counts exactly when it is a plain name; the placeholders never are. */
  function UsableNode(reported: string): (node: string)
    ensures node == if Text.SafeName(Text.TrimSpace(reported), 256) then Text.TrimSpace(reported) else ""
  {
    var node := Text.TrimSpace(reported);
    assert "(null)"[0] == '(' && "None assigned"[4] == ' ';
    if node != "(null)" && node != "None assigned" && Text.SafeName(node, 256) then node else ""
  }

  /** What the scheduler, or for a client's run the tunnel probe, answered about one session. */
  datatype Answer =
    | Unreachable(error: string)
    | Missing(cancelError: string)
    | Seen(observation: Observation, cancelError: string)
    | Probe(healthy: bool)

  predicate OutlivedWalltime(s: Session, now: int) {
    (s.phase == Starting || s.phase == Ready) && s.startedAt.Some? && s.spec.resources.wallMinutes > 0 &&
    now - s.startedAt.value > s.spec.resources.wallMinutes * MINUTE + WALLTIME_GRACE
  }

  predicate UnknownToScheduler(s: Session, now: int) { now - s.updatedAt > PROPAGATION_WINDOW }

  function UnreachableScheduler(s: Session, error: string, now: int): Session {
    if OutlivedWalltime(s, now) then s.(phase := Stopped, error := "") else s.(error := error)
  }

  function MissingFromScheduler(s: Session, cancelError: string, now: int): Session {
    if s.jobId == "" && now - s.updatedAt <= PROVISION_TIMEOUT then s
    else if s.phase == Stopping && !UnknownToScheduler(s, now) then
      s.(error := OrText(cancelError, "scheduler returned no state"))
    else if s.jobId != "" && !UnknownToScheduler(s, now) then s
    else s.(phase := Stopped, error := "")
  }

  function NextPhase(current: Phase, state: JobState): Phase {
    if current == Stopping && (state == Pending || state == Running) then Stopping
    else if state == Pending then Queued
    else if state == Running && current == Ready then Ready
    else if state == Running then Starting
    else if state == Ended || state == Expired then Stopped
    else Failed
  }

  /** `linked` says whether the link registry holds a link for this session's seq. */
  function ApplyObservation(s: Session, o: Observation, cancelError: string, linked: bool, now: int): Session {
    var placed := s.(jobId := OrText(s.jobId, o.jobId), node := OrText(o.node, s.node));
    if o.state == Unknown then placed
    else
      var started := if o.state == Running then OrTime(s.startedAt, now - o.elapsedSeconds * SECOND) else s.startedAt;
      var next := NextPhase(s.phase, o.state);
      var phase := if (next == Queued || next == Starting) && linked then Ready else next;
      placed.(startedAt := started, phase := phase,
              error := if s.phase == Stopping && phase == Stopping then cancelError else "")
  }

  /** The candidate one pass computes for a snapshot, before log promotion. */
  function Candidate(s: Session, a: Answer, linked: bool, now: int): Session {
    if s.launcher == Client then
      if s.phase == Stopping then s.(phase := Stopped, error := "")
      else if s.phase == Queued && s.tunnel != "" && a == Probe(true) then
        s.(phase := Ready, startedAt := OrTime(s.startedAt, now))
      else s
    else if !Reconcilable(s.phase) then s
    else match a
      case Unreachable(error) => UnreachableScheduler(s, error, now)
      case Missing(cancelError) => MissingFromScheduler(s, cancelError, now)
      case Seen(o, cancelError) => ApplyObservation(s, o, cancelError, linked, now)
      case Probe(_) => s
  }

  /** A starting run whose log has output is running. */
  function PromoteByLog(c: Session, started: bool): Session {
    if started && c.phase == Starting then c.(phase := Ready) else c
  }

  predicate SnapshotCurrent(current: Session, snapshot: Session) {
    current.updatedAt == snapshot.updatedAt && current.phase == snapshot.phase && current.jobId == snapshot.jobId
  }

  predicate SameOutcome(a: Session, b: Session) {
    a.phase == b.phase && a.error == b.error && a.jobId == b.jobId && a.node == b.node && a.startedAt == b.startedAt
  }

  predicate MergeApplies(current: Session, snapshot: Session, candidate: Session) {
    SnapshotCurrent(current, snapshot) && !SameOutcome(snapshot, candidate)
  }

  function Merge(current: Session, snapshot: Session, candidate: Session, now: int): Session {
    if MergeApplies(current, snapshot, candidate) then
      current.(phase := candidate.phase, error := candidate.error, jobId := candidate.jobId,
               node := candidate.node, startedAt := candidate.startedAt, updatedAt := now)
    else current
  }

  /**
   What every revision of a record respects: the identity of the run is kept, a settled run stays settled, and
   Submitting is never re-entered.
   */
  predicate Follows(a: Session, b: Session) {
    && a.id == b.id && a.life == b.life && a.seqNo == b.seqNo && a.owner == b.owner
    && a.launcher == b.launcher && a.spec == b.spec && a.jobName == b.jobName
    && (Settled(a.phase) ==> Settled(b.phase))
    && (b.phase == Submitting ==> a.phase == Submitting)
  }

  /** What a pass may compute from a snapshot: a revision that leaves a run that is over as it is. */
  predicate Computed(s: Session, candidate: Session) {
    Follows(s, candidate) && (Terminal(s.phase) ==> candidate == s)
  }

  lemma ObservationFollows(s: Session, o: Observation, cancelError: string, linked: bool, now: int)
    requires Reconcilable(s.phase)
    ensures Follows(s, ApplyObservation(s, o, cancelError, linked, now))
  {
  }

  /**
   What an observation leads to: a run is over exactly when the scheduler says so, it serves exactly when it is linked or
   was serving while it runs, a stop in progress stays one until then, and a job without a known state changes no phase.
   */
  lemma ObservationOutcome(s: Session, o: Observation, cancelError: string, linked: bool, now: int)
    requires Reconcilable(s.phase)
    ensures var d := ApplyObservation(s, o, cancelError, linked, now);
            var live := o.state == Pending || o.state == Running;
            && (o.state == Unknown ==> d.phase == s.phase && d.error == s.error && d.startedAt == s.startedAt)
            && (o.state != Unknown ==> (Terminal(d.phase) <==> !live) && (d.phase == Failed <==> o.state == Broken))
            && (live ==> (d.phase == Stopping <==> s.phase == Stopping))
            && (live && s.phase != Stopping ==> (d.phase == Ready <==> linked || (o.state == Running && s.phase == Ready)))
            && (d.error != "" && o.state != Unknown ==> d.phase == Stopping && d.error == cancelError)
            && (d.startedAt != s.startedAt ==> s.startedAt.None? && o.state == Running)
            && (s.jobId != "" ==> d.jobId == s.jobId)
  {
  }

  /** No answer of the scheduler, no log output and no tunnel probe revives a settled run. */
  lemma CandidateFollows(s: Session, a: Answer, linked: bool, now: int, started: bool)
    ensures Computed(s, PromoteByLog(Candidate(s, a, linked, now), started))
  {
    if a.Seen? && Reconcilable(s.phase) {
      ObservationFollows(s, a.observation, a.cancelError, linked, now);
    }
  }

  /** A submitting run becomes active, or gets a job id, only from a job that was seen. */
  lemma CandidateJob(s: Session, a: Answer, linked: bool, now: int, started: bool)
    ensures var c := PromoteByLog(Candidate(s, a, linked, now), started);
            && c.jobName == s.jobName && c.life == s.life
            && (s.phase == Submitting && Active(c.phase) ==> a.Seen?)
            && (c.phase == Submitting ==> s.phase == Submitting && (c.jobId == s.jobId || (a.Seen? && c.jobId == a.observation.jobId)))
  {
  }
}
