/**
 The session lifecycle as an interleaved protocol. Every operation of the subsystem (subsystems/session/lifecycle.go,
 reconcile.go, link.go, tunnel.go, telemetry.go) is a process that alternates short atomic cycles on the store with
 slow work on the outside world. A step advances one process; whatever the outside answers is a parameter of the step.
 A step that is not enabled leaves the world as it is, so every sequence of steps is a run.

 The clock never repeats: a step that stamps a record takes a time that was never taken before. It may run backwards.
 */
module SessionProtocol {
  import opened SessionTypes
  import opened Reconciliation
  import opened RunHistory
  import opened SessionCycles

  type Pid = nat

  datatype Proc =
    // Start and Attach, told apart by the launcher
    | Retiring(launcher: Launcher, snap: Session)              // a finished record was read; its tunnel is to be released
    | Freezing(launcher: Launcher, snap: Session)              // its run is to be frozen
    | Waiting(launcher: Launcher, snap: Session)               // waits for the launch lock
    | Preparing(launcher: Launcher, snap: Session)             // holds the launch lock from here on
    | Claimed(launcher: Launcher, snap: Session, prev: Session)
    | Issued(launcher: Launcher, prev: Session, intent: Session)  // the capability is written, the intent is not stored
    | Unissuing(intent: Session)                               // the intent was refused; the capability is to be removed
    | Submitted(intent: Session)                               // the intent is stored
    | Provisioned(intent: Session)
    | Abandoning(intent: Session)                              // conclusive failure; the capability is to be removed
    | Abandoned(intent: Session, note: string)                 // the record is to be marked
    | Returned(intent: Session, jobId: string)                 // sbatch returned a job id
    | Cancelling(intent: Session, jobId: string, superseded: bool)
    | Noting(intent: Session, jobId: string, diagnostic: string)
    // Stop
    | StopReleasing(snap: Session)
    | StopUnlinking(snap: Session, note: string)
    | StopObserving(snap: Session, note: string)
    | StopFinishing(snap: Session, cand: Session, note: string)
    // Delete
    | Deleting(snap: Session)
    // one session of a reconciliation pass
    | Watching(snap: Session)
    | Watched(snap: Session, cand: Session)
    // Link
    | Linking(snap: Session)
    | Registered(snap: Session)
    | Linked(snap: Session)

  datatype Link = Link(seqNo: nat, pid: Pid)

  /**
   The store and the processes: what the safety of the protocol rests on. `taken` are the times the clock has given,
   `stamped` those taken by a Define that has not reached its cycle yet. `hist` collects every stored version.
   */
  datatype Core = Core(sessions: map<Id, Session>, hist: set<Session>, procs: map<Pid, Proc>, stamped: set<int>, taken: set<int>, nextLife: nat)

  /**
   The rest of the world. `caps` are the capability files, `links` the link registry, `accepted` the jobs the scheduler
   took, `forgotten` those it no longer reports. Bookkeeping: `returned` jobs came back from sbatch, with the intent of
   their launch; `kept` ones were stored on a Queued record; `cancelled` ones had scancel issued; `stopFirst` ones were
   recorded when a stop of their run had already been stored; `lost` ones were carried by a process when the service died.
   */
  datatype World = World(
    core: Core, runs: seq<RunRecord>, caps: set<(Id, nat)>, links: map<Id, Link>, accepted: map<string, Job>,
    forgotten: set<string>, returned: map<string, Session>, kept: set<string>, cancelled: set<string>,
    stopFirst: set<string>, lost: set<string>)

  /** A job the scheduler took: its name, and the life of the session it was submitted for, which the scheduler ignores. */
  datatype Job = Job(name: JobName, life: nat)

  const INITIAL := World(Core(map[], {}, map[], {}, {}, 0), [], {}, map[], map[], {}, map[], {}, {}, {}, {})

  function ProcId(q: Proc): Id {
    if q.Issued? then q.prev.id
    else if q.Unissuing? || q.Submitted? || q.Provisioned? || q.Abandoning? || q.Abandoned? || q.Returned? ||
            q.Cancelling? || q.Noting? then q.intent.id
    else q.snap.id
  }

  predicate HoldsLock(q: Proc) {
    q.Preparing? || q.Claimed? || q.Issued? || q.Unissuing? || q.Submitted? || q.Provisioned? || q.Abandoning? ||
    q.Abandoned? || q.Returned? || q.Cancelling? || q.Noting?
  }

  predicate LockFree(procs: map<Pid, Proc>, id: Id) {
    forall p :: p in procs && HoldsLock(procs[p]) ==> ProcId(procs[p]) != id
  }

  // ----- the effects steps are made of

  function Put(c: Core, r: Session, now: int): Core {
    Core(c.sessions[r.id := r], c.hist + {r}, c.procs, c.stamped, c.taken + {now}, if r.life < c.nextLife then c.nextLife else r.life + 1)
  }

  function Leave(c: Core, pid: Pid): Core { c.(procs := c.procs - {pid}) }

  function Enter(c: Core, pid: Pid, q: Proc): Core { c.(procs := c.procs[pid := q]) }

  function Tick(c: Core, now: int): Core { c.(taken := c.taken + {now}) }

  /** Process `pid` stores `r` and goes on as `q`, or ends. */
  function Store(c: Core, pid: Pid, r: Session, now: int, q: Option<Proc>): Core {
    var stored := Put(Leave(c, pid), r, now);
    if q.Some? then Enter(stored, pid, q.value) else stored
  }

  function RemoveCapability(w: World, id: Id, seqNo: nat, removed: bool): World {
    if removed then w.(caps := w.caps - {(id, seqNo)}) else w
  }

  predicate LinkedNow(w: World, s: Session) { s.id in w.links && w.links[s.id].seqNo == s.seqNo }


  predicate At(w: World, pid: Pid) { pid in w.core.procs }

  // ----- Define, AdoptRuns, Delete

  /** A Define takes its stamp before its cycle. */
  function DoStamp(w: World, now: int): World {
    if now in w.core.taken then w else w.(core := Tick(w.core, now).(stamped := w.core.stamped + {now}))
  }

  function DoDefine(w: World, id: Id, principal: Principal, spec: Spec, createdAt: int, stamp: int): World {
    if stamp !in w.core.stamped then w
    else
      var c := w.core.(stamped := w.core.stamped - {stamp});
      if id in w.core.sessions then w.(core := c)
      else w.(core := Put(c, Defined(id, c.nextLife, principal, spec, createdAt, stamp), stamp))
  }

  function DoAdopt(w: World, id: Id, principal: Principal, history: seq<FinishedRun>, createdAt: Option<int>, now: int)
    : World
  {
    if now in w.core.taken || !AdoptableRuns(history) || id !in w.core.sessions || w.core.sessions[id].owner != principal ||
       w.core.sessions[id].seqNo != 0 || HasHistory(w.runs, id) then w
    else
      var r := Adopted(w.core.sessions[id], history, createdAt, now);
      w.(core := Put(w.core, r, now), runs := RecordAll(w.runs, AdoptedRuns(r, history)))
  }

  function DoDelete(w: World, pid: Pid, id: Id, principal: Principal): World {
    if At(w, pid) || id !in w.core.sessions || w.core.sessions[id].owner != principal ||
       !Terminal(w.core.sessions[id].phase) then w
    else
      w.(core := Enter(w.core.(sessions := w.core.sessions - {id}), pid, Deleting(w.core.sessions[id])))
  }

  function DoDeleteCapability(w: World, pid: Pid, removed: bool): World {
    if !At(w, pid) || !w.core.procs[pid].Deleting? then w
    else
      var s := w.core.procs[pid].snap;
      RemoveCapability(w, s.id, s.seqNo, removed).(core := Leave(w.core, pid))
  }

  // ----- Stop

  function DoStop(w: World, pid: Pid, id: Id, principal: Principal, now: int): World {
    if now in w.core.taken || At(w, pid) || id !in w.core.sessions || w.core.sessions[id].owner != principal then w
    else
      var s := w.core.sessions[id];
      if Terminal(s.phase) then w.(core := Enter(w.core, pid, StopReleasing(s)))
      else w.(core := Store(w.core, pid, StopStored(s, now), now, Some(StopReleasing(StopStored(s, now)))))
  }

  function DoStopRelease(w: World, pid: Pid, removed: bool, note: string): World {
    if !At(w, pid) || !w.core.procs[pid].StopReleasing? then w
    else
      var s := w.core.procs[pid].snap;
      RemoveCapability(w, s.id, s.seqNo, removed).(core := Enter(w.core, pid, StopUnlinking(s, note)))
  }

  function DoStopUnlink(w: World, pid: Pid): World {
    if !At(w, pid) || !w.core.procs[pid].StopUnlinking? then w
    else
      var q := w.core.procs[pid];
      w.(links := w.links - {q.snap.id}, core := Enter(w.core, pid, StopObserving(q.snap, q.note)))
  }

  /** `heard` is false when the context ended first; `started` says whether the run's log had output. */
  function CandidateOf(w: World, s: Session, a: Answer, heard: bool, started: bool, now: int): Session {
    if heard then PromoteByLog(Candidate(s, a, LinkedNow(w, s), now), started) else s
  }

  function DoStopObserve(w: World, pid: Pid, a: Answer, heard: bool, started: bool, now: int): World {
    if !At(w, pid) || !w.core.procs[pid].StopObserving? then w
    else
      var q := w.core.procs[pid];
      w.(core := Enter(w.core, pid, StopFinishing(q.snap, CandidateOf(w, q.snap, a, heard, started, now), q.note)))
  }

  /** Freezing removes the capability of a terminal record before the cycle is saved. */
  function FreezeCapability(w: World, s: Session, removed: bool): World {
    RemoveCapability(w, s.id, s.seqNo, removed && Terminal(s.phase) && s.seqNo != 0)
  }

  function DoStopFinish(w: World, pid: Pid, now: int, removed: bool, cleanup: string, trace: string, saved: bool): World {
    if now in w.core.taken || !At(w, pid) || !w.core.procs[pid].StopFinishing? then w
    else
      var q := w.core.procs[pid];
      if q.snap.id !in w.core.sessions then w.(core := Leave(w.core, pid))
      else
        var merged := StopMerged(w.core.sessions[q.snap.id], q.snap, q.cand, q.note, now);
        var cleaned := FreezeCapability(w, merged, removed);
        if !saved then cleaned.(core := Leave(w.core, pid))
        else cleaned.(core := Store(w.core, pid, Frozen(merged, removed, cleanup), now, None),
                      runs := FrozenRuns(w.runs, merged, removed, trace))
  }

  // ----- Start and Attach, up to the stored intent

  function DoRetire(w: World, pid: Pid, launcher: Launcher, id: Id, principal: Principal): World {
    if At(w, pid) || id !in w.core.sessions || w.core.sessions[id].owner != principal ||
       !Terminal(w.core.sessions[id].phase) then w
    else w.(core := Enter(w.core, pid, Retiring(launcher, w.core.sessions[id])))
  }

  function DoRetireRelease(w: World, pid: Pid, removed: bool, ok: bool): World {
    if !At(w, pid) || !w.core.procs[pid].Retiring? then w
    else
      var q := w.core.procs[pid];
      var next := if ok || q.snap.tunnel == "" then Enter(w.core, pid, Freezing(q.launcher, q.snap)) else Leave(w.core, pid);
      RemoveCapability(w, q.snap.id, q.snap.seqNo, removed && q.snap.tunnel != "").(core := next)
  }

  function DoFreezeRun(w: World, pid: Pid, removed: bool, trace: string, saved: bool): World {
    if !At(w, pid) || !w.core.procs[pid].Freezing? then w
    else
      var q := w.core.procs[pid];
      var runs := if saved then FrozenRuns(w.runs, q.snap, removed, trace) else w.runs;
      var next := if saved && !RemovalFails(q.snap, removed) then Enter(w.core, pid, Waiting(q.launcher, q.snap))
                  else Leave(w.core, pid);
      FreezeCapability(w, q.snap, removed).(core := next, runs := runs)
  }

  function DoLock(w: World, pid: Pid): World {
    if !At(w, pid) || !w.core.procs[pid].Waiting? || !LockFree(w.core.procs, w.core.procs[pid].snap.id) then w
    else w.(core := Enter(w.core, pid, Preparing(w.core.procs[pid].launcher, w.core.procs[pid].snap)))
  }

  function DoClaim(w: World, pid: Pid): World {
    if !At(w, pid) || !w.core.procs[pid].Preparing? then w
    else
      var q := w.core.procs[pid];
      if q.snap.id in w.core.sessions && w.core.sessions[q.snap.id].owner == q.snap.owner &&
         Terminal(w.core.sessions[q.snap.id].phase) then
        w.(core := Enter(w.core, pid, Claimed(q.launcher, q.snap, w.core.sessions[q.snap.id])))
      else w.(core := Leave(w.core, pid))
  }

  /** The stamp is taken first; `written` says whether the capability reached the disk, `ok` whether issuing succeeded. */
  function DoIssue(w: World, pid: Pid, modes: seq<string>, tunnel: string, stamp: int, written: bool, ok: bool): World {
    if stamp in w.core.taken || !At(w, pid) || !w.core.procs[pid].Claimed? then w
    else
      var q := w.core.procs[pid];
      var spec := if q.launcher == Client then q.snap.spec.(tunnelModes := modes) else q.snap.spec;
      var intent := Intent(q.launcher, spec, q.prev, tunnel, stamp);
      var next := if written && ok then Issued(q.launcher, q.prev, intent) else Unissuing(intent);
      w.(caps := if written then w.caps + {(intent.id, intent.seqNo)} else w.caps,
         core := Enter(Tick(w.core, stamp), pid, next))
  }

  function DoPersist(w: World, pid: Pid, saved: bool): World {
    if !At(w, pid) || !w.core.procs[pid].Issued? then w
    else
      var q := w.core.procs[pid];
      if saved && q.prev.id in w.core.sessions && IntentApplies(w.core.sessions[q.prev.id], q.prev) then
        w.(core := Store(w.core, pid, q.intent, q.intent.updatedAt,
                         if q.launcher == Plane then Some(Submitted(q.intent)) else None))
      else w.(core := Enter(w.core, pid, Unissuing(q.intent)))
  }

  function DoUnissue(w: World, pid: Pid, removed: bool): World {
    if !At(w, pid) || !w.core.procs[pid].Unissuing? then w
    else
      var intent := w.core.procs[pid].intent;
      RemoveCapability(w, intent.id, intent.seqNo, removed).(core := Leave(w.core, pid))
  }

  // ----- Start, from the stored intent

  datatype Submission = Accepted(jobId: string) | Refused | AmbiguousTaken(jobId: string) | AmbiguousLost

  function DoProvision(w: World, pid: Pid, ok: bool): World {
    if !At(w, pid) || !w.core.procs[pid].Submitted? then w
    else
      var intent := w.core.procs[pid].intent;
      w.(core := Enter(w.core, pid, if ok then Provisioned(intent) else Abandoning(intent)))
  }

  function DoSubmit(w: World, pid: Pid, outcome: Submission): World {
    if !At(w, pid) || !w.core.procs[pid].Provisioned? then w
    else
      var intent := w.core.procs[pid].intent;
      match outcome
      case Accepted(jobId) =>
        if jobId == "" || jobId in w.accepted then w
        else w.(accepted := w.accepted[jobId := Job(intent.jobName, intent.life)], returned := w.returned[jobId := intent],
                core := Enter(w.core, pid, Returned(intent, jobId)))
      case Refused => w.(core := Enter(w.core, pid, Abandoning(intent)))
      case AmbiguousTaken(jobId) =>
        if jobId == "" || jobId in w.accepted then w
        else w.(accepted := w.accepted[jobId := Job(intent.jobName, intent.life)], core := Leave(w.core, pid))
      case AmbiguousLost => w.(core := Leave(w.core, pid))
  }

  function DoAbandonRelease(w: World, pid: Pid, removed: bool, note: string): World {
    if !At(w, pid) || !w.core.procs[pid].Abandoning? then w
    else
      var intent := w.core.procs[pid].intent;
      RemoveCapability(w, intent.id, intent.seqNo, removed).(core := Enter(w.core, pid, Abandoned(intent, note)))
  }

  function DoAbandon(w: World, pid: Pid, now: int, saved: bool): World {
    if now in w.core.taken || !At(w, pid) || !w.core.procs[pid].Abandoned? then w
    else
      var q := w.core.procs[pid];
      if saved && q.intent.id in w.core.sessions && AbandonApplies(w.core.sessions[q.intent.id], q.intent) then
        w.(core := Store(w.core, pid, AbandonedIntent(w.core.sessions[q.intent.id], q.note, now), now, None))
      else w.(core := Leave(w.core, pid))
  }

  /** A version of this very run was stored as stopping or over. */
  predicate StopWasStored(hist: set<Session>, intent: Session) {
    exists v :: v in hist && v.id == intent.id && v.life == intent.life && v.seqNo == intent.seqNo && Settled(v.phase)
  }

  function DoRecord(w: World, pid: Pid, now: int, saved: bool): World {
    if now in w.core.taken || !At(w, pid) || !w.core.procs[pid].Returned? then w
    else
      var q := w.core.procs[pid];
      var noted := if StopWasStored(w.core.hist, q.intent) then w.(stopFirst := w.stopFirst + {q.jobId}) else w;
      if saved && q.intent.id in w.core.sessions then
        var r := SubmittedJob(w.core.sessions[q.intent.id], q.jobId, now);
        if Superseded(r) then
          noted.(core := Store(w.core, pid, r, now, Some(Cancelling(q.intent, q.jobId, true))))
        else
          noted.(core := Store(w.core, pid, r, now, None), kept := w.kept + {q.jobId})
      else noted.(core := Enter(w.core, pid, Cancelling(q.intent, q.jobId, false)))
  }

  function DoScancel(w: World, pid: Pid, diagnostic: string): World {
    if !At(w, pid) || !w.core.procs[pid].Cancelling? then w
    else
      var q := w.core.procs[pid];
      w.(cancelled := w.cancelled + {q.jobId},
         core := if q.superseded then Enter(w.core, pid, Noting(q.intent, q.jobId, diagnostic)) else Leave(w.core, pid))
  }

  function DoNote(w: World, pid: Pid, now: int, saved: bool): World {
    if now in w.core.taken || !At(w, pid) || !w.core.procs[pid].Noting? then w
    else
      var q := w.core.procs[pid];
      if saved && q.intent.id in w.core.sessions && CancelNoteApplies(w.core.sessions[q.intent.id], q.jobId) then
        w.(core := Store(w.core, pid, CancelNoted(w.core.sessions[q.intent.id], q.diagnostic, now), now, None))
      else w.(core := Leave(w.core, pid))
  }

  // ----- reconciliation and links

  function DoWatch(w: World, pid: Pid, id: Id): World {
    if At(w, pid) || id !in w.core.sessions then w
    else w.(core := Enter(w.core, pid, Watching(w.core.sessions[id])))
  }

  function DoObserve(w: World, pid: Pid, a: Answer, heard: bool, started: bool, now: int): World {
    if !At(w, pid) || !w.core.procs[pid].Watching? then w
    else
      var s := w.core.procs[pid].snap;
      w.(core := Enter(w.core, pid, Watched(s, CandidateOf(w, s, a, heard, started, now))))
  }

  function DoMerge(w: World, pid: Pid, now: int, removed: bool, fault: string, trace: string, saved: bool): World {
    if now in w.core.taken || !At(w, pid) || !w.core.procs[pid].Watched? then w
    else
      var q := w.core.procs[pid];
      if q.snap.id !in w.core.sessions || !MergeApplies(w.core.sessions[q.snap.id], q.snap, q.cand) then
        w.(core := Leave(w.core, pid))
      else
        var merged := Merge(w.core.sessions[q.snap.id], q.snap, q.cand, now);
        var cleaned := FreezeCapability(w, merged, removed);
        if !saved then cleaned.(core := Leave(w.core, pid))
        else cleaned.(core := Store(w.core, pid, Frozen(merged, removed, fault), now, None),
                      runs := FrozenRuns(w.runs, merged, removed, trace))
  }

  /** Linkspan presented a link token and the record read was not over. */
  function DoLink(w: World, pid: Pid, id: Id): World {
    if At(w, pid) || id !in w.core.sessions || Terminal(w.core.sessions[id].phase) then w
    else w.(core := Enter(w.core, pid, Linking(w.core.sessions[id])))
  }

  function DoRegister(w: World, pid: Pid): World {
    if !At(w, pid) || !w.core.procs[pid].Linking? then w
    else
      var s := w.core.procs[pid].snap;
      w.(links := w.links[s.id := Link(s.seqNo, pid)], core := Enter(w.core, pid, Registered(s)))
  }

  function DoLinkReady(w: World, pid: Pid, now: int, saved: bool): World {
    if now in w.core.taken || !At(w, pid) || !w.core.procs[pid].Registered? then w
    else
      var s := w.core.procs[pid].snap;
      if saved && s.id in w.core.sessions && LinkApplies(w.core.sessions[s.id], s.seqNo) then
        w.(core := Store(w.core, pid, LinkedReady(w.core.sessions[s.id], now), now, Some(Linked(s))))
      else w.(core := Enter(w.core, pid, Linked(s)))
  }

  function DoLinkClosed(w: World, pid: Pid): World {
    if !At(w, pid) || !w.core.procs[pid].Linked? then w
    else
      var s := w.core.procs[pid].snap;
      w.(links := if s.id in w.links && w.links[s.id].pid == pid then w.links - {s.id} else w.links,
         core := Leave(w.core, pid))
  }

  // ----- the remaining steps

  /** An operation fails before its next effect and ends. */
  function DoGiveUp(w: World, pid: Pid): World {
    if !At(w, pid) then w
    else
      var q := w.core.procs[pid];
      if q.Retiring? || q.Freezing? || q.Waiting? || q.Preparing? || q.Claimed? || q.Watching? || q.Watched? || q.Linking?
      then w.(core := Leave(w.core, pid)) else w
  }

  function DoAttachStats(w: World, id: Id, seqNo: nat, stats: RunStats): World {
    w.(runs := AttachStats(w.runs, id, seqNo, stats))
  }

  /** The service dies: what was in flight is lost, locks are released, the store and the files stay. */
  function DoRestart(w: World): World {
    w.(core := w.core.(procs := map[], stamped := {}), links := map[], lost := w.lost + CarriedJobs(w.core))
  }

  predicate CarriesJob(q: Proc) { q.Returned? || q.Cancelling? }

  /** The job ids that only a process knows. */
  function CarriedJobs(c: Core): set<string> { set p | p in c.procs && CarriesJob(c.procs[p]) :: c.procs[p].jobId }

  /** The scheduler drops a job from its listings. */
  function DoForget(w: World, jobId: string): World { w.(forgotten := w.forgotten + {jobId}) }

  /** Define, AdoptRuns, Delete and the late statistics of a run. */
  datatype RecordStep =
    | Stamp(now: int)
    | Define(id: Id, principal: Principal, spec: Spec, createdAt: int, stamp: int)
    | Adopt(id: Id, principal: Principal, history: seq<FinishedRun>, born: Option<int>, now: int)
    | Delete(pid: Pid, id: Id, principal: Principal)
    | DeleteCapability(pid: Pid, removed: bool)
    | Stats(id: Id, seqNo: nat, stats: RunStats)

  function ApplyRecord(w: World, step: RecordStep): World {
    match step
    case Stamp(now) => DoStamp(w, now)
    case Define(id, principal, spec, createdAt, stamp) => DoDefine(w, id, principal, spec, createdAt, stamp)
    case Adopt(id, principal, history, born, now) => DoAdopt(w, id, principal, history, born, now)
    case Delete(pid, id, principal) => DoDelete(w, pid, id, principal)
    case DeleteCapability(pid, removed) => DoDeleteCapability(w, pid, removed)
    case Stats(id, seqNo, stats) => DoAttachStats(w, id, seqNo, stats)
  }

  datatype StopStep =
    | Stop(pid: Pid, id: Id, principal: Principal, now: int)
    | StopRelease(pid: Pid, removed: bool, note: string)
    | StopUnlink(pid: Pid)
    | StopObserve(pid: Pid, answer: Answer, heard: bool, started: bool, now: int)
    | StopFinish(pid: Pid, now: int, removed: bool, note: string, trace: string, saved: bool)

  function ApplyStop(w: World, step: StopStep): World {
    match step
    case Stop(pid, id, principal, now) => DoStop(w, pid, id, principal, now)
    case StopRelease(pid, removed, note) => DoStopRelease(w, pid, removed, note)
    case StopUnlink(pid) => DoStopUnlink(w, pid)
    case StopObserve(pid, a, heard, started, now) => DoStopObserve(w, pid, a, heard, started, now)
    case StopFinish(pid, now, removed, note, trace, saved) => DoStopFinish(w, pid, now, removed, note, trace, saved)
  }

  /** Start and Attach, up to the stored intent. */
  datatype ClaimStep =
    | Retire(pid: Pid, launcher: Launcher, id: Id, principal: Principal)
    | RetireRelease(pid: Pid, removed: bool, ok: bool)
    | FreezeRun(pid: Pid, removed: bool, trace: string, saved: bool)
    | Lock(pid: Pid)
    | Claim(pid: Pid)
    | Issue(pid: Pid, modes: seq<string>, tunnel: string, now: int, written: bool, ok: bool)
    | Persist(pid: Pid, saved: bool)
    | Unissue(pid: Pid, removed: bool)

  function ApplyClaim(w: World, step: ClaimStep): World {
    match step
    case Retire(pid, launcher, id, principal) => DoRetire(w, pid, launcher, id, principal)
    case RetireRelease(pid, removed, ok) => DoRetireRelease(w, pid, removed, ok)
    case FreezeRun(pid, removed, trace, saved) => DoFreezeRun(w, pid, removed, trace, saved)
    case Lock(pid) => DoLock(w, pid)
    case Claim(pid) => DoClaim(w, pid)
    case Issue(pid, modes, tunnel, now, written, ok) => DoIssue(w, pid, modes, tunnel, now, written, ok)
    case Persist(pid, saved) => DoPersist(w, pid, saved)
    case Unissue(pid, removed) => DoUnissue(w, pid, removed)
  }

  /** Start, from the stored intent. */
  datatype SubmitStep =
    | Provision(pid: Pid, ok: bool)
    | Submit(pid: Pid, outcome: Submission)
    | AbandonRelease(pid: Pid, removed: bool, note: string)
    | Abandon(pid: Pid, now: int, saved: bool)
    | Record(pid: Pid, now: int, saved: bool)
    | Scancel(pid: Pid, note: string)
    | Note(pid: Pid, now: int, saved: bool)

  function ApplySubmit(w: World, step: SubmitStep): World {
    match step
    case Provision(pid, ok) => DoProvision(w, pid, ok)
    case Submit(pid, outcome) => DoSubmit(w, pid, outcome)
    case AbandonRelease(pid, removed, note) => DoAbandonRelease(w, pid, removed, note)
    case Abandon(pid, now, saved) => DoAbandon(w, pid, now, saved)
    case Record(pid, now, saved) => DoRecord(w, pid, now, saved)
    case Scancel(pid, note) => DoScancel(w, pid, note)
    case Note(pid, now, saved) => DoNote(w, pid, now, saved)
  }

  /** One session of a reconciliation pass. */
  datatype WatchStep =
    | Watch(pid: Pid, id: Id)
    | Observe(pid: Pid, answer: Answer, heard: bool, started: bool, now: int)
    | MergeWatched(pid: Pid, now: int, removed: bool, note: string, trace: string, saved: bool)

  function ApplyWatch(w: World, step: WatchStep): World {
    match step
    case Watch(pid, id) => DoWatch(w, pid, id)
    case Observe(pid, a, heard, started, now) => DoObserve(w, pid, a, heard, started, now)
    case MergeWatched(pid, now, removed, note, trace, saved) => DoMerge(w, pid, now, removed, note, trace, saved)
  }

  datatype LinkStep =
    | OpenLink(pid: Pid, id: Id)
    | Register(pid: Pid)
    | LinkReady(pid: Pid, now: int, saved: bool)
    | LinkClosed(pid: Pid)

  function ApplyLink(w: World, step: LinkStep): World {
    match step
    case OpenLink(pid, id) => DoLink(w, pid, id)
    case Register(pid) => DoRegister(w, pid)
    case LinkReady(pid, now, saved) => DoLinkReady(w, pid, now, saved)
    case LinkClosed(pid) => DoLinkClosed(w, pid)
  }

  datatype Step =
    | OnRecord(record: RecordStep)
    | OnStop(stop: StopStep)
    | OnClaim(claim: ClaimStep)
    | OnSubmit(submit: SubmitStep)
    | OnWatch(watch: WatchStep)
    | OnLink(link: LinkStep)
    | GiveUp(pid: Pid)
    | Forget(jobId: string)
    | Restart

  function Apply(w: World, step: Step): World {
    match step
    case OnRecord(s) => ApplyRecord(w, s)
    case OnStop(s) => ApplyStop(w, s)
    case OnClaim(s) => ApplyClaim(w, s)
    case OnSubmit(s) => ApplySubmit(w, s)
    case OnWatch(s) => ApplyWatch(w, s)
    case OnLink(s) => ApplyLink(w, s)
    case GiveUp(pid) => DoGiveUp(w, pid)
    case Forget(jobId) => DoForget(w, jobId)
    case Restart => DoRestart(w)
  }

  /** The world after a run. */
  function Run(steps: seq<Step>): World {
    if steps == [] then INITIAL else Apply(Run(steps[..|steps| - 1]), steps[|steps| - 1])
  }
}
