/**
 Control masters (internal/ssh/control.go): interactive attempts, the masters they leave behind, and the shutdown, as
 steps of a transition system. Each section under the manager's mutex is one step; locks are file locks the operating
 system grants to at most one descriptor per path; processes run until they exit or are reaped.
 */
module ControlMaster {
  import opened SessionTypes

  type Path = string
  type AttemptId = nat

  /** A file lock is held through one of our descriptors or by someone else on the machine. */
  datatype Token = Ours(fd: nat) | Theirs

  /** What a variable of the program refers to: a lock descriptor and a process, if any. */
  datatype Hold = Hold(lock: Option<nat>, proc: Option<nat>)

  const NOTHING := Hold(None, None)

  datatype Stage =
    | Admitted
    | Reclaiming(victim: Hold)   // took an expired master out of `owned`; it is to be closed
    | Acquiring
    | Locked
    | Running
    | Reaping                    // failed: the process is to be reaped
    | Unlocking                  // then the lock is to be released
    | Retiring                   // `finish` is to remove the attempt from `active`
    | Releasing                  // `finish` is to release what lock is left
    | Ending                     // `finish` is to count the attempt off

  datatype Attempt = Attempt(path: Path, alias: string, config: string, stage: Stage, hold: Hold)

  datatype Master = Master(alias: string, hold: Hold)

  /** The call of Close that set the flag: it waits for the attempts, then closes the masters it took, then returns. */
  datatype Closer = Open | Waiting | Sweeping(masters: map<Path, Master>) | Returned

  /** `pending` calls passed the first check of `admit` and resolve their path. `wg` is the wait group's counter. */
  datatype World = World(
    closed: bool, active: map<Path, AttemptId>, owned: map<Path, Master>, wg: int,
    attempts: map<AttemptId, Attempt>, pending: map<AttemptId, (string, string)>, closer: Closer,
    flocks: map<Path, Token>, procs: set<nat>, nextFd: nat, nextProc: nat, nextAttempt: nat)

  const INITIAL := World(false, map[], map[], 0, map[], map[], Open, map[], {}, 0, 0, 0)

  // ----- helpers

  function SetAttempt(w: World, id: AttemptId, a: Attempt): World { w.(attempts := w.attempts[id := a]) }

  function GoTo(w: World, id: AttemptId, stage: Stage): World
    requires id in w.attempts
  {
    SetAttempt(w, id, w.attempts[id].(stage := stage))
  }

  predicate At(w: World, id: AttemptId, stage: Stage) { id in w.attempts && w.attempts[id].stage == stage }

  /** Closing a descriptor releases the lock only if it is the one that holds it. */
  function Unlock(flocks: map<Path, Token>, path: Path, lock: Option<nat>): map<Path, Token> {
    if lock.Some? && path in flocks && flocks[path] == Ours(lock.value) then flocks - {path} else flocks
  }

  /** Kills a process, if it still runs, and waits for it. */
  function Reap(procs: set<nat>, proc: Option<nat>): set<nat> { if proc.Some? then procs - {proc.value} else procs }

  // ----- admit

  predicate Busy(w: World, alias: string, config: string) {
    exists p :: p in w.active && w.active[p] in w.attempts &&
                w.attempts[w.active[p]].alias == alias && w.attempts[w.active[p]].config == config
  }

  function DoCheck(w: World, alias: string, config: string): World {
    if w.closed || Busy(w, alias, config) then w
    else w.(pending := w.pending[w.nextAttempt := (alias, config)], nextAttempt := w.nextAttempt + 1)
  }

  /** The path is resolved; the second check may still refuse. */
  function DoAdmit(w: World, id: AttemptId, path: Path): World {
    if id !in w.pending then w
    else
      var checked := w.(pending := w.pending - {id});
      if w.closed || path in w.active then checked
      else checked.(active := w.active[path := id], wg := w.wg + 1,
                    attempts := w.attempts[id := Attempt(path, w.pending[id].0, w.pending[id].1, Admitted, NOTHING)])
  }

  // ----- preparing the command

  /** Where reclaimExpiredOwned leads; `healthy` is the answer of the master's control socket. */
  function AfterReclaim(w: World, a: Attempt, healthy: bool): Stage {
    if a.path !in w.owned then Acquiring
    else
      var master := w.owned[a.path];
      if master.alias != a.alias then Reaping
      else if (master.hold.proc.None? || master.hold.proc.value in w.procs) && healthy then Retiring
      else Reclaiming(master.hold)
  }

  /** reclaimExpiredOwned under the mutex: an expired master leaves `owned`. */
  function DoReclaim(w: World, id: AttemptId, healthy: bool): World {
    if !At(w, id, Admitted) then w
    else
      var stage := AfterReclaim(w, w.attempts[id], healthy);
      GoTo(if stage.Reclaiming? then w.(owned := w.owned - {w.attempts[id].path}) else w, id, stage)
  }

  /** The expired master is closed: reaped, then unlocked. */
  function DoCloseExpired(w: World, id: AttemptId): World {
    if id !in w.attempts || !w.attempts[id].stage.Reclaiming? then w
    else
      var a := w.attempts[id];
      var victim := a.stage.victim;
      GoTo(w, id, Acquiring).(flocks := Unlock(w.flocks, a.path, victim.lock), procs := Reap(w.procs, victim.proc))
  }

  /** One round of acquireControlLock. `healthy` also covers a master of another process. */
  function DoAcquire(w: World, id: AttemptId, healthy: bool): World {
    if !At(w, id, Acquiring) then w
    else
      var a := w.attempts[id];
      if a.path in w.flocks then (if healthy then GoTo(w, id, Retiring) else w)
      else
        SetAttempt(w, id, a.(stage := if healthy then Retiring else Locked, hold := a.hold.(lock := Some(w.nextFd))))
          .(flocks := w.flocks[a.path := Ours(w.nextFd)], nextFd := w.nextFd + 1)
  }

  function DoStart(w: World, id: AttemptId): World {
    if !At(w, id, Locked) then w
    else
      var a := w.attempts[id];
      SetAttempt(w, id, a.(stage := Running, hold := a.hold.(proc := Some(w.nextProc))))
        .(procs := w.procs + {w.nextProc}, nextProc := w.nextProc + 1)
  }

  /** Whatever goes wrong on the way: the upgrade, the lock, the command, the client, the process, the context. */
  function DoFail(w: World, id: AttemptId): World {
    if id !in w.attempts then w
    else
      var stage := w.attempts[id].stage;
      if stage.Admitted? || stage.Acquiring? || stage.Locked? || stage.Running? then GoTo(w, id, Reaping) else w
  }

  // ----- the end of an attempt

  /** finish(attempt, true): the master is handed over, unless the manager is closed. */
  function DoOwn(w: World, id: AttemptId): World {
    if !At(w, id, Running) then w
    else
      var a := w.attempts[id];
      if w.closed || a.hold.proc.None? then GoTo(w, id, Reaping)
      else
        SetAttempt(w, id, a.(stage := Ending, hold := NOTHING))
          .(active := if a.path in w.active && w.active[a.path] == id then w.active - {a.path} else w.active,
            owned := w.owned[a.path := Master(a.alias, a.hold)])
  }

  function DoReap(w: World, id: AttemptId): World {
    if !At(w, id, Reaping) then w
    else
      var a := w.attempts[id];
      SetAttempt(w, id, a.(stage := Unlocking, hold := a.hold.(proc := None))).(procs := Reap(w.procs, a.hold.proc))
  }

  function DoUnlock(w: World, id: AttemptId): World {
    if !At(w, id, Unlocking) then w
    else
      var a := w.attempts[id];
      SetAttempt(w, id, a.(stage := Retiring, hold := a.hold.(lock := None))).(flocks := Unlock(w.flocks, a.path, a.hold.lock))
  }

  /** finish(attempt, false), under the mutex. */
  function DoRetire(w: World, id: AttemptId): World {
    if !At(w, id, Retiring) then w
    else
      var a := w.attempts[id];
      GoTo(w, id, Releasing)
        .(active := if a.path in w.active && w.active[a.path] == id then w.active - {a.path} else w.active)
  }

  function DoRelease(w: World, id: AttemptId): World {
    if !At(w, id, Releasing) then w
    else
      var a := w.attempts[id];
      SetAttempt(w, id, a.(stage := Ending, hold := a.hold.(lock := None))).(flocks := Unlock(w.flocks, a.path, a.hold.lock))
  }

  function DoEnd(w: World, id: AttemptId): World {
    if !At(w, id, Ending) then w else w.(attempts := w.attempts - {id}, wg := w.wg - 1)
  }

  // ----- Close

  function DoClose(w: World): World { if w.closed then w else w.(closed := true, closer := Waiting) }

  function DoSweep(w: World): World {
    if w.closer != Waiting || w.wg != 0 then w else w.(closer := Sweeping(w.owned), owned := map[])
  }

  function DoCloseMaster(w: World, path: Path): World {
    if !w.closer.Sweeping? || path !in w.closer.masters then w
    else
      var hold := w.closer.masters[path].hold;
      w.(closer := Sweeping(w.closer.masters - {path}),
         flocks := Unlock(w.flocks, path, hold.lock), procs := Reap(w.procs, hold.proc))
  }

  function DoReturn(w: World): World { if w.closer == Sweeping(map[]) then w.(closer := Returned) else w }

  // ----- the environment

  function DoExit(w: World, proc: nat): World { w.(procs := w.procs - {proc}) }

  function DoForeignLock(w: World, path: Path): World {
    if path in w.flocks then w else w.(flocks := w.flocks[path := Theirs])
  }

  function DoForeignUnlock(w: World, path: Path): World {
    if path in w.flocks && w.flocks[path].Theirs? then w.(flocks := w.flocks - {path}) else w
  }

  /** The steps of an admitted attempt. */
  datatype AttemptStep =
    | Reclaim(healthy: bool)
    | CloseExpired
    | Acquire(healthy: bool)
    | Start
    | Fail
    | Own
    | ReapFailed
    | UnlockFailed
    | Retire
    | Release
    | End

  function ApplyAttempt(w: World, id: AttemptId, step: AttemptStep): World {
    match step
    case Reclaim(healthy) => DoReclaim(w, id, healthy)
    case CloseExpired => DoCloseExpired(w, id)
    case Acquire(healthy) => DoAcquire(w, id, healthy)
    case Start => DoStart(w, id)
    case Fail => DoFail(w, id)
    case Own => DoOwn(w, id)
    case ReapFailed => DoReap(w, id)
    case UnlockFailed => DoUnlock(w, id)
    case Retire => DoRetire(w, id)
    case Release => DoRelease(w, id)
    case End => DoEnd(w, id)
  }

  datatype Step =
    | Check(alias: string, config: string)
    | Admit(id: AttemptId, path: Path)
    | OnAttempt(id: AttemptId, step: AttemptStep)
    | Close
    | Sweep
    | CloseMaster(path: Path)
    | Return
    | Exit(proc: nat)
    | ForeignLock(path: Path)
    | ForeignUnlock(path: Path)

  function Apply(w: World, step: Step): World {
    match step
    case Check(alias, config) => DoCheck(w, alias, config)
    case Admit(id, path) => DoAdmit(w, id, path)
    case OnAttempt(id, s) => ApplyAttempt(w, id, s)
    case Close => DoClose(w)
    case Sweep => DoSweep(w)
    case CloseMaster(path) => DoCloseMaster(w, path)
    case Return => DoReturn(w)
    case Exit(proc) => DoExit(w, proc)
    case ForeignLock(path) => DoForeignLock(w, path)
    case ForeignUnlock(path) => DoForeignUnlock(w, path)
  }

  function Run(steps: seq<Step>): World {
    if steps == [] then INITIAL else Apply(Run(steps[..|steps| - 1]), steps[|steps| - 1])
  }
}
