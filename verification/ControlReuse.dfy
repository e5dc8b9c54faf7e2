/**
 Which control masters are reused, which are closed and when a process is started (internal/ssh/control.go), over every
 run of the control manager.
 */
module ControlReuse {
  import opened SessionTypes
  import opened ControlMaster
  import opened ControlSafety

  predicate Runs(w: World, m: Master) { m.hold.proc.Some? && m.hold.proc.value in w.procs }

  /** A new attempt for the same alias finds that the master of the path has exited or does not answer. */
  predicate Expires(w: World, step: Step, path: Path) {
    && step.OnAttempt? && step.step.Reclaim? && At(w, step.id, Admitted) && path in w.owned
    && w.attempts[step.id].path == path && w.attempts[step.id].alias == w.owned[path].alias
    && !(Runs(w, w.owned[path]) && step.step.healthy)
  }

  /** The closing call sweeps, once every attempt was counted off. */
  predicate Sweeps(w: World, step: Step) { step.Sweep? && w.closer == Waiting && w.wg == 0 }

  lemma AttemptsTakeOut(w: World, id: AttemptId, step: AttemptStep, path: Path)
    requires path in w.owned && w.owned[path].hold.proc.Some?
    ensures path !in ApplyAttempt(w, id, step).owned <==> Expires(w, OnAttempt(id, step), path)
  {
    if step.Reclaim? && At(w, id, Admitted) && w.attempts[id].path == path {
      if w.attempts[id].alias != w.owned[path].alias {} else if Runs(w, w.owned[path]) && step.healthy {} else {}
    }
  }

  /** An owned master is taken out by exactly these two: the sweep, or an attempt of its alias that finds it expired. */
  lemma MastersLeaveExactly(steps: seq<Step>, step: Step, path: Path)
    requires path in Run(steps).owned
    ensures path !in Run(steps + [step]).owned <==> Sweeps(Run(steps), step) || Expires(Run(steps), step, path)
  {
    RunKeeps(steps);
    assert (steps + [step])[..|steps|] == steps;
    if step.OnAttempt? { AttemptsTakeOut(Run(steps), step.id, step.step, path); }
  }

  /** Where a new attempt goes: it reuses a live master of its alias, fails on another alias, or closes an expired one. */
  lemma ReclaimLeadsTo(steps: seq<Step>, id: AttemptId, healthy: bool)
    requires At(Run(steps), id, Admitted)
    ensures var w, d := Run(steps), Run(steps + [OnAttempt(id, Reclaim(healthy))]);
            var a := w.attempts[id];
            && d.procs == w.procs && d.flocks == w.flocks
            && (a.path !in w.owned ==> d.owned == w.owned && At(d, id, Acquiring))
            && (a.path in w.owned && w.owned[a.path].alias != a.alias ==> d.owned == w.owned && At(d, id, Reaping))
            && (a.path in w.owned && w.owned[a.path].alias == a.alias ==>
                  if Runs(w, w.owned[a.path]) && healthy then d.owned == w.owned && At(d, id, Retiring)
                  else d.owned == w.owned - {a.path} && At(d, id, Reclaiming(w.owned[a.path].hold)))
  {
    RunKeeps(steps);
    assert (steps + [OnAttempt(id, Reclaim(healthy))])[..|steps|] == steps;
  }

  /** Closing an expired master ends its process and frees the lock of the path, and touches no other. */
  lemma ExpiredIsClosed(steps: seq<Step>, id: AttemptId)
    requires id in Run(steps).attempts && Run(steps).attempts[id].stage.Reclaiming?
    ensures var w, d := Run(steps), Run(steps + [OnAttempt(id, CloseExpired)]);
            var a := w.attempts[id];
            && At(d, id, Acquiring) && d.owned == w.owned
            && d.procs == (if a.stage.victim.proc.Some? then w.procs - {a.stage.victim.proc.value} else w.procs)
            && (a.stage.victim.lock.Some? ==> d.flocks == w.flocks - {a.path})
  {
    RunKeeps(steps);
    assert (steps + [OnAttempt(id, CloseExpired)])[..|steps|] == steps;
    assert LockReal(Run(steps), OfVictim(id));
  }

  /** While a master is owned, its lock is held, and its process runs until it exits by itself. */
  lemma OwnedMasterRunsOn(steps: seq<Step>, step: Step, path: Path)
    requires path in Run(steps).owned && path in Run(steps + [step]).owned
    ensures var w, d := Run(steps), Run(steps + [step]);
            && (Runs(w, w.owned[path]) ==> Runs(d, d.owned[path]) || step == Exit(w.owned[path].hold.proc.value))
            && w.owned[path].hold.lock.Some? && path in d.flocks && d.flocks[path] == Ours(w.owned[path].hold.lock.value)
  {
    assert (steps + [step])[..|steps|] == steps;
    RunKeeps(steps);
    RunKeeps(steps + [step]);
    OwnedIsNeverOverwritten(steps, step, path);
    assert LockReal(Run(steps + [step]), OfMaster(path));
    if Runs(Run(steps), Run(steps).owned[path]) { ReapsOwn(Run(steps), step, path); }
  }

  /** A step of an attempt ends no process but the one it refers to. */
  lemma AttemptsReapOwn(w: World, id: AttemptId, step: AttemptStep, proc: nat)
    requires proc in w.procs && HeldBy(w, OfAttempt(id)).hold.proc != Some(proc) && HeldBy(w, OfVictim(id)).hold.proc != Some(proc)
    ensures proc in ApplyAttempt(w, id, step).procs
  {
  }

  /** No variable but its own refers to the process of a master. */
  lemma ReapsOwn(w: World, step: Step, path: Path)
    requires Linear(w) && path in w.owned && Runs(w, w.owned[path])
    ensures w.owned[path].hold.proc.value in Apply(w, step).procs || step == Exit(w.owned[path].hold.proc.value)
  {
    var proc := w.owned[path].hold.proc.value;
    assert HeldBy(w, OfMaster(path)).hold.proc == Some(proc);
    match step
    case OnAttempt(id, s) =>
      assert Apart(HeldBy(w, OfMaster(path)).hold, HeldBy(w, OfAttempt(id)).hold);
      assert Apart(HeldBy(w, OfMaster(path)).hold, HeldBy(w, OfVictim(id)).hold);
      AttemptsReapOwn(w, id, s, proc);
    case CloseMaster(other) => assert Apart(HeldBy(w, OfMaster(path)).hold, HeldBy(w, OfSwept(other)).hold);
    case Exit(p) =>
    case _ => assert Apply(w, step).procs == w.procs;
  }

  // ----- starting a process

  /** One round for the lock: a healthy answer ends the attempt, an unhealthy one takes the lock when it is free. */
  lemma AcquireLeadsTo(steps: seq<Step>, id: AttemptId, healthy: bool)
    requires At(Run(steps), id, Acquiring)
    ensures var w, d := Run(steps), Run(steps + [OnAttempt(id, Acquire(healthy))]);
            var path := w.attempts[id].path;
            && d.procs == w.procs && d.owned == w.owned
            && (healthy ==> At(d, id, Retiring))
            && (!healthy && path in w.flocks ==> d == w)
            && (!healthy && path !in w.flocks ==> At(d, id, Locked) && path in d.flocks && d.flocks[path].Ours?)
  {
    assert (steps + [OnAttempt(id, Acquire(healthy))])[..|steps|] == steps;
  }

  predicate Over(stage: Stage) { stage.Reaping? || stage.Unlocking? || stage.Retiring? || stage.Releasing? || stage.Ending? }

  predicate Done(w: World, id: AttemptId) {
    if id in w.attempts then Over(w.attempts[id].stage) else id !in w.pending && id < w.nextAttempt
  }

  lemma OtherAttempts(w: World, id: AttemptId, step: AttemptStep, other: AttemptId)
    requires other != id && other in w.attempts
    ensures var d := ApplyAttempt(w, id, step); other in d.attempts && d.attempts[other] == w.attempts[other]
  {
  }

  lemma DoneStays(w: World, step: Step, id: AttemptId)
    requires Done(w, id) && (id in w.attempts ==> id !in w.pending && id < w.nextAttempt)
    ensures Done(Apply(w, step), id)
  {
    match step
    case OnAttempt(other, s) =>
      if id !in w.attempts {
        AttemptsStay(w, other, s, id);
      } else if other == id {
        OverStepStays(w, id, s);
      } else {
        OtherAttempts(w, other, s, id);
      }
    case Check(_, _) =>
    case Admit(other, path) =>
    case _ => assert Apply(w, step).attempts == w.attempts;
  }

  lemma OverStepStays(w: World, id: AttemptId, step: AttemptStep)
    requires id in w.attempts && Over(w.attempts[id].stage)
    ensures var d := ApplyAttempt(w, id, step);
            (id in d.attempts ==> Over(d.attempts[id].stage)) && d.pending == w.pending && d.nextAttempt == w.nextAttempt
  {
  }

  /** An attempt that reused a master or failed is over for good: it never gets a process again. */
  lemma {:induction false} OverIsOver(steps: seq<Step>, i: nat, id: AttemptId)
    requires i <= |steps| && id in Run(steps[..i]).attempts && Over(Run(steps[..i]).attempts[id].stage)
    ensures Done(Run(steps), id)
  {
    if i == |steps| {
      assert steps[..i] == steps;
    } else {
      var before := steps[..|steps| - 1];
      assert before[..i] == steps[..i];
      OverIsOver(before, i, id);
      RunKeeps(before);
      assert id in Run(before).attempts ==> AttemptOk(Run(before), id);
      DoneStays(Run(before), steps[|steps| - 1], id);
    }
  }

  /** A process is started exactly by an attempt that has the lock of its path, and it becomes the attempt's own. */
  lemma ProcessesStartExactly(steps: seq<Step>, step: Step)
    ensures var w, d := Run(steps), Run(steps + [step]);
            if step.OnAttempt? && step.step.Start? && At(w, step.id, Locked) then
              && At(d, step.id, Running) && d.attempts[step.id].hold.proc.Some? && d.attempts[step.id].hold.proc.value !in w.procs
              && d.procs == w.procs + {d.attempts[step.id].hold.proc.value}
              && w.attempts[step.id].path in w.flocks && w.flocks[w.attempts[step.id].path].Ours?
            else d.procs <= w.procs
  {
    assert (steps + [step])[..|steps|] == steps;
    var w := Run(steps);
    RunKeeps(steps);
    if step.OnAttempt? && step.step.Start? {
      if At(w, step.id, Locked) {
        assert AttemptOk(w, step.id) && LockReal(w, OfAttempt(step.id));
        FreshProcess(w);
      }
    } else {
      NothingStarts(w, step);
    }
  }

  lemma NothingStarts(w: World, step: Step)
    requires !(step.OnAttempt? && step.step.Start?)
    ensures Apply(w, step).procs <= w.procs
  {
    if step.OnAttempt? { NoAttemptStarts(w, step.id, step.step); }
  }

  lemma NoAttemptStarts(w: World, id: AttemptId, step: AttemptStep)
    requires !step.Start?
    ensures ApplyAttempt(w, id, step).procs <= w.procs
  {
  }

  lemma FreshProcess(w: World)
    requires Inv(w)
    ensures w.nextProc !in w.procs
  {
    forall s ensures HeldBy(w, s).hold.proc != Some(w.nextProc) { assert LockReal(w, s); }
  }

  /** A call passes the first check exactly when the manager is open and no attempt for its alias and config is active. */
  lemma ChecksPassExactly(steps: seq<Step>, alias: string, config: string)
    ensures var w, d := Run(steps), Run(steps + [Check(alias, config)]);
            var busy := exists id :: InActive(w, id) && w.attempts[id].alias == alias && w.attempts[id].config == config;
            if w.closed || busy then d == w
            else d == w.(pending := d.pending, nextAttempt := d.nextAttempt) && d.pending.Values == w.pending.Values + {(alias, config)}
  {
    assert (steps + [Check(alias, config)])[..|steps|] == steps;
    var w := Run(steps);
    RunKeeps(steps);
    BusyExactly(w, alias, config);
    var d := DoCheck(w, alias, config);
    if d != w {
      assert w.nextAttempt !in w.pending;
      forall v | v in w.pending.Values + {(alias, config)} ensures v in d.pending.Values {
        if v in w.pending.Values {
          var k :| k in w.pending && w.pending[k] == v;
          assert d.pending[k] == v;
        } else {
          assert d.pending[w.nextAttempt] == v;
        }
      }
    }
  }

  lemma BusyExactly(w: World, alias: string, config: string)
    requires Inv(w)
    ensures Busy(w, alias, config) <==> exists id :: InActive(w, id) && w.attempts[id].alias == alias && w.attempts[id].config == config
  {
    if Busy(w, alias, config) {
      var p :| p in w.active && w.active[p] in w.attempts && w.attempts[w.active[p]].alias == alias && w.attempts[w.active[p]].config == config;
      assert ActiveOk(w, p);
      assert InActive(w, w.active[p]);
    }
    if id :| InActive(w, id) && w.attempts[id].alias == alias && w.attempts[id].config == config {
      assert AttemptOk(w, id);
      assert w.active[w.attempts[id].path] == id;
    }
  }

  // ----- the end of an attempt

  function RunOn(w: World, steps: seq<Step>): World
    decreases |steps|
  {
    if steps == [] then w else RunOn(Apply(w, steps[0]), steps[1..])
  }

  lemma RunOne(steps: seq<Step>, step: Step)
    ensures Run(steps + [step]) == Apply(Run(steps), step)
  {
    assert (steps + [step])[..|steps|] == steps;
  }

  lemma MovedOver(before: seq<Step>, steps: seq<Step>)
    requires steps != []
    ensures before + steps == before + [steps[0]] + steps[1..]
  {
  }

  lemma {:induction false} RunMore(before: seq<Step>, steps: seq<Step>)
    ensures Run(before + steps) == RunOn(Run(before), steps)
    decreases |steps|
  {
    if steps == [] {
      assert before + steps == before;
    } else {
      RunOne(before, steps[0]);
      MovedOver(before, steps);
      RunMore(before + [steps[0]], steps[1..]);
    }
  }

  lemma OnThree(w: World, a: Step, b: Step, c: Step, rest: seq<Step>)
    ensures RunOn(w, [a, b, c] + rest) == RunOn(Apply(Apply(Apply(w, a), b), c), rest)
  {
    assert ([a, b, c] + rest)[1..] == [b, c] + rest && ([b, c] + rest)[1..] == [c] + rest && ([c] + rest)[1..] == rest;
    calc {
      RunOn(w, [a, b, c] + rest);
      RunOn(Apply(w, a), [b, c] + rest);
      RunOn(Apply(Apply(w, a), b), [c] + rest);
      RunOn(Apply(Apply(Apply(w, a), b), c), rest);
    }
  }

  function FinishSteps(id: AttemptId): seq<Step> { [OnAttempt(id, Retire), OnAttempt(id, Release), OnAttempt(id, End)] }

  function FailSteps(id: AttemptId): seq<Step> { [OnAttempt(id, Fail), OnAttempt(id, ReapFailed), OnAttempt(id, UnlockFailed)] + FinishSteps(id) }

  /** The attempt is counted off; its path is free, its process ended and its lock released; nothing else changed. */
  predicate Gone(w: World, d: World, id: AttemptId) {
    && id in w.attempts
    && var a := w.attempts[id];
       && d.attempts == w.attempts - {id} && d.active == w.active - {a.path} && d.wg == w.wg - 1 && d.owned == w.owned
       && d.procs == (if a.hold.proc.Some? then w.procs - {a.hold.proc.value} else w.procs)
       && d.flocks == (if a.hold.lock.Some? then w.flocks - {a.path} else w.flocks)
  }

  /** What finishing needs to know of an attempt. */
  predicate Finishable(w: World, id: AttemptId) {
    && id in w.attempts
    && var a := w.attempts[id];
       && a.path in w.active && w.active[a.path] == id
       && (a.hold.lock.Some? ==> a.path in w.flocks && w.flocks[a.path] == Ours(a.hold.lock.value))
  }

  lemma Finishes(w: World, id: AttemptId)
    requires Finishable(w, id) && At(w, id, Retiring) && w.attempts[id].hold.proc.None?
    ensures Gone(w, DoEnd(DoRelease(DoRetire(w, id), id), id), id)
  {
    var a := w.attempts[id];
    var retired := DoRetire(w, id);
    assert retired.attempts[id] == a.(stage := Releasing) && retired.active == w.active - {a.path};
    var released := DoRelease(retired, id);
    assert released.attempts[id] == a.(stage := Ending, hold := a.hold.(lock := None));
    assert released.attempts - {id} == w.attempts - {id};
  }

  lemma FailsAndUnlocks(w: World, id: AttemptId)
    requires Finishable(w, id) && (w.attempts[id].stage.Admitted? || w.attempts[id].stage.Acquiring? || w.attempts[id].stage.Locked? || w.attempts[id].stage.Running?)
    ensures var d := DoUnlock(DoReap(DoFail(w, id), id), id);
            var a := w.attempts[id];
            && d.attempts == w.attempts[id := a.(stage := Retiring, hold := NOTHING)] && d.active == w.active && d.wg == w.wg && d.owned == w.owned
            && d.procs == (if a.hold.proc.Some? then w.procs - {a.hold.proc.value} else w.procs)
            && d.flocks == (if a.hold.lock.Some? then w.flocks - {a.path} else w.flocks)
  {
    var a := w.attempts[id];
    var failed := DoFail(w, id);
    assert failed.attempts[id] == a.(stage := Reaping);
    var reaped := DoReap(failed, id);
    assert reaped.attempts[id] == a.(stage := Unlocking, hold := a.hold.(proc := None)) && reaped.flocks == w.flocks;
  }

  lemma FailsAndFinishes(w: World, id: AttemptId)
    requires Finishable(w, id) && (w.attempts[id].stage.Admitted? || w.attempts[id].stage.Acquiring? || w.attempts[id].stage.Locked? || w.attempts[id].stage.Running?)
    ensures Gone(w, DoEnd(DoRelease(DoRetire(DoUnlock(DoReap(DoFail(w, id), id), id), id), id), id), id)
  {
    FailsAndUnlocks(w, id);
    var d := DoUnlock(DoReap(DoFail(w, id), id), id);
    Finishes(d, id);
    GoneBoth(w, d, DoEnd(DoRelease(DoRetire(d, id), id), id), id);
  }

  lemma GoneBoth(w: World, d: World, e: World, id: AttemptId)
    requires id in w.attempts && Gone(d, e, id)
    requires var a := w.attempts[id];
             && d.attempts == w.attempts[id := a.(stage := Retiring, hold := NOTHING)] && d.active == w.active && d.wg == w.wg && d.owned == w.owned
             && d.procs == (if a.hold.proc.Some? then w.procs - {a.hold.proc.value} else w.procs)
             && d.flocks == (if a.hold.lock.Some? then w.flocks - {a.path} else w.flocks)
    ensures Gone(w, e, id)
  {
    assert d.attempts - {id} == w.attempts - {id};
  }

  lemma IsFinishable(steps: seq<Step>, id: AttemptId)
    requires id in Run(steps).attempts && Counted(Run(steps).attempts[id].stage)
    ensures Finishable(Run(steps), id) && (At(Run(steps), id, Retiring) ==> Run(steps).attempts[id].hold.proc.None?)
  {
    RunKeeps(steps);
    assert AttemptOk(Run(steps), id) && LockReal(Run(steps), OfAttempt(id));
  }

  /**
   Over every run: an attempt that fails before it is handed over - while it prepares, waits for the lock, holds it or its
   process runs - leaves nothing behind when it finishes: no process, no lock, no place in `active`.
   */
  lemma FailedAttemptsLeaveNothing(steps: seq<Step>, id: AttemptId)
    requires id in Run(steps).attempts
    requires var stage := Run(steps).attempts[id].stage; stage.Admitted? || stage.Acquiring? || stage.Locked? || stage.Running?
    ensures Gone(Run(steps), Run(steps + FailSteps(id)), id)
  {
    IsFinishable(steps, id);
    RunFailed(steps, id);
    FailsAndFinishes(Run(steps), id);
  }

  lemma RunFailed(steps: seq<Step>, id: AttemptId)
    ensures Run(steps + FailSteps(id)) == DoEnd(DoRelease(DoRetire(DoUnlock(DoReap(DoFail(Run(steps), id), id), id), id), id), id)
  {
    RunMore(steps, FailSteps(id));
    OnThree(Run(steps), OnAttempt(id, Fail), OnAttempt(id, ReapFailed), OnAttempt(id, UnlockFailed), FinishSteps(id));
    OnFinish(DoUnlock(DoReap(DoFail(Run(steps), id), id), id), id);
  }

  lemma OnFinish(w: World, id: AttemptId)
    ensures RunOn(w, FinishSteps(id)) == DoEnd(DoRelease(DoRetire(w, id), id), id)
  {
    assert FinishSteps(id) == [OnAttempt(id, Retire), OnAttempt(id, Release), OnAttempt(id, End)] + [];
    OnThree(w, OnAttempt(id, Retire), OnAttempt(id, Release), OnAttempt(id, End), []);
  }

  /** An attempt that found a healthy master finishes the same way, with the lock it may have taken. */
  lemma ReusingAttemptsLeaveNothing(steps: seq<Step>, id: AttemptId)
    requires At(Run(steps), id, Retiring)
    ensures Gone(Run(steps), Run(steps + FinishSteps(id)), id)
  {
    IsFinishable(steps, id);
    RunMore(steps, FinishSteps(id));
    OnFinish(Run(steps), id);
    Finishes(Run(steps), id);
  }
}
