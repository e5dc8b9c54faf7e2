/**
 The sections of the control manager that run under its mutex, and the sweep that ends Close, in the source's own form
 (internal/ssh/control.go).
 */
module ControlManager {
  import opened ControlMaster
  import opened ControlSafety
  import opened ControlReuse

  class Manager {
    var closed: bool
    var active: map<Path, AttemptId>
    var owned: map<Path, Master>
    var wg: int
    var attempts: map<AttemptId, Attempt>
    var pending: map<AttemptId, (string, string)>
    var closer: Closer
    var flocks: map<Path, Token>
    var procs: set<nat>
    var nextFd: nat
    var nextProc: nat
    var nextAttempt: nat

    constructor ()
      ensures Value() == INITIAL
    {
      closed, active, owned, wg, attempts, pending, closer := false, map[], map[], 0, map[], map[], Open;
      flocks, procs, nextFd, nextProc, nextAttempt := map[], {}, 0, 0, 0;
    }

    ghost function Value(): World
      reads this
    {
      World(closed, active, owned, wg, attempts, pending, closer, flocks, procs, nextFd, nextProc, nextAttempt)
    }

    /** The scan of `active` for the same alias and configuration. */
    method InProgress(alias: string, config: string) returns (busy: bool)
      requires forall p :: p in active ==> active[p] in attempts
      ensures busy == Busy(Value(), alias, config)
    {
      var todo := active.Keys;
      while todo != {}
        invariant todo <= active.Keys
        invariant forall p :: p in active.Keys - todo ==> attempts[active[p]].alias != alias || attempts[active[p]].config != config
        decreases |todo|
      {
        var p :| p in todo;
        if attempts[active[p]].alias == alias && attempts[active[p]].config == config { return true; }
        todo := todo - {p};
      }
      return false;
    }

    /** The second half of admit: the path is known. */
    method Admit(id: AttemptId, path: Path) returns (admitted: bool)
      requires id in pending
      modifies this
      ensures Value() == DoAdmit(old(Value()), id, path)
      ensures admitted <==> !old(closed) && path !in old(active)
    {
      var call := pending[id];
      pending := pending - {id};
      if closed || path in active { return false; }
      attempts := attempts[id := Attempt(path, call.0, call.1, Admitted, NOTHING)];
      active := active[path := id];
      wg := wg + 1;
      return true;
    }

    /**
     reclaimExpiredOwned under the mutex, up to the closing of an expired master: `reuse` says that the master of the path
     serves the attempt, `ok` is false when it belongs to another alias.
     */
    method ReclaimExpired(id: AttemptId, healthy: bool) returns (reuse: bool, ok: bool)
      requires At(Value(), id, Admitted) && forall p :: p in owned ==> owned[p].hold.proc.Some?
      modifies this
      ensures Value() == DoReclaim(old(Value()), id, healthy)
      ensures var path := old(attempts)[id].path;
              var own := path in old(owned) && old(owned)[path].alias == old(attempts)[id].alias;
              && (!ok <==> path in old(owned) && !own)
              && (reuse <==> own && Runs(old(Value()), old(owned)[path]) && healthy)
              && owned == (if own && !reuse then old(owned) - {path} else old(owned)) && procs == old(procs) && flocks == old(flocks)
    {
      var a := attempts[id];
      reuse, ok := false, true;
      if a.path !in owned {
        attempts := attempts[id := a.(stage := Acquiring)];
        return;
      }
      var master := owned[a.path];
      if master.alias != a.alias {
        attempts := attempts[id := a.(stage := Reaping)];
        return false, false;
      }
      if master.hold.proc.value in procs && healthy {
        attempts := attempts[id := a.(stage := Retiring)];
        return true, true;
      }
      owned := owned - {a.path};
      attempts := attempts[id := a.(stage := Reclaiming(master.hold))];
    }

    /** finish(attempt, true): the handover, refused once the manager is closed. */
    method Handover(id: AttemptId) returns (kept: bool)
      requires Inv(Value()) && At(Value(), id, Running)
      modifies this
      ensures Inv(Value()) && Value() == DoOwn(old(Value()), id)
      ensures kept <==> !old(closed)
      ensures kept ==> old(attempts)[id].path !in old(owned) && owned == old(owned)[old(attempts)[id].path := Master(old(attempts)[id].alias, old(attempts)[id].hold)]
    {
      OwnKeeps(Value(), id);
      NothingToOverwrite(Value(), id);
      assert AttemptOk(Value(), id);
      var a := attempts[id];
      if closed || a.hold.proc.None? {
        attempts := attempts[id := a.(stage := Reaping)];
        return false;
      }
      if a.path in active && active[a.path] == id { active := active - {a.path}; }
      owned := owned[a.path := Master(a.alias, a.hold)];
      attempts := attempts[id := a.(stage := Ending, hold := NOTHING)];
      return true;
    }

    method CloseOne(path: Path)
      requires Inv(Value()) && closer.Sweeping? && path in closer.masters
      modifies this
      ensures Inv(Value()) && closer == Sweeping(old(closer).masters - {path})
    {
      CloseMasterKeeps(Value(), path);
      var hold := closer.masters[path].hold;
      procs := Reap(procs, hold.proc);
      flocks := Unlock(flocks, path, hold.lock);
      closer := Sweeping(closer.masters - {path});
    }

    /** The end of Close, once the wait group is at zero: every master is reaped and unlocked. */
    method SweepMasters()
      requires Inv(Value()) && closer == Waiting && wg == 0
      modifies this
      ensures Inv(Value()) && closer == Returned && attempts == map[] && owned == map[] && procs == {}
      ensures forall p :: p in flocks ==> flocks[p].Theirs?
    {
      SweepKeeps(Value());
      closer := Sweeping(owned);
      owned := map[];
      var todo := closer.masters.Keys;
      while todo != {}
        invariant Inv(Value()) && closer.Sweeping? && closer.masters.Keys == todo
        decreases |todo|
      {
        var path :| path in todo;
        CloseOne(path);
        todo := todo - {path};
      }
      assert closer.masters == map[];
      ReturnKeeps(Value());
      closer := Returned;
      NothingLeft(Value());
    }
  }
}
