/** Control locks and processes are owned linearly in every run of the control manager, and Close leaves none behind. */
module ControlSafety {
  import opened SessionTypes
  import opened ControlMaster

  /** The variables of the program that can refer to a lock and a process. */
  datatype Slot = OfAttempt(id: AttemptId) | OfVictim(id: AttemptId) | OfMaster(path: Path) | OfSwept(path: Path)

  datatype Held = Held(path: Path, hold: Hold)

  function HeldBy(w: World, s: Slot): Held {
    match s
    case OfAttempt(id) => if id in w.attempts then Held(w.attempts[id].path, w.attempts[id].hold) else Held("", NOTHING)
    case OfVictim(id) =>
      if id in w.attempts && w.attempts[id].stage.Reclaiming? then Held(w.attempts[id].path, w.attempts[id].stage.victim)
      else Held("", NOTHING)
    case OfMaster(path) => if path in w.owned then Held(path, w.owned[path].hold) else Held("", NOTHING)
    case OfSwept(path) =>
      if w.closer.Sweeping? && path in w.closer.masters then Held(path, w.closer.masters[path].hold) else Held("", NOTHING)
  }

  /** A descriptor in a variable really holds the lock of its path. */
  predicate LockReal(w: World, s: Slot) {
    var h := HeldBy(w, s);
    (h.hold.lock.Some? ==> h.path in w.flocks && w.flocks[h.path] == Ours(h.hold.lock.value) && h.hold.lock.value < w.nextFd) &&
    (h.hold.proc.Some? ==> h.hold.proc.value < w.nextProc)
  }

  predicate Apart(a: Hold, b: Hold) {
    (a.lock.Some? && b.lock.Some? ==> a.lock != b.lock) && (a.proc.Some? && b.proc.Some? ==> a.proc != b.proc)
  }

  ghost predicate LocksReal(w: World) { forall s :: LockReal(w, s) }

  /** No two variables refer to the same lock or process. */
  ghost predicate Linear(w: World) { forall s, t :: s != t ==> Apart(HeldBy(w, s).hold, HeldBy(w, t).hold) }

  ghost predicate LockKnown(w: World, path: Path, fd: nat) {
    exists s :: HeldBy(w, s).path == path && HeldBy(w, s).hold.lock == Some(fd)
  }

  /** Every lock we hold and every process that runs is referred to: nothing is leaked. */
  ghost predicate NoLeak(w: World) {
    && (forall path :: path in w.flocks && w.flocks[path].Ours? ==> LockKnown(w, path, w.flocks[path].fd))
    && (forall q :: q in w.procs ==> exists s :: HeldBy(w, s).hold.proc == Some(q))
  }

  ghost predicate SlotsOk(w: World) { LocksReal(w) && Linear(w) && NoLeak(w) }

  // ----- how slots change

  /** The same holds everywhere. */
  lemma SameSlots(w: World, d: World)
    requires SlotsOk(w) && d.flocks == w.flocks && d.procs <= w.procs && d.nextFd >= w.nextFd && d.nextProc >= w.nextProc
    requires forall s :: HeldBy(d, s).hold == HeldBy(w, s).hold && (HeldBy(w, s).hold != NOTHING ==> HeldBy(d, s) == HeldBy(w, s))
    ensures SlotsOk(d)
  {
    forall s ensures LockReal(d, s) { assert LockReal(w, s); }
    forall path | path in d.flocks && d.flocks[path].Ours? ensures LockKnown(d, path, d.flocks[path].fd) {
      assert LockKnown(w, path, w.flocks[path].fd);
      var s :| HeldBy(w, s).path == path && HeldBy(w, s).hold.lock == Some(w.flocks[path].fd);
      assert HeldBy(d, s) == HeldBy(w, s);
    }
    forall q | q in d.procs ensures exists s :: HeldBy(d, s).hold.proc == Some(q) {
      var s :| HeldBy(w, s).hold.proc == Some(q);
      assert HeldBy(d, s).hold.proc == Some(q);
    }
  }

  /** What slot `a` held passes to slot `b`, which held nothing. */
  lemma MoveSlot(w: World, d: World, a: Slot, b: Slot)
    requires SlotsOk(w) && d.flocks == w.flocks && d.procs == w.procs && d.nextFd == w.nextFd && d.nextProc == w.nextProc && a != b
    requires HeldBy(w, b).hold == NOTHING && HeldBy(d, a).hold == NOTHING && HeldBy(d, b) == HeldBy(w, a)
    requires forall s :: s != a && s != b ==> HeldBy(d, s) == HeldBy(w, s)
    ensures SlotsOk(d)
  {
    forall s ensures LockReal(d, s) { assert LockReal(w, if s == b then a else s); }
    forall s, t | s != t ensures Apart(HeldBy(d, s).hold, HeldBy(d, t).hold) {
      assert s != a && t != a ==> Apart(HeldBy(w, if s == b then a else s).hold, HeldBy(w, if t == b then a else t).hold);
    }
    forall path | path in d.flocks && d.flocks[path].Ours? ensures LockKnown(d, path, d.flocks[path].fd) {
      assert LockKnown(w, path, w.flocks[path].fd);
      var s :| HeldBy(w, s).path == path && HeldBy(w, s).hold.lock == Some(w.flocks[path].fd);
      assert HeldBy(d, if s == a then b else s) == HeldBy(w, s);
    }
    forall q | q in d.procs ensures exists s :: HeldBy(d, s).hold.proc == Some(q) {
      var s :| HeldBy(w, s).hold.proc == Some(q);
      assert HeldBy(d, if s == a then b else s).hold.proc == Some(q);
    }
  }

  /** Slot `a` takes a free lock through a new descriptor. */
  lemma TakeLock(w: World, d: World, a: Slot, path: Path)
    requires SlotsOk(w) && path !in w.flocks && d.flocks == w.flocks[path := Ours(w.nextFd)] && d.nextFd == w.nextFd + 1
    requires d.procs == w.procs && d.nextProc == w.nextProc && HeldBy(w, a).path == path == HeldBy(d, a).path
    requires HeldBy(d, a).hold == HeldBy(w, a).hold.(lock := Some(w.nextFd))
    requires forall s :: s != a ==> HeldBy(d, s) == HeldBy(w, s)
    ensures SlotsOk(d)
  {
    assert LockReal(w, a);
    forall s ensures LockReal(d, s) { assert LockReal(w, s); }
    forall s, t | s != t ensures Apart(HeldBy(d, s).hold, HeldBy(d, t).hold) {
      assert Apart(HeldBy(w, s).hold, HeldBy(w, t).hold) && LockReal(w, s) && LockReal(w, t);
    }
    forall p | p in d.flocks && d.flocks[p].Ours? ensures LockKnown(d, p, d.flocks[p].fd) {
      if p == path {
        assert HeldBy(d, a).path == path;
      } else {
        assert LockKnown(w, p, w.flocks[p].fd);
        var s :| HeldBy(w, s).path == p && HeldBy(w, s).hold.lock == Some(w.flocks[p].fd);
        assert s != a && HeldBy(d, s) == HeldBy(w, s);
      }
    }
    forall q | q in d.procs ensures exists s :: HeldBy(d, s).hold.proc == Some(q) {
      var s :| HeldBy(w, s).hold.proc == Some(q);
      assert HeldBy(d, s).hold.proc == Some(q);
    }
  }

  /** Slot `a`, which had none, starts a new process. */
  lemma TakeProc(w: World, d: World, a: Slot)
    requires SlotsOk(w) && d.flocks == w.flocks && d.nextFd == w.nextFd && d.procs == w.procs + {w.nextProc} && d.nextProc == w.nextProc + 1
    requires HeldBy(w, a).hold.proc.None? && HeldBy(d, a) == HeldBy(w, a).(hold := HeldBy(w, a).hold.(proc := Some(w.nextProc)))
    requires forall s :: s != a ==> HeldBy(d, s) == HeldBy(w, s)
    ensures SlotsOk(d)
  {
    forall s ensures LockReal(d, s) { assert LockReal(w, s); }
    forall s, t | s != t ensures Apart(HeldBy(d, s).hold, HeldBy(d, t).hold) {
      assert Apart(HeldBy(w, s).hold, HeldBy(w, t).hold) && LockReal(w, s) && LockReal(w, t);
    }
    forall p | p in d.flocks && d.flocks[p].Ours? ensures LockKnown(d, p, d.flocks[p].fd) {
      assert LockKnown(w, p, w.flocks[p].fd);
      var s :| HeldBy(w, s).path == p && HeldBy(w, s).hold.lock == Some(w.flocks[p].fd);
      assert HeldBy(d, s).path == p && HeldBy(d, s).hold.lock == HeldBy(w, s).hold.lock;
    }
    forall q | q in d.procs ensures exists s :: HeldBy(d, s).hold.proc == Some(q) {
      if q == w.nextProc { assert HeldBy(d, a).hold.proc == Some(q); }
      else {
        var s :| HeldBy(w, s).hold.proc == Some(q);
        assert HeldBy(d, s).hold.proc == Some(q);
      }
    }
  }

  /** Slot `a` gives up its process, reaped, or its lock, released, or both. */
  lemma GiveUp(w: World, d: World, a: Slot, kept: Hold)
    requires SlotsOk(w) && d.nextFd == w.nextFd && d.nextProc == w.nextProc
    requires var h := HeldBy(w, a);
             && (kept.lock == h.hold.lock || kept.lock == None) && (kept.proc == h.hold.proc || kept.proc == None)
             && d.flocks == (if kept.lock == h.hold.lock then w.flocks else Unlock(w.flocks, h.path, h.hold.lock))
             && d.procs == (if kept.proc == h.hold.proc then w.procs else Reap(w.procs, h.hold.proc))
             && HeldBy(d, a).hold == kept && (kept != NOTHING ==> HeldBy(d, a).path == h.path)
    requires forall s :: s != a ==> HeldBy(d, s) == HeldBy(w, s)
    ensures SlotsOk(d)
  {
    var h := HeldBy(w, a);
    assert LockReal(w, a);
    forall s ensures LockReal(d, s) {
      assert LockReal(w, s);
      if s != a { assert Apart(HeldBy(w, s).hold, h.hold); }
    }
    forall s, t | s != t ensures Apart(HeldBy(d, s).hold, HeldBy(d, t).hold) { assert Apart(HeldBy(w, s).hold, HeldBy(w, t).hold); }
    forall p | p in d.flocks && d.flocks[p].Ours? ensures LockKnown(d, p, d.flocks[p].fd) {
      assert LockKnown(w, p, w.flocks[p].fd);
      var s :| HeldBy(w, s).path == p && HeldBy(w, s).hold.lock == Some(w.flocks[p].fd);
      assert HeldBy(d, s).path == p && HeldBy(d, s).hold.lock == HeldBy(w, s).hold.lock;
    }
    forall q | q in d.procs ensures exists s :: HeldBy(d, s).hold.proc == Some(q) {
      var s :| HeldBy(w, s).hold.proc == Some(q);
      assert HeldBy(d, s).hold.proc == Some(q);
    }
  }

  // ----- the books

  /** The attempt still stands in `active`. */
  predicate Counted(stage: Stage) { !stage.Releasing? && !stage.Ending? }

  predicate HoldOk(a: Attempt) {
    match a.stage
    case Admitted => a.hold == NOTHING
    case Reclaiming(_) => a.hold == NOTHING
    case Acquiring => a.hold == NOTHING
    case Locked => a.hold.lock.Some? && a.hold.proc.None?
    case Running => a.hold.lock.Some? && a.hold.proc.Some?
    case Reaping => true
    case Unlocking => a.hold.proc.None?
    case Retiring => a.hold.proc.None?
    case Releasing => a.hold.proc.None?
    case Ending => a.hold == NOTHING
  }

  predicate AttemptOk(w: World, id: AttemptId) {
    id in w.attempts &&
    var a := w.attempts[id];
    id < w.nextAttempt && id !in w.pending && HoldOk(a) && (Counted(a.stage) ==> a.path in w.active && w.active[a.path] == id)
  }

  predicate ActiveOk(w: World, path: Path) {
    path in w.active && w.active[path] in w.attempts &&
    w.attempts[w.active[path]].path == path && Counted(w.attempts[w.active[path]].stage)
  }

  predicate Books(w: World) {
    && (forall id :: id in w.attempts ==> AttemptOk(w, id))
    && (forall path :: path in w.active ==> ActiveOk(w, path))
    && (forall id :: id in w.pending ==> id < w.nextAttempt)
    && (forall path :: path in w.owned ==> w.owned[path].hold.lock.Some? && w.owned[path].hold.proc.Some?)
    && w.wg == |w.attempts|
    && (w.closed <==> !w.closer.Open?)
    && (w.closer.Sweeping? || w.closer.Returned? ==> w.attempts == map[] && w.owned == map[])
  }

  ghost predicate Inv(w: World) { SlotsOk(w) && Books(w) }

  /** An attempt goes on to another stage. */
  lemma GoToBooks(w: World, d: World, id: AttemptId)
    requires Books(w) && id in w.attempts && id in d.attempts && d.attempts == w.attempts[id := d.attempts[id]]
    requires d.attempts[id].path == w.attempts[id].path && HoldOk(d.attempts[id])
    requires Counted(w.attempts[id].stage) && Counted(d.attempts[id].stage)
    requires d.active == w.active && d.pending == w.pending && d.nextAttempt == w.nextAttempt && d.wg == w.wg
    requires d.owned.Keys <= w.owned.Keys && forall p :: p in d.owned ==> d.owned[p] == w.owned[p]
    requires d.closed == w.closed && d.closer == w.closer
    ensures Books(d)
  {
    forall i | i in d.attempts ensures AttemptOk(d, i) { assert AttemptOk(w, i); }
    forall p | p in d.active ensures ActiveOk(d, p) { assert ActiveOk(w, p); }
    assert d.attempts.Keys == w.attempts.Keys;
    assert |d.attempts| == |d.attempts.Keys| == |w.attempts.Keys|;
  }

  lemma AttemptSlots(w: World, d: World, id: AttemptId)
    requires id in w.attempts && id in d.attempts && d.attempts == w.attempts[id := d.attempts[id]]
    requires d.owned == w.owned && d.closer == w.closer
    requires !w.attempts[id].stage.Reclaiming? && !d.attempts[id].stage.Reclaiming?
    ensures forall s :: s != OfAttempt(id) ==> HeldBy(d, s) == HeldBy(w, s)
  {
  }

  // ----- the steps

  lemma CheckKeeps(w: World, alias: string, config: string)
    requires Inv(w)
    ensures Inv(DoCheck(w, alias, config))
  {
    if !w.closed && !Busy(w, alias, config) {
      var d := w.(pending := w.pending[w.nextAttempt := (alias, config)], nextAttempt := w.nextAttempt + 1);
      forall s ensures HeldBy(d, s) == HeldBy(w, s) {}
      SameSlots(w, d);
      forall i | i in d.attempts ensures AttemptOk(d, i) { assert AttemptOk(w, i); }
      forall p | p in d.active ensures ActiveOk(d, p) { assert ActiveOk(w, p); }
    }
  }

  lemma AdmitBooks(w: World, id: AttemptId, path: Path)
    requires Books(w) && id in w.pending && !w.closed && path !in w.active
    ensures id !in w.attempts && Books(DoAdmit(w, id, path))
  {
    var d := DoAdmit(w, id, path);
    assert id in w.attempts ==> AttemptOk(w, id);
    forall i | i in d.attempts ensures AttemptOk(d, i) { assert i in w.attempts ==> AttemptOk(w, i); }
    forall p | p in d.active ensures ActiveOk(d, p) { assert p in w.active ==> ActiveOk(w, p); }
    OneMoreAttempt(w.attempts, d.attempts, id);
  }

  lemma OneMoreAttempt(a: map<AttemptId, Attempt>, b: map<AttemptId, Attempt>, id: AttemptId)
    requires id !in a && id in b && b == a[id := b[id]]
    ensures |b| == |a| + 1
  {
    assert b.Keys == a.Keys + {id};
    assert |b| == |b.Keys| && |a| == |a.Keys|;
  }

  lemma AdmitSlots(w: World, id: AttemptId, path: Path)
    requires SlotsOk(w) && id !in w.attempts
    ensures SlotsOk(DoAdmit(w, id, path))
  {
    var d := DoAdmit(w, id, path);
    forall s ensures HeldBy(d, s).hold == HeldBy(w, s).hold && (HeldBy(w, s).hold != NOTHING ==> HeldBy(d, s) == HeldBy(w, s)) {}
    SameSlots(w, d);
  }

  lemma AdmitKeeps(w: World, id: AttemptId, path: Path)
    requires Inv(w)
    ensures Inv(DoAdmit(w, id, path))
  {
    if id in w.pending {
      assert id in w.attempts ==> AttemptOk(w, id);
      AdmitSlots(w, id, path);
      if !w.closed && path !in w.active {
        AdmitBooks(w, id, path);
      } else {
        var d := DoAdmit(w, id, path);
        forall i | i in d.attempts ensures AttemptOk(d, i) { assert AttemptOk(w, i); }
        forall p | p in d.active ensures ActiveOk(d, p) { assert ActiveOk(w, p); }
      }
    }
  }

  lemma TakeExpired(w: World, d: World, id: AttemptId)
    requires SlotsOk(w) && id in w.attempts && w.attempts[id].path in w.owned && !w.attempts[id].stage.Reclaiming?
    requires var path := w.attempts[id].path;
             d == GoTo(w.(owned := w.owned - {path}), id, Reclaiming(w.owned[path].hold))
    ensures SlotsOk(d)
  {
    MoveSlot(w, d, OfMaster(w.attempts[id].path), OfVictim(id));
  }

  lemma ReclaimKeeps(w: World, id: AttemptId, healthy: bool)
    requires Inv(w)
    ensures Inv(DoReclaim(w, id, healthy))
  {
    if At(w, id, Admitted) {
      var stage := AfterReclaim(w, w.attempts[id], healthy);
      assert AttemptOk(w, id);
      ReclaimBooks(w, id, stage);
      if stage.Reclaiming? { TakeExpired(w, DoReclaim(w, id, healthy), id); } else { ReclaimLeaves(w, GoTo(w, id, stage), id); }
    }
  }

  lemma ReclaimBooks(w: World, id: AttemptId, stage: Stage)
    requires Books(w) && At(w, id, Admitted) && w.attempts[id].hold == NOTHING && !stage.Locked? && !stage.Running? && Counted(stage)
    ensures Books(GoTo(w, id, stage)) && Books(GoTo(w.(owned := w.owned - {w.attempts[id].path}), id, stage))
  {
    GoToBooks(w, GoTo(w, id, stage), id);
    GoToBooks(w, GoTo(w.(owned := w.owned - {w.attempts[id].path}), id, stage), id);
  }

  lemma ReclaimLeaves(w: World, d: World, id: AttemptId)
    requires SlotsOk(w) && At(w, id, Admitted) && id in d.attempts && !d.attempts[id].stage.Reclaiming?
    requires d == GoTo(w, id, d.attempts[id].stage)
    ensures SlotsOk(d)
  {
    AttemptSlots(w, d, id);
    SameSlots(w, d);
  }

  lemma CloseExpiredKeeps(w: World, id: AttemptId)
    requires Inv(w)
    ensures Inv(DoCloseExpired(w, id))
  {
    if id in w.attempts && w.attempts[id].stage.Reclaiming? {
      var d := DoCloseExpired(w, id);
      assert AttemptOk(w, id);
      GoToBooks(w, d, id);
      GiveUp(w, d, OfVictim(id), NOTHING);
    }
  }

  lemma AcquireKeeps(w: World, id: AttemptId, healthy: bool)
    requires Inv(w)
    ensures Inv(DoAcquire(w, id, healthy))
  {
    if At(w, id, Acquiring) && DoAcquire(w, id, healthy) != w {
      var d := DoAcquire(w, id, healthy);
      assert AttemptOk(w, id);
      GoToBooks(w, d, id);
      AcquireSlots(w, id, healthy);
    }
  }

  lemma AcquireSlots(w: World, id: AttemptId, healthy: bool)
    requires SlotsOk(w) && At(w, id, Acquiring) && w.attempts[id].hold == NOTHING && DoAcquire(w, id, healthy) != w
    ensures SlotsOk(DoAcquire(w, id, healthy))
  {
    var d := DoAcquire(w, id, healthy);
    AttemptSlots(w, d, id);
    if w.attempts[id].path in w.flocks { SameSlots(w, d); } else { TakeLock(w, d, OfAttempt(id), w.attempts[id].path); }
  }

  lemma StartKeeps(w: World, id: AttemptId)
    requires Inv(w)
    ensures Inv(DoStart(w, id))
  {
    if At(w, id, Locked) {
      var d := DoStart(w, id);
      assert AttemptOk(w, id);
      GoToBooks(w, d, id);
      AttemptSlots(w, d, id);
      TakeProc(w, d, OfAttempt(id));
    }
  }

  lemma FailKeeps(w: World, id: AttemptId)
    requires Inv(w)
    ensures Inv(DoFail(w, id))
  {
    if DoFail(w, id) != w {
      var d := DoFail(w, id);
      assert AttemptOk(w, id);
      GoToBooks(w, d, id);
      AttemptSlots(w, d, id);
      SameSlots(w, d);
    }
  }

  /** While an attempt holds its lock, no master is owned under its path. */
  lemma NothingToOverwrite(w: World, id: AttemptId)
    requires Inv(w) && id in w.attempts && w.attempts[id].hold.lock.Some?
    ensures w.attempts[id].path !in w.owned
  {
    var path := w.attempts[id].path;
    assert LockReal(w, OfAttempt(id)) && LockReal(w, OfMaster(path));
    assert Apart(HeldBy(w, OfAttempt(id)).hold, HeldBy(w, OfMaster(path)).hold);
  }

  /** An attempt leaves `active`. */
  lemma LeaveBooks(w: World, d: World, id: AttemptId)
    requires Books(w) && id in w.attempts && id in d.attempts && d.attempts == w.attempts[id := d.attempts[id]]
    requires HoldOk(d.attempts[id]) && Counted(w.attempts[id].stage) && !Counted(d.attempts[id].stage)
    requires d.active == w.active - {w.attempts[id].path} && d.pending == w.pending && d.nextAttempt == w.nextAttempt && d.wg == w.wg
    requires forall p :: p in d.owned ==> d.owned[p].hold.lock.Some? && d.owned[p].hold.proc.Some?
    requires d.closed == w.closed && d.closer == w.closer
    ensures Books(d)
  {
    assert AttemptOk(w, id);
    forall i | i in d.attempts ensures AttemptOk(d, i) { assert AttemptOk(w, i); }
    forall p | p in d.active ensures ActiveOk(d, p) { assert ActiveOk(w, p) && p != w.attempts[id].path; }
    assert d.attempts.Keys == w.attempts.Keys;
    assert |d.attempts| == |d.attempts.Keys| == |w.attempts.Keys|;
  }

  lemma OwnSlots(w: World, d: World, id: AttemptId)
    requires SlotsOk(w) && At(w, id, Running) && w.attempts[id].path !in w.owned
    requires id in d.attempts && d.attempts == w.attempts[id := d.attempts[id]] && d.attempts[id].stage == Ending
    requires d.attempts[id].hold == NOTHING && d.owned == w.owned[w.attempts[id].path := Master(w.attempts[id].alias, w.attempts[id].hold)]
    requires d.flocks == w.flocks && d.procs == w.procs && d.nextFd == w.nextFd && d.nextProc == w.nextProc && d.closer == w.closer
    ensures SlotsOk(d)
  {
    MoveSlot(w, d, OfAttempt(id), OfMaster(w.attempts[id].path));
  }

  lemma OwnKeeps(w: World, id: AttemptId)
    requires Inv(w)
    ensures Inv(DoOwn(w, id))
  {
    if At(w, id, Running) {
      var d := DoOwn(w, id);
      assert AttemptOk(w, id);
      if w.closed {
        GoToBooks(w, d, id);
        AttemptSlots(w, d, id);
        SameSlots(w, d);
      } else {
        NothingToOverwrite(w, id);
        LeaveBooks(w, d, id);
        OwnSlots(w, d, id);
      }
    }
  }

  lemma ReapKeeps(w: World, id: AttemptId)
    requires Inv(w)
    ensures Inv(DoReap(w, id))
  {
    if At(w, id, Reaping) {
      var d := DoReap(w, id);
      assert AttemptOk(w, id);
      GoToBooks(w, d, id);
      AttemptSlots(w, d, id);
      GiveUp(w, d, OfAttempt(id), w.attempts[id].hold.(proc := None));
    }
  }

  lemma UnlockKeeps(w: World, id: AttemptId)
    requires Inv(w)
    ensures Inv(DoUnlock(w, id))
  {
    if At(w, id, Unlocking) {
      var d := DoUnlock(w, id);
      assert AttemptOk(w, id);
      GoToBooks(w, d, id);
      AttemptSlots(w, d, id);
      GiveUp(w, d, OfAttempt(id), w.attempts[id].hold.(lock := None));
    }
  }

  lemma RetireKeeps(w: World, id: AttemptId)
    requires Inv(w)
    ensures Inv(DoRetire(w, id))
  {
    if At(w, id, Retiring) {
      var d := DoRetire(w, id);
      assert AttemptOk(w, id);
      LeaveBooks(w, d, id);
      AttemptSlots(w, d, id);
      SameSlots(w, d);
    }
  }

  lemma ReleaseKeeps(w: World, id: AttemptId)
    requires Inv(w)
    ensures Inv(DoRelease(w, id))
  {
    if At(w, id, Releasing) {
      var d := DoRelease(w, id);
      assert AttemptOk(w, id);
      forall i | i in d.attempts ensures AttemptOk(d, i) { assert AttemptOk(w, i); }
      forall p | p in d.active ensures ActiveOk(d, p) { assert ActiveOk(w, p); }
      assert d.attempts.Keys == w.attempts.Keys;
      assert |d.attempts| == |d.attempts.Keys| == |w.attempts.Keys|;
      AttemptSlots(w, d, id);
      GiveUp(w, d, OfAttempt(id), NOTHING);
    }
  }

  lemma EndKeeps(w: World, id: AttemptId)
    requires Inv(w)
    ensures Inv(DoEnd(w, id))
  {
    if At(w, id, Ending) {
      var d := DoEnd(w, id);
      assert AttemptOk(w, id);
      forall i | i in d.attempts ensures AttemptOk(d, i) { assert AttemptOk(w, i); }
      forall p | p in d.active ensures ActiveOk(d, p) { assert ActiveOk(w, p); }
      assert d.attempts.Keys == w.attempts.Keys - {id} && |d.attempts.Keys| == |w.attempts.Keys| - 1;
      assert |d.attempts| == |d.attempts.Keys| && |w.attempts| == |w.attempts.Keys|;
      forall s ensures HeldBy(d, s).hold == HeldBy(w, s).hold && (HeldBy(w, s).hold != NOTHING ==> HeldBy(d, s) == HeldBy(w, s)) {}
      SameSlots(w, d);
    }
  }

  // ----- shutdown and environment

  lemma CloseKeeps(w: World)
    requires Inv(w)
    ensures Inv(DoClose(w))
  {
    var d := DoClose(w);
    forall s ensures HeldBy(d, s) == HeldBy(w, s) {}
    SameSlots(w, d);
    forall i | i in d.attempts ensures AttemptOk(d, i) { assert AttemptOk(w, i); }
    forall p | p in d.active ensures ActiveOk(d, p) { assert ActiveOk(w, p); }
  }

  function Swap(s: Slot): Slot {
    match s
    case OfMaster(p) => OfSwept(p)
    case OfSwept(p) => OfMaster(p)
    case _ => s
  }

  lemma SweepSlots(w: World)
    requires SlotsOk(w) && w.closer == Waiting && w.wg == 0
    ensures SlotsOk(DoSweep(w))
  {
    var d := DoSweep(w);
    forall s ensures HeldBy(d, s) == HeldBy(w, Swap(s)) {}
    forall s ensures LockReal(d, s) { assert LockReal(w, Swap(s)); }
    forall s, t | s != t ensures Apart(HeldBy(d, s).hold, HeldBy(d, t).hold) {
      assert Swap(s) != Swap(t);
      assert Apart(HeldBy(w, Swap(s)).hold, HeldBy(w, Swap(t)).hold);
    }
    forall path | path in d.flocks && d.flocks[path].Ours? ensures LockKnown(d, path, d.flocks[path].fd) {
      assert LockKnown(w, path, w.flocks[path].fd);
      var s :| HeldBy(w, s).path == path && HeldBy(w, s).hold.lock == Some(w.flocks[path].fd);
      assert Swap(Swap(s)) == s && HeldBy(d, Swap(s)) == HeldBy(w, s);
    }
    forall q | q in d.procs ensures exists s :: HeldBy(d, s).hold.proc == Some(q) {
      var s :| HeldBy(w, s).hold.proc == Some(q);
      assert Swap(Swap(s)) == s && HeldBy(d, Swap(s)).hold.proc == Some(q);
    }
  }

  lemma NoneActive(w: World)
    requires Books(w) && w.attempts == map[]
    ensures w.active == map[]
  {
    assert forall p :: p in w.active ==> ActiveOk(w, p);
  }

  lemma SweepKeeps(w: World)
    requires Inv(w)
    ensures Inv(DoSweep(w))
  {
    if w.closer == Waiting && w.wg == 0 {
      SweepSlots(w);
      assert w.attempts == map[];
      NoneActive(w);
    }
  }

  lemma CloseMasterKeeps(w: World, path: Path)
    requires Inv(w)
    ensures Inv(DoCloseMaster(w, path))
  {
    if w.closer.Sweeping? && path in w.closer.masters {
      var d := DoCloseMaster(w, path);
      forall s | s != OfSwept(path) ensures HeldBy(d, s) == HeldBy(w, s) {}
      GiveUp(w, d, OfSwept(path), NOTHING);
      NoneActive(w);
    }
  }

  lemma ReturnKeeps(w: World)
    requires Inv(w)
    ensures Inv(DoReturn(w))
  {
    var d := DoReturn(w);
    forall s ensures HeldBy(d, s) == HeldBy(w, s) {}
    SameSlots(w, d);
    forall i | i in d.attempts ensures AttemptOk(d, i) { assert AttemptOk(w, i); }
    forall p | p in d.active ensures ActiveOk(d, p) { assert ActiveOk(w, p); }
  }

  lemma SameBooks(w: World, d: World)
    requires Books(w) && d == w.(flocks := d.flocks, procs := d.procs)
    ensures Books(d)
  {
    forall i | i in d.attempts ensures AttemptOk(d, i) { assert AttemptOk(w, i); }
    forall p | p in d.active ensures ActiveOk(d, p) { assert ActiveOk(w, p); }
  }

  lemma ExitKeeps(w: World, proc: nat)
    requires Inv(w)
    ensures Inv(DoExit(w, proc))
  {
    var d := DoExit(w, proc);
    forall s ensures HeldBy(d, s) == HeldBy(w, s) {}
    SameSlots(w, d);
    SameBooks(w, d);
  }

  lemma ForeignLockKeeps(w: World, path: Path)
    requires Inv(w)
    ensures Inv(DoForeignLock(w, path))
  {
    if path !in w.flocks {
      var d := w.(flocks := w.flocks[path := Theirs]);
      ForeignSlots(w, d, path);
      SameBooks(w, d);
    }
  }

  lemma ForeignUnlockKeeps(w: World, path: Path)
    requires Inv(w)
    ensures Inv(DoForeignUnlock(w, path))
  {
    if path in w.flocks && w.flocks[path].Theirs? {
      var d := w.(flocks := w.flocks - {path});
      ForeignSlots(w, d, path);
      SameBooks(w, d);
    }
  }

  lemma ForeignSlots(w: World, d: World, path: Path)
    requires SlotsOk(w) && d == w.(flocks := d.flocks) && d.flocks - {path} == w.flocks - {path}
    requires d.flocks == w.flocks || ((path in w.flocks ==> w.flocks[path].Theirs?) && (path in d.flocks ==> d.flocks[path].Theirs?))
    ensures SlotsOk(d)
  {
    forall s ensures HeldBy(d, s) == HeldBy(w, s) {}
    assert forall p :: p != path ==> (p in d.flocks <==> p in d.flocks - {path}) && (p in w.flocks <==> p in w.flocks - {path});
    assert forall p :: p != path && p in w.flocks ==> (w.flocks - {path})[p] == w.flocks[p] && (d.flocks - {path})[p] == d.flocks[p];
    forall s ensures LockReal(d, s) { assert LockReal(w, s); }
    forall p | p in d.flocks && d.flocks[p].Ours? ensures LockKnown(d, p, d.flocks[p].fd) {
      assert LockKnown(w, p, w.flocks[p].fd);
      var s :| HeldBy(w, s).path == p && HeldBy(w, s).hold.lock == Some(w.flocks[p].fd);
      assert HeldBy(d, s) == HeldBy(w, s);
    }
    forall q | q in d.procs ensures exists s :: HeldBy(d, s).hold.proc == Some(q) {
      var s :| HeldBy(w, s).hold.proc == Some(q);
      assert HeldBy(d, s).hold.proc == Some(q);
    }
  }

  // ----- all steps, all runs

  lemma AttemptStepKeeps(w: World, id: AttemptId, step: AttemptStep)
    requires Inv(w)
    ensures Inv(ApplyAttempt(w, id, step))
  {
    match step
    case Reclaim(healthy) => ReclaimKeeps(w, id, healthy);
    case CloseExpired => CloseExpiredKeeps(w, id);
    case Acquire(healthy) => AcquireKeeps(w, id, healthy);
    case Start => StartKeeps(w, id);
    case Fail => FailKeeps(w, id);
    case Own => OwnKeeps(w, id);
    case ReapFailed => ReapKeeps(w, id);
    case UnlockFailed => UnlockKeeps(w, id);
    case Retire => RetireKeeps(w, id);
    case Release => ReleaseKeeps(w, id);
    case End => EndKeeps(w, id);
  }

  lemma StepKeeps(w: World, step: Step)
    requires Inv(w)
    ensures Inv(Apply(w, step))
  {
    match step
    case Check(alias, config) => CheckKeeps(w, alias, config);
    case Admit(id, path) => AdmitKeeps(w, id, path);
    case OnAttempt(id, s) => AttemptStepKeeps(w, id, s);
    case Close => CloseKeeps(w);
    case Sweep => SweepKeeps(w);
    case CloseMaster(path) => CloseMasterKeeps(w, path);
    case Return => ReturnKeeps(w);
    case Exit(proc) => ExitKeeps(w, proc);
    case ForeignLock(path) => ForeignLockKeeps(w, path);
    case ForeignUnlock(path) => ForeignUnlockKeeps(w, path);
  }

  lemma InitialInv()
    ensures Inv(INITIAL)
  {
    assert forall s :: HeldBy(INITIAL, s).hold == NOTHING;
  }

  lemma {:induction false} RunKeeps(steps: seq<Step>)
    ensures Inv(Run(steps))
  {
    if steps == [] {
      InitialInv();
    } else {
      RunKeeps(steps[..|steps| - 1]);
      StepKeeps(Run(steps[..|steps| - 1]), steps[|steps| - 1]);
    }
  }

  // ----- what follows

  predicate InActive(w: World, id: AttemptId) { id in w.attempts && Counted(w.attempts[id].stage) }

  /**
   Over every run: each control path has at most one attempt in `active`; a descriptor in any variable really holds the
   lock of its path; no two variables share a lock or a process; and no lock or process is forgotten.
   */
  lemma OwnershipIsLinear(steps: seq<Step>, i: AttemptId, j: AttemptId, s: Slot, t: Slot)
    ensures var w := Run(steps);
            && (InActive(w, i) && InActive(w, j) && w.attempts[i].path == w.attempts[j].path ==> i == j)
            && (s != t ==> Apart(HeldBy(w, s).hold, HeldBy(w, t).hold))
            && LockReal(w, s) && NoLeak(w)
  {
    RunKeeps(steps);
    var w := Run(steps);
    assert i in w.attempts ==> AttemptOk(w, i);
    assert j in w.attempts ==> AttemptOk(w, j);
  }

  /** Only a handover adds to the owned masters; every other step of an attempt leaves them or takes one out. */
  lemma OwnedShrinks(w: World, id: AttemptId, step: AttemptStep, path: Path)
    requires !step.Own? && path in ApplyAttempt(w, id, step).owned
    ensures path in w.owned && ApplyAttempt(w, id, step).owned[path] == w.owned[path]
  {
  }

  lemma HandoverIsFresh(w: World, id: AttemptId, path: Path)
    requires Inv(w) && path in w.owned && path in DoOwn(w, id).owned
    ensures DoOwn(w, id).owned[path] == w.owned[path]
  {
    if At(w, id, Running) {
      assert AttemptOk(w, id);
      NothingToOverwrite(w, id);
    }
  }

  /** An owned master is never overwritten: it stays as it is until it is taken out. */
  lemma OwnedIsNeverOverwritten(steps: seq<Step>, step: Step, path: Path)
    requires path in Run(steps).owned && path in Apply(Run(steps), step).owned
    ensures Apply(Run(steps), step).owned[path] == Run(steps).owned[path]
  {
    RunKeeps(steps);
    var w := Run(steps);
    if step.OnAttempt? {
      if step.step.Own? { HandoverIsFresh(w, step.id, path); } else { OwnedShrinks(w, step.id, step.step, path); }
    }
  }

  /** The counter of the wait group is the number of admitted attempts that were not counted off. */
  lemma CounterIsExact(steps: seq<Step>)
    ensures Run(steps).wg == |Run(steps).attempts|
  {
    RunKeeps(steps);
  }

  lemma AttemptsStay(w: World, id: AttemptId, step: AttemptStep, other: AttemptId)
    requires other !in w.attempts
    ensures var d := ApplyAttempt(w, id, step); other !in d.attempts && d.pending == w.pending && d.nextAttempt == w.nextAttempt
  {
  }

  /** Attempt numbers are not used again. */
  lemma AttemptsMove(w: World, step: Step, id: AttemptId)
    requires id < w.nextAttempt && id !in w.attempts && id !in w.pending
    ensures var d := Apply(w, step); id < d.nextAttempt && id !in d.attempts && id !in d.pending
  {
    if step.OnAttempt? { AttemptsStay(w, step.id, step.step, id); }
  }

  /** Each attempt is retired once: what was counted off does not come back. */
  lemma {:induction false} RetiredOnce(steps: seq<Step>, i: nat, id: AttemptId)
    requires i <= |steps|
    requires var w := Run(steps[..i]); id < w.nextAttempt && id !in w.attempts && id !in w.pending
    ensures id !in Run(steps).attempts && id !in Run(steps).pending && id < Run(steps).nextAttempt
  {
    if i == |steps| {
      assert steps[..i] == steps;
    } else {
      var before := steps[..|steps| - 1];
      assert before[..i] == steps[..i];
      RetiredOnce(before, i, id);
      AttemptsMove(Run(before), steps[|steps| - 1], id);
    }
  }

  lemma AttemptsLeaveCloser(w: World, id: AttemptId, step: AttemptStep)
    ensures ApplyAttempt(w, id, step).closer == w.closer
  {
  }

  lemma ReturnedStays(w: World, step: Step)
    requires w.closer.Returned? && w.closed
    ensures Apply(w, step).closer.Returned?
  {
    if step.OnAttempt? { AttemptsLeaveCloser(w, step.id, step.step); }
  }

  lemma {:induction false} ReturnedForGood(steps: seq<Step>, i: nat)
    requires i <= |steps| && Run(steps[..i]).closer.Returned?
    ensures Run(steps).closer.Returned?
  {
    if i == |steps| {
      assert steps[..i] == steps;
    } else {
      var before := steps[..|steps| - 1];
      assert before[..i] == steps[..i];
      ReturnedForGood(before, i);
      RunKeeps(before);
      ReturnedStays(Run(before), steps[|steps| - 1]);
    }
  }

  lemma NothingLeft(w: World)
    requires Inv(w) && w.closer.Returned?
    ensures w.attempts == map[] && w.owned == map[] && w.procs == {} && forall p :: p in w.flocks ==> w.flocks[p].Theirs?
  {
    assert forall s :: HeldBy(w, s).hold == NOTHING;
    assert forall p :: p in w.flocks && w.flocks[p].Ours? ==> LockKnown(w, p, w.flocks[p].fd);
  }

  /**
   Once the closing call of Close has returned, then and at every later moment: no attempt is admitted, no master is
   owned, no process runs, and no control lock is held by this service.
   */
  lemma AfterCloseNothingIsLeft(steps: seq<Step>, i: nat)
    requires i <= |steps| && Run(steps[..i]).closer.Returned?
    ensures var w := Run(steps);
            && w.attempts == map[] && w.owned == map[] && w.active == map[] && w.procs == {}
            && forall p :: p in w.flocks ==> w.flocks[p].Theirs?
  {
    ReturnedForGood(steps, i);
    RunKeeps(steps);
    NothingLeft(Run(steps));
    NoneActive(Run(steps));
  }
}
