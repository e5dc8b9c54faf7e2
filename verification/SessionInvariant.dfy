/** What every step of the session protocol keeps, whatever the scheduler, the disk and the clients do. */
module SessionInvariant {
  import opened SessionTypes
  import opened Reconciliation
  import opened SessionCycles
  import opened SessionProtocol

  // ----- versions

  /** The version check: two stored versions of an id with equal stamp and phase are the same record. */
  predicate UniqueVersions(hist: set<Session>) {
    forall a, b :: a in hist && b in hist && a.id == b.id && a.updatedAt == b.updatedAt && a.phase == b.phase ==> a == b
  }

  predicate SameRun(a: Session, b: Session) { a.id == b.id && a.life == b.life && a.seqNo == b.seqNo }

  /**
   How a stored version `v` relates to the record `c` that is stored now under its id. They share a stamp only when
   they are the same, or when a failed cleanup turned the terminal `v` into a stopping record. Lives and, within a life,
   seqs only grow; the owner stays; and within one seq a settled run stays settled and Submitting is not re-entered.
   */
  predicate Precedes(v: Session, c: Session) {
    && (v.updatedAt == c.updatedAt ==> v == c || (c.phase == Stopping && Terminal(v.phase)))
    && v.life <= c.life
    && (v.life == c.life ==> v.owner == c.owner && v.seqNo <= c.seqNo)
    && (v.life == c.life && v.seqNo == c.seqNo ==> (Settled(v.phase) ==> Settled(c.phase)) &&
                                                   (c.phase == Submitting ==> v.phase == Submitting))
  }

  predicate Latest(hist: set<Session>, c: Session) {
    c in hist && forall v :: v in hist && v.id == c.id ==> Precedes(v, c)
  }

  /** No version carries this time yet. */
  predicate Unused(hist: set<Session>, t: int) { forall v :: v in hist ==> v.updatedAt != t }

  predicate HistoryOk(c: Core) {
    && UniqueVersions(c.hist)
    && (forall t :: t in c.stamped ==> t in c.taken && Unused(c.hist, t))
    && (forall v :: v in c.hist ==> v.updatedAt in c.taken && v.life < c.nextLife && (v.seqNo == 0 ==> v.phase == Stopped))
  }

  predicate RecordsOk(c: Core) {
    forall id :: id in c.sessions ==> c.sessions[id].id == id && Latest(c.hist, c.sessions[id])
  }

  // ----- processes

  /** Nothing was launched under this id since the launch lock was taken on a terminal record. */
  predicate Quiet(sessions: map<Id, Session>, id: Id) { id in sessions ==> Settled(sessions[id].phase) }

  /** A launch that stored its intent finds its own seq, or a record of a later life that never launched. */
  predicate OwnRun(sessions: map<Id, Session>, intent: Session) {
    intent.id in sessions ==>
      var c := sessions[intent.id];
      (c.life == intent.life ==> c.seqNo == intent.seqNo) && (c.life != intent.life ==> Settled(c.phase))
  }

  /** No later life of the id was ever launched: all its versions are settled. */
  predicate NeverLaunchedLater(hist: set<Session>, intent: Session) {
    forall v :: v in hist && v.id == intent.id && v.life > intent.life ==> Settled(v.phase)
  }

  predicate Sent(c: Core, intent: Session) {
    intent in c.hist && intent.seqNo >= 1 && OwnRun(c.sessions, intent) && NeverLaunchedLater(c.hist, intent)
  }

  predicate Reserved(hist: set<Session>, intent: Session) {
    forall v :: v in hist && v.id == intent.id ==> v.updatedAt != intent.updatedAt
  }

  predicate IntentOk(launcher: Launcher, prev: Session, intent: Session) {
    intent == Intent(launcher, intent.spec, prev, intent.tunnel, intent.updatedAt)
  }

  predicate ProcOk(c: Core, q: Proc) {
    match q
    case Retiring(_, s) => s in c.hist && Terminal(s.phase)
    case Freezing(_, s) => s in c.hist && Terminal(s.phase)
    case Waiting(_, s) => s in c.hist && Terminal(s.phase)
    case Preparing(_, s) => s in c.hist && Terminal(s.phase)
    case Claimed(_, s, prev) =>
      s in c.hist && prev in c.hist && prev.id == s.id && prev.owner == s.owner && Terminal(prev.phase) && Quiet(c.sessions, s.id)
    case Issued(launcher, prev, intent) =>
      && prev in c.hist && Terminal(prev.phase) && IntentOk(launcher, prev, intent)
      && intent.updatedAt in c.taken && intent.updatedAt !in c.stamped && Reserved(c.hist, intent) && Quiet(c.sessions, prev.id)
    case Unissuing(intent) => intent.life < c.nextLife && Quiet(c.sessions, intent.id)
    case Submitted(intent) => Sent(c, intent)
    case Provisioned(intent) => Sent(c, intent)
    case Abandoning(intent) => Sent(c, intent)
    case Abandoned(intent, _) => Sent(c, intent)
    case Returned(intent, _) => Sent(c, intent)
    case Cancelling(intent, _, _) => intent in c.hist
    case Noting(intent, _, _) => intent in c.hist
    case StopReleasing(s) => s in c.hist && Settled(s.phase)
    case StopUnlinking(s, _) => s in c.hist && Settled(s.phase)
    case StopObserving(s, _) => s in c.hist && Settled(s.phase)
    case StopFinishing(s, cand, _) => s in c.hist && Settled(s.phase) && Computed(s, cand)
    case Deleting(s) => s in c.hist && Terminal(s.phase) && (s.id in c.sessions ==> c.sessions[s.id].life > s.life)
    case Watching(s) => s in c.hist
    case Watched(s, cand) => s in c.hist && Computed(s, cand)
    case Linking(s) => s in c.hist
    case Registered(s) => s in c.hist
    case Linked(s) => s in c.hist
  }

  predicate ProcsOk(c: Core) {
    forall p :: p in c.procs ==> ProcOk(c, c.procs[p])
  }

  predicate LocksOk(procs: map<Pid, Proc>) {
    forall p, q :: p in procs && q in procs && HoldsLock(procs[p]) && HoldsLock(procs[q]) && ProcId(procs[p]) == ProcId(procs[q])
                   ==> p == q
  }

  predicate Inv(c: Core) { HistoryOk(c) && RecordsOk(c) && ProcsOk(c) && LocksOk(c.procs) }

  // ----- the kinds of record a cycle may store

  /** No launch has taken this time. */
  predicate Unclaimed(procs: map<Pid, Proc>, t: int) { forall p :: p in procs && procs[p].Issued? ==> procs[p].intent.updatedAt != t }

  /** Define stores the first record of a life, under the stamp it took. */
  predicate Born(c: Core, r: Session, now: int) {
    && r.id !in c.sessions && r.life == c.nextLife && r.seqNo == 0 && r.phase == Stopped
    && r.updatedAt == now && now in c.taken && r.updatedAt !in c.stamped && Unused(c.hist, r.updatedAt) && Unclaimed(c.procs, r.updatedAt)
  }

  /** A launch stores the seq after a terminal record, under the stamp it reserved, while no one else may launch. */
  predicate Launches(c: Core, r: Session) {
    r.id in c.sessions &&
    var prev := c.sessions[r.id];
    && r.life == prev.life && r.owner == prev.owner && r.seqNo == prev.seqNo + 1 && Terminal(prev.phase)
    && (r.phase == Submitting || r.phase == Queued) && r.updatedAt in c.taken && r.updatedAt !in c.stamped
    && Reserved(c.hist, r) && LockFree(c.procs, r.id)
  }

  /** AdoptRuns moves a record that never ran to the last adopted run. */
  predicate Adopts(c: Core, r: Session, now: int) {
    r.id in c.sessions &&
    var prev := c.sessions[r.id];
    && r.life == prev.life && r.owner == prev.owner && prev.seqNo == 0 && 1 <= r.seqNo <= 50 && Terminal(r.phase)
    && r.updatedAt == now && now !in c.taken
  }

  /** Any other cycle revises the record of the current run under a new stamp. */
  predicate Revises(c: Core, r: Session, now: int) {
    r.id in c.sessions && SameRun(c.sessions[r.id], r) && c.sessions[r.id].owner == r.owner &&
    (Settled(c.sessions[r.id].phase) ==> Settled(r.phase)) &&
    (r.phase == Submitting ==> c.sessions[r.id].phase == Submitting) &&
    (r.seqNo == 0 ==> r.phase == Stopped) && r.updatedAt == now && now !in c.taken
  }

  /** Or it leaves the record alone, or it undoes its end after a failed cleanup, under the same stamp. */
  predicate Undoes(c: Core, r: Session, now: int) {
    r.id in c.sessions &&
    (r == c.sessions[r.id] ||
     (Terminal(c.sessions[r.id].phase) && r.seqNo != 0 && r == c.sessions[r.id].(phase := Stopping, error := r.error)))
  }

  predicate Legal(c: Core, r: Session, now: int) {
    Born(c, r, now) || (Launches(c, r) && now == r.updatedAt) || Adopts(c, r, now) || Revises(c, r, now) || Undoes(c, r, now)
  }

  // ----- the invariant survives each effect

  lemma LatestAfterPut(c: Core, r: Session, now: int)
    requires Inv(c) && Legal(c, r, now)
    ensures Latest(c.hist + {r}, r)
  {
  }

  lemma NoClash(c: Core, r: Session, now: int, v: Session)
    requires Inv(c) && Legal(c, r, now)
    requires v in c.hist && v.id == r.id && v.updatedAt == r.updatedAt && v.phase == r.phase
    ensures v == r
  {
    assert r.id in c.sessions ==> Latest(c.hist, c.sessions[r.id]);
  }

  lemma HistoryAfterPut(c: Core, r: Session, now: int)
    requires Inv(c) && Legal(c, r, now)
    ensures HistoryOk(Put(c, r, now))
  {
    forall v | v in c.hist && v.id == r.id && v.updatedAt == r.updatedAt && v.phase == r.phase ensures v == r {
      NoClash(c, r, now, v);
    }
  }

  lemma LatestStays(hist: set<Session>, s: Session, r: Session)
    requires Latest(hist, s) && s.id != r.id
    ensures Latest(hist + {r}, s)
  {
  }

  lemma RecordsAfterPut(c: Core, r: Session, now: int)
    requires Inv(c) && Legal(c, r, now)
    ensures RecordsOk(Put(c, r, now))
  {
    LatestAfterPut(c, r, now);
    forall id | id in c.sessions && id != r.id ensures Latest(c.hist + {r}, c.sessions[id]) {
      LatestStays(c.hist, c.sessions[id], r);
    }
  }

  lemma QuietAfterPut(c: Core, r: Session, now: int, id: Id)
    requires Inv(c) && Legal(c, r, now) && Quiet(c.sessions, id) && !LockFree(c.procs, id)
    ensures Quiet(Put(c, r, now).sessions, id)
  {
  }

  lemma OwnRunAfterPut(c: Core, r: Session, now: int, intent: Session)
    requires Inv(c) && Legal(c, r, now) && Sent(c, intent) && !LockFree(c.procs, intent.id)
    ensures Sent(Put(c, r, now), intent)
  {
  }

  /** The one place the launch lock matters: no other process can store a launch under a locked id. */
  lemma ProcAfterPut(c: Core, r: Session, now: int, p: Pid)
    requires Inv(c) && Legal(c, r, now) && p in c.procs
    ensures ProcOk(Put(c, r, now), c.procs[p])
  {
    var q := c.procs[p];
    assert ProcOk(c, q);
    if HoldsLock(q) {
      assert !LockFree(c.procs, ProcId(q));
      if q.Submitted? || q.Provisioned? || q.Abandoning? || q.Abandoned? || q.Returned? {
        OwnRunAfterPut(c, r, now, q.intent);
      } else if q.Claimed? || q.Issued? || q.Unissuing? {
        QuietAfterPut(c, r, now, ProcId(q));
      }
    }
  }

  lemma PutKeeps(c: Core, r: Session, now: int)
    requires Inv(c) && Legal(c, r, now)
    ensures Inv(Put(c, r, now))
  {
    HistoryAfterPut(c, r, now);
    RecordsAfterPut(c, r, now);
    forall p | p in c.procs ensures ProcOk(Put(c, r, now), c.procs[p]) {
      ProcAfterPut(c, r, now, p);
    }
  }

  lemma LeaveKeeps(c: Core, pid: Pid)
    requires Inv(c)
    ensures Inv(Leave(c, pid))
  {
    forall p | p in Leave(c, pid).procs ensures ProcOk(Leave(c, pid), c.procs[p]) {
      assert ProcOk(c, c.procs[p]);
    }
  }

  lemma EnterLocks(procs: map<Pid, Proc>, pid: Pid, q: Proc)
    requires LocksOk(procs) && (HoldsLock(q) ==> LockFree(procs - {pid}, ProcId(q)))
    ensures LocksOk(procs[pid := q])
  {
    var after, others := procs[pid := q], procs - {pid};
    assert forall p :: p in after && p != pid ==> p in others && others[p] == after[p];
  }

  lemma EnterKeeps(c: Core, pid: Pid, q: Proc)
    requires Inv(c) && ProcOk(c, q)
    requires HoldsLock(q) ==> LockFree(c.procs - {pid}, ProcId(q))
    ensures Inv(Enter(c, pid, q))
  {
    var after := Enter(c, pid, q);
    forall p | p in after.procs ensures ProcOk(after, after.procs[p]) {
      if p == pid { SameProcOk(c, after, q); } else { SameProcOk(c, after, c.procs[p]); }
    }
    EnterLocks(c.procs, pid, q);
  }

  /** What a process knows does not depend on the other processes. */
  lemma SameProcOk(c: Core, d: Core, q: Proc)
    requires ProcOk(c, q) && d.sessions == c.sessions && d.hist == c.hist && d.stamped == c.stamped && c.taken <= d.taken && d.nextLife == c.nextLife
    ensures ProcOk(d, q)
  {
  }

  lemma TickKeeps(c: Core, now: int)
    requires Inv(c)
    ensures Inv(Tick(c, now))
  {
    forall p | p in c.procs ensures ProcOk(Tick(c, now), c.procs[p]) {
      assert ProcOk(c, c.procs[p]);
    }
  }

  lemma RemoveKeeps(c: Core, id: Id)
    requires Inv(c)
    ensures Inv(c.(sessions := c.sessions - {id}))
  {
    var after := c.(sessions := c.sessions - {id});
    forall p | p in c.procs ensures ProcOk(after, c.procs[p]) {
      assert ProcOk(c, c.procs[p]);
    }
  }

  /** Holding the lock excludes every other holder. */
  lemma HolderIsAlone(c: Core, pid: Pid)
    requires LocksOk(c.procs) && pid in c.procs && HoldsLock(c.procs[pid])
    ensures LockFree(c.procs - {pid}, ProcId(c.procs[pid]))
  {
  }

  lemma StoreKeeps(c: Core, pid: Pid, r: Session, now: int, q: Option<Proc>)
    requires Inv(c) && Legal(Leave(c, pid), r, now)
    requires q.Some? ==> ProcOk(Put(c, r, now), q.value) && (HoldsLock(q.value) ==> LockFree(c.procs - {pid}, ProcId(q.value)))
    ensures Inv(Store(c, pid, r, now, q))
  {
    LeaveKeeps(c, pid);
    PutKeeps(Leave(c, pid), r, now);
    if q.Some? {
      var stored := Put(Leave(c, pid), r, now);
      assert ProcOk(stored, q.value);
      assert stored.procs - {pid} == c.procs - {pid};
      EnterKeeps(stored, pid, q.value);
    }
  }
}
