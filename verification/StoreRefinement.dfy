/**
 The reconciliation pass of the store refines the protocol: a pass over the sessions it read is a run of the merge steps
 of the processes that watched them, and its one save is the outcome of all these steps.
 */
module StoreRefinement {
  import opened SessionCycles
  import opened SessionProtocol
  import opened SessionInvariant
  import opened SessionTheorems

  function DbOf(w: World): Db { Db(w.core.sessions, w.runs) }

  predicate KeyedDb(db: Db) { forall id :: id in db.sessions ==> db.sessions[id].id == id }

  function MergeStep(pid: Pid, m: Watch, saved: bool): WatchStep { MergeWatched(pid, m.now, m.removed, m.fault, m.trace, saved) }

  /** The process has watched the session and the time was never given. */
  predicate Watches(w: World, pid: Pid, m: Watch) {
    At(w, pid) && w.core.procs[pid] == Watched(m.snapshot, m.candidate) && m.now !in w.core.taken
  }

  lemma MergeIsStep(w: World, pid: Pid, m: Watch, saved: bool)
    requires KeyedDb(DbOf(w)) && Watches(w, pid, m)
    ensures var d := ApplyWatch(w, MergeStep(pid, m, saved));
            && DbOf(d) == (if saved then MergeOne(DbOf(w), m) else DbOf(w))
            && d.core.procs == w.core.procs - {pid} && d.core.taken <= w.core.taken + {m.now} && KeyedDb(DbOf(d))
  {
    if MergesOne(DbOf(w), m) { if saved {} else {} } else {}
  }

  /** The steps of a pass, in its order. */
  function Pass(w: World, pids: seq<Pid>, ms: seq<Watch>, saved: bool): World
    requires |pids| == |ms|
    decreases |ms|
  {
    if ms == [] then w
    else ApplyWatch(Pass(w, pids[..|pids| - 1], ms[..|ms| - 1], saved), MergeStep(pids[|pids| - 1], ms[|ms| - 1], saved))
  }

  /** One process and one time for each session. */
  predicate Prepared(w: World, pids: seq<Pid>, ms: seq<Watch>) {
    && |pids| == |ms| && (forall i :: 0 <= i < |ms| ==> Watches(w, pids[i], ms[i]))
    && (forall i, j :: 0 <= i < j < |ms| ==> pids[i] != pids[j] && ms[i].now != ms[j].now)
  }

  /** The steps of the others do not touch what a process has watched, nor its time. */
  predicate Passed(w: World, d: World, pids: seq<Pid>, ms: seq<Watch>) {
    && (forall p :: p in w.core.procs && p !in pids ==> p in d.core.procs && d.core.procs[p] == w.core.procs[p])
    && (forall t :: t in d.core.taken ==> t in w.core.taken || exists i :: 0 <= i < |ms| && ms[i].now == t)
  }

  lemma LastWatches(w: World, d: World, pids: seq<Pid>, ms: seq<Watch>)
    requires Prepared(w, pids, ms) && ms != [] && Passed(w, d, pids[..|ms| - 1], ms[..|ms| - 1])
    ensures Watches(d, pids[|ms| - 1], ms[|ms| - 1])
  {
  }

  lemma PassedMore(w: World, d: World, e: World, pids: seq<Pid>, ms: seq<Watch>)
    requires |pids| == |ms| && ms != [] && Passed(w, d, pids[..|ms| - 1], ms[..|ms| - 1])
    requires e.core.procs == d.core.procs - {pids[|ms| - 1]} && e.core.taken <= d.core.taken + {ms[|ms| - 1].now}
    ensures Passed(w, e, pids, ms)
  {
  }

  /** A pass whose save works has merged everything, a pass whose save fails nothing. */
  predicate PassDone(w: World, d: World, pids: seq<Pid>, ms: seq<Watch>, saved: bool) {
    DbOf(d) == (if saved then MergeAll(DbOf(w), ms) else DbOf(w)) && KeyedDb(DbOf(d)) && Passed(w, d, pids, ms)
  }

  lemma PassStep(w: World, d: World, pids: seq<Pid>, ms: seq<Watch>, saved: bool)
    requires Prepared(w, pids, ms) && ms != [] && PassDone(w, d, pids[..|ms| - 1], ms[..|ms| - 1], saved)
    ensures PassDone(w, ApplyWatch(d, MergeStep(pids[|ms| - 1], ms[|ms| - 1], saved)), pids, ms, saved)
  {
    var n := |ms| - 1;
    LastWatches(w, d, pids, ms);
    MergeIsStep(d, pids[n], ms[n], saved);
    PassedMore(w, d, ApplyWatch(d, MergeStep(pids[n], ms[n], saved)), pids, ms);
  }

  lemma PreparedBefore(w: World, pids: seq<Pid>, ms: seq<Watch>)
    requires Prepared(w, pids, ms) && ms != []
    ensures Prepared(w, pids[..|ms| - 1], ms[..|ms| - 1])
  {
  }

  lemma {:induction false} PassIsRun(w: World, pids: seq<Pid>, ms: seq<Watch>, saved: bool)
    requires KeyedDb(DbOf(w)) && Prepared(w, pids, ms)
    ensures PassDone(w, Pass(w, pids, ms, saved), pids, ms, saved)
    decreases |ms|
  {
    if ms != [] {
      var n := |ms| - 1;
      PreparedBefore(w, pids, ms);
      PassIsRun(w, pids[..n], ms[..n], saved);
      PassStep(w, Pass(w, pids[..n], ms[..n], saved), pids, ms, saved);
    }
  }

  /** The run that the pass is: it leads from a reachable world to a reachable world. */
  function PassSteps(pids: seq<Pid>, ms: seq<Watch>, saved: bool): seq<Step>
    requires |pids| == |ms|
    decreases |ms|
  {
    if ms == [] then [] else PassSteps(pids[..|pids| - 1], ms[..|ms| - 1], saved) + [OnWatch(MergeStep(pids[|pids| - 1], ms[|ms| - 1], saved))]
  }

  lemma RunMore(steps: seq<Step>, step: WatchStep)
    ensures Run(steps + [OnWatch(step)]) == ApplyWatch(Run(steps), step)
  {
    assert (steps + [OnWatch(step)])[..|steps|] == steps;
  }

  lemma {:induction false} PassIsReached(steps: seq<Step>, pids: seq<Pid>, ms: seq<Watch>, saved: bool)
    requires |pids| == |ms|
    ensures Run(steps + PassSteps(pids, ms, saved)) == Pass(Run(steps), pids, ms, saved)
    decreases |ms|
  {
    if ms == [] {
      assert steps + [] == steps;
    } else {
      var n := |ms| - 1;
      var before, last := PassSteps(pids[..n], ms[..n], saved), MergeStep(pids[n], ms[n], saved);
      PassIsReached(steps, pids[..n], ms[..n], saved);
      RunMore(steps + before, last);
      assert steps + (before + [OnWatch(last)]) == steps + before + [OnWatch(last)];
    }
  }

  /**
   From every state the protocol reaches, the store after the pass is the store after the merge steps of the processes
   that watched the sessions, in the order of the pass: all of them saved, or none of them.
   */
  lemma PassRefines(steps: seq<Step>, pids: seq<Pid>, ms: seq<Watch>, saved: bool)
    requires Prepared(Run(steps), pids, ms)
    ensures DbOf(Run(steps + PassSteps(pids, ms, saved))) == (if saved then MergeAll(DbOf(Run(steps)), ms) else DbOf(Run(steps)))
  {
    RunsAreSafe(steps);
    assert RecordsOk(Run(steps).core);
    PassIsRun(Run(steps), pids, ms, saved);
    PassIsReached(steps, pids, ms, saved);
  }
}
