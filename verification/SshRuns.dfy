/**
 Whole operations on keys and hosts, from one idle moment to the next, as steps of the crash-consistency protocol
 (subsystems/ssh/keys.go, persistence.go); and what the stored entries satisfy over every run.
 */
module SshRuns {
  import opened Text
  import opened SessionTypes
  import opened HostEntry
  import opened HostConfig
  import opened HostMeaning
  import opened HostReading
  import opened KeyNames
  import opened SshStore
  import opened SshSafety
  import opened SshEffects
  import SshService

  function RunFrom(env: Env, st: State, steps: seq<Step>): State
    decreases |steps|
  {
    if steps == [] then st else RunFrom(env, Apply(env, st, steps[0]), steps[1..])
  }

  lemma {:induction false} RunOn(env: Env, before: seq<Step>, steps: seq<Step>)
    ensures Run(env, before + steps) == RunFrom(env, Run(env, before), steps)
    decreases |steps|
  {
    if steps == [] {
      assert before + steps == before;
    } else {
      var one := before + [steps[0]];
      assert one[..|before|] == before && before + steps == one + steps[1..];
      RunOn(env, one, steps[1..]);
    }
  }

  // ----- putting a key

  /** The store with one more key. */
  function WithKey(s: Store, key: Path, meta: Meta, bytes: Bytes): Store {
    s.(files := s.files[key := bytes], keys := s.keys[key := meta], committed := s.committed[key := bytes])
  }

  function PutSteps(key: Path, meta: Meta, bytes: Bytes, inserted: bool): seq<Step> {
    [Put(key, meta, bytes), Insert(inserted), if inserted then Promote else Unstage]
  }

  lemma RunThree(env: Env, st: State, a: Step, b: Step, c: Step)
    ensures RunFrom(env, st, [a, b, c]) == Apply(env, Apply(env, Apply(env, st, a), b), c)
  {
    assert [a, b, c][1..] == [b, c] && [b, c][1..] == [c];
    calc {
      RunFrom(env, st, [a, b, c]);
      RunFrom(env, Apply(env, st, a), [b, c]);
      RunFrom(env, Apply(env, Apply(env, st, a), b), [c]);
      RunFrom(env, Apply(env, Apply(env, Apply(env, st, a), b), c), []);
    }
  }

  /** From an idle state, an uninterrupted put stores row and file together, or leaves everything as it was. */
  lemma PutCompletes(env: Env, before: seq<Step>, key: Path, meta: Meta, bytes: Bytes, inserted: bool)
    requires EnvOk(env) && Run(env, before).op.Idle? && ValidKey(key)
    ensures var s := Run(env, before).store;
            Run(env, before + PutSteps(key, meta, bytes, inserted)) ==
            State(if inserted && key !in s.keys then WithKey(s, key, meta, bytes) else s, Idle)
  {
    RunOn(env, before, PutSteps(key, meta, bytes, inserted));
    RunKeeps(env, before);
    RunThree(env, Run(env, before), Put(key, meta, bytes), Insert(inserted), if inserted then Promote else Unstage);
    var s := Run(env, before).store;
    if key !in s.keys {
      var stage := StagePath(env, key, meta);
      StageKind(env, key, meta);
      assert stage !in s.files by { if stage in s.files { TargetIsOrdinary(stage.1); } }
      assert s.files[stage := bytes] - {stage} == s.files;
    }
  }

  // ----- changing hosts, deleting a key

  function MutationSteps(dir: Dir, m: Mutation, ready: bool, commits: bool): seq<Step> {
    [Begin(dir, m), ReplaceConfig(ready), Commit(commits), RestoreConfig, PutBack, RemoveTombstone]
  }

  lemma RunSix(env: Env, st: State, a: Step, b: Step, c: Step, x: Step, y: Step, z: Step)
    ensures RunFrom(env, st, [a, b, c, x, y, z]) ==
            Apply(env, Apply(env, Apply(env, Apply(env, Apply(env, Apply(env, st, a), b), c), x), y), z)
  {
    assert [a, b, c, x, y, z][1..] == [b, c, x, y, z] && [b, c, x, y, z][1..] == [c, x, y, z] && [c, x, y, z][1..] == [x, y, z];
    var st3 := Apply(env, Apply(env, Apply(env, st, a), b), c);
    RunThree(env, st3, x, y, z);
    calc {
      RunFrom(env, st, [a, b, c, x, y, z]);
      RunFrom(env, Apply(env, st, a), [b, c, x, y, z]);
      RunFrom(env, Apply(env, Apply(env, st, a), b), [c, x, y, z]);
      RunFrom(env, st3, [x, y, z]);
    }
  }

  /** A transaction that did not get to its commit, or whose commit failed, leaves the rows, and then the config. */
  lemma UndoneRows(env: Env, s: Store, op: Op, ready: bool, commits: bool)
    requires op.Begun? && op.previous == PreviousConfig(s, op.dir) && (Mutate(s, op.dir, op.mutation).None? || !ready || !commits)
    ensures Apply(env, Apply(env, Apply(env, State(s, op), ReplaceConfig(ready)), Commit(commits)), RestoreConfig) ==
            State(s, PuttingBack(op.moved))
  {
    if ready && Mutate(s, op.dir, op.mutation).Some? {
      var configs := s.configs[op.dir := RenderDir(env, Mutate(s, op.dir, op.mutation).value, op.dir)];
      assert Restored(configs, op.dir, op.previous) == s.configs;
    } else {
    }
  }

  /** And a key file that was moved aside goes back. */
  lemma UndoneMove(env: Env, s: Store, dir: Dir, m: Mutation)
    requires EnvOk(env) && Inv(env, State(s, Idle)) && DoBegin(env, s, dir, m).op.Begun?
    ensures var begun := DoBegin(env, s, dir, m);
            Apply(env, State(begun.store, PuttingBack(begun.op.moved)), PutBack) == State(s, Idle)
  {
    if m.DropKey? {
      var key := (dir, m.name);
      TombstoneKind(key);
      TargetIsOrdinary(key.1);
      assert Moved(Moved(s.files, key, TombstonePath(key)), TombstonePath(key), key) == s.files;
    }
  }

  lemma UndoneMutation(env: Env, s: Store, dir: Dir, m: Mutation, ready: bool, commits: bool)
    requires EnvOk(env) && Inv(env, State(s, Idle)) && DoBegin(env, s, dir, m).op.Begun?
    requires Mutate(s, dir, m).None? || !ready || !commits
    ensures var b := Apply(env, DoBegin(env, s, dir, m), ReplaceConfig(ready));
            Apply(env, Apply(env, Apply(env, b, Commit(commits)), RestoreConfig), PutBack) == State(s, Idle)
  {
    var begun := DoBegin(env, s, dir, m);
    SshService.MutateIgnoresFiles(s, begun.store.files, dir, m);
    BegunWith(env, s, dir, m);
    UndoneRows(env, begun.store, begun.op, ready, commits);
    UndoneMove(env, s, dir, m);
  }

  lemma BegunWith(env: Env, s: Store, dir: Dir, m: Mutation)
    requires DoBegin(env, s, dir, m).op.Begun?
    ensures var begun := DoBegin(env, s, dir, m);
            && begun.op.dir == dir && begun.op.mutation == m && begun.op.previous == PreviousConfig(begun.store, dir)
            && begun.store == s.(files := begun.store.files)
  {
  }

  lemma DoneMutation(env: Env, s: Store, dir: Dir, m: Mutation)
    requires EnvOk(env) && Inv(env, State(s, Idle)) && DoBegin(env, s, dir, m).op.Begun? && Mutate(s, dir, m).Some?
    ensures var c := Apply(env, Apply(env, DoBegin(env, s, dir, m), ReplaceConfig(true)), Commit(true));
            && c.op.Finishing?
            && Apply(env, c, RemoveTombstone) == State(SshService.Mutated(env, s, dir, Mutate(s, dir, m).value), Idle)
  {
    var begun := DoBegin(env, s, dir, m);
    SshService.MutateIgnoresFiles(s, begun.store.files, dir, m);
    var after := Mutate(s, dir, m).value;
    MutateFrame(s, dir, m);
    var configs := s.configs[dir := RenderDir(env, after, dir)];
    MutateIgnoresConfigs(begun.store, configs, dir, m);
    if m.DropKey? {
      var key := (dir, m.name);
      TombstoneKind(key);
      TargetIsOrdinary(key.1);
      assert begun.store.files - {TombstonePath(key)} == s.files - {key};
    }
  }

  lemma MutateIgnoresConfigs(s: Store, configs: map<Dir, string>, dir: Dir, m: Mutation)
    ensures Mutate(s.(configs := configs), dir, m) ==
            if Mutate(s, dir, m).Some? then Some(Mutate(s, dir, m).value.(configs := configs)) else None
  {
  }

  /** Which mutations begin at all: an admissible one; and for a deletion, one of a stored key. */
  lemma BeginsExactly(env: Env, s: Store, dir: Dir, m: Mutation)
    requires EnvOk(env) && Inv(env, State(s, Idle)) && Admissible(env, dir, m)
    ensures DoBegin(env, s, dir, m).op.Begun? <==> (m.DropKey? ==> (dir, m.name) in s.keys)
    ensures !DoBegin(env, s, dir, m).op.Begun? ==> DoBegin(env, s, dir, m) == State(s, Idle)
  {
    if m.DropKey? { SshService.NoTombstone(env, s, (dir, m.name)); }
  }

  /**
   From an idle state, an uninterrupted mutation has its whole effect exactly when it is granted and the transaction gets
   through, and otherwise leaves the store as it was, configs and key files included.
   */
  lemma MutationCompletes(env: Env, before: seq<Step>, dir: Dir, m: Mutation, ready: bool, commits: bool)
    requires EnvOk(env) && Run(env, before).op.Idle? && Admissible(env, dir, m)
    ensures var s := Run(env, before).store;
            var d := Run(env, before + MutationSteps(dir, m, ready, commits));
            if Granted(s, dir, m) && ready && commits then
              Mutate(s, dir, m).Some? && d == State(SshService.Mutated(env, s, dir, Mutate(s, dir, m).value), Idle)
            else d == State(s, Idle)
  {
    RunMutation(env, before, dir, m, ready, commits);
    RunKeeps(env, before);
    MutationUndisturbed(env, Run(env, before).store, dir, m, ready, commits);
  }

  function WholeMutation(env: Env, st: State, dir: Dir, m: Mutation, ready: bool, commits: bool): State {
    var committed := Apply(env, Apply(env, Apply(env, st, Begin(dir, m)), ReplaceConfig(ready)), Commit(commits));
    Apply(env, Apply(env, Apply(env, committed, RestoreConfig), PutBack), RemoveTombstone)
  }

  lemma RunMutation(env: Env, before: seq<Step>, dir: Dir, m: Mutation, ready: bool, commits: bool)
    ensures Run(env, before + MutationSteps(dir, m, ready, commits)) == WholeMutation(env, Run(env, before), dir, m, ready, commits)
  {
    RunOn(env, before, MutationSteps(dir, m, ready, commits));
    RunSix(env, Run(env, before), Begin(dir, m), ReplaceConfig(ready), Commit(commits), RestoreConfig, PutBack, RemoveTombstone);
  }

  lemma MutationUndisturbed(env: Env, s: Store, dir: Dir, m: Mutation, ready: bool, commits: bool)
    requires EnvOk(env) && Inv(env, State(s, Idle)) && Admissible(env, dir, m)
    ensures var d := WholeMutation(env, State(s, Idle), dir, m, ready, commits);
            if Granted(s, dir, m) && ready && commits then
              Mutate(s, dir, m).Some? && d == State(SshService.Mutated(env, s, dir, Mutate(s, dir, m).value), Idle)
            else d == State(s, Idle)
  {
    MutationSucceedsExactly(s, dir, m);
    BeginsExactly(env, s, dir, m);
    if DoBegin(env, s, dir, m).op.Begun? {
      if Mutate(s, dir, m).Some? && ready && commits { DoneMutation(env, s, dir, m); } else { UndoneMutation(env, s, dir, m, ready, commits); }
    }
  }

  // ----- aliases

  predicate AliasesApart(hosts: seq<Host>) { forall i, j :: 0 <= i < j < |hosts| ==> Lower(hosts[i].name) != Lower(hosts[j].name) }

  lemma {:induction false} WithoutApart(hosts: seq<Host>, alias: string)
    requires AliasesApart(hosts)
    ensures AliasesApart(Without(hosts, alias))
    ensures forall h :: h in Without(hosts, alias) ==> h in hosts
  {
    if hosts != [] {
      WithoutApart(hosts[1..], alias);
      var rest := Without(hosts[1..], alias);
      forall h | h in rest ensures Lower(h.name) != Lower(hosts[0].name) {
        var i :| 0 <= i < |hosts[1..]| && hosts[1..][i] == h;
        assert hosts[i + 1] == h;
      }
    }
  }

  lemma MutateKeepsApart(s: Store, dir: Dir, m: Mutation, other: Dir)
    requires Mutate(s, dir, m).Some? && AliasesApart(HostsOf(s, other))
    ensures AliasesApart(HostsOf(Mutate(s, dir, m).value, other))
  {
    if other == dir && m.RemoveHost? { WithoutApart(HostsOf(s, dir), m.alias); }
  }

  lemma HostsMove(env: Env, st: State, step: Step)
    ensures var d := Apply(env, st, step);
            || d.store.hosts == st.store.hosts
            || (st.op.Rendered? && Mutate(st.store, st.op.dir, st.op.mutation).Some? &&
                d.store.hosts == Mutate(st.store, st.op.dir, st.op.mutation).value.hosts)
  {
    if step.RecoverEntry? && st.op.Recovering? { RecoverKeepsHosts(env, st.store, step.path); }
  }

  lemma RecoverKeepsHosts(env: Env, s: Store, p: Path)
    ensures RecoverFile(env, s, p).Some? ==> RecoverFile(env, s, p).value.hosts == s.hosts
  {
  }

  /** Over every run, also between crashes: no two entries of a principal have aliases that differ by case only. */
  lemma {:induction false} AliasesStayApart(env: Env, steps: seq<Step>, dir: Dir)
    ensures AliasesApart(HostsOf(Run(env, steps).store, dir))
  {
    if steps != [] {
      var st := Run(env, steps[..|steps| - 1]);
      AliasesStayApart(env, steps[..|steps| - 1], dir);
      HostsMove(env, st, steps[|steps| - 1]);
      if st.op.Rendered? && Mutate(st.store, st.op.dir, st.op.mutation).Some? {
        MutateKeepsApart(st.store, st.op.dir, st.op.mutation, dir);
      }
    }
  }

  /**
   Whenever the service is idle, the config file of a principal, read back line by line, gives under the alias of each
   stored entry and for every key exactly the values that entry says, and nothing under any other alias.
   */
  lemma IdleConfigsReadBack(digest: (Dir, string, Meta) -> string, root: string, steps: seq<Step>, dir: Dir, alias: string, x: string)
    requires OneLine(root) && OneLine(dir) && (forall d, n, m :: HexDigest(digest(d, n, m))) && x != ""
    requires Run(SourceEnv(digest, root), steps).op.Idle?
    ensures var s := Run(SourceEnv(digest, root), steps).store;
            var said := Says(Split(ConfigText(s, dir), '\n'), alias, x, false);
            && (forall h :: Stored(HostsOf(s, dir), h) && h.name == alias ==> said == Said(KEYS, h, KeyPath(root, dir, h.key), x))
            && (!HasEntry(HostsOf(s, dir), alias) ==> said == [])
  {
    var env := SourceEnv(digest, root);
    var s := Run(env, steps).store;
    var hosts := HostsOf(s, dir);
    SourceEnvOk(digest, root);
    RunKeeps(env, steps);
    StorableEntries(env, s, dir);
    OptionsArePlain();
    IdleConfigs(digest, root, steps, dir, alias);
    AliasesStayApart(env, steps, dir);
    forall i, j | 0 <= i < j < |hosts| ensures hosts[i].name != hosts[j].name { assert Lower(hosts[i].name) != Lower(hosts[j].name); }
    RenderedReadsBack(OPTIONS, root, dir, hosts, alias, x);
    ListedIsStored(hosts, alias);
  }
}
