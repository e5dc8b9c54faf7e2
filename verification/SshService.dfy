/**
 The same store in the source's own form: files and rows that each operation changes step by step
 (subsystems/ssh/keys.go, persistence.go). The flags are the outcomes of the database; no crash happens here.
 */
module SshService {
  import opened SessionTypes
  import opened HostEntry
  import opened HostConfig
  import opened KeyNames
  import opened SshStore
  import opened SshSafety
  import SshEffects

  datatype PutResult = Stored | KeyExists | InsertFailed

  /** Idle: the rows are in order and the configs agree; the files are the committed ones. */
  ghost predicate SettledStore(env: Env, s: Store) { RowsOk(env, s) && Clean(s) && ConfigsOk(env, s, {}) }

  class Service {
    var files: map<Path, Bytes>
    var keys: map<Path, Meta>
    var hosts: map<Dir, seq<Host>>
    var configs: map<Dir, string>

    constructor ()
      ensures Value(map[]) == EMPTY.store
    {
      files, keys, hosts, configs := map[], map[], map[], map[];
    }

    /** The store, given the bytes that were committed. */
    ghost function Value(committed: map<Path, Bytes>): Store
      reads this
    {
      Store(files, keys, hosts, configs, committed)
    }

    /** Idle: files and rows agree, and so do configs and entries. */
    ghost predicate Settled(env: Env)
      reads this
    {
      SettledStore(env, Value(files))
    }

    method Rename(source: Path, target: Path)
      requires source in files
      modifies this`files
      ensures files == Moved(old(files), source, target)
    {
      files := (files - {source})[target := files[source]];
    }

    method PutKey(env: Env, key: Path, meta: Meta, bytes: Bytes, inserted: bool) returns (r: PutResult)
      requires EnvOk(env) && Settled(env) && ValidKey(key)
      modifies this
      ensures Settled(env) && hosts == old(hosts) && configs == old(configs)
      ensures r == (if key in old(keys) || key in old(files) then KeyExists else if inserted then Stored else InsertFailed)
      ensures r.Stored? ==> files == old(files)[key := bytes] && keys == old(keys)[key := meta]
      ensures !r.Stored? ==> files == old(files) && keys == old(keys)
    {
      if key in keys || key in files { return KeyExists; }
      var stage := StagePath(env, key, meta);
      StageKind(env, key, meta);
      assert stage !in files by { if stage in files { TargetIsOrdinary(stage.1); } }
      files := files[stage := bytes];
      assert files - {stage} == old(files);
      if !inserted {
        files := files - {stage};
        return InsertFailed;
      }
      keys := keys[key := meta];
      Rename(stage, key);
      assert files == old(files)[key := bytes];
      MoreKeys(env, old(Value(files)), key, meta, bytes);
      SameConfigs(env, old(Value(files)), Value(files), {});
      return Stored;
    }

    /** Clearing a key's references, entry by entry. */
    method ClearReferences(dir: Dir, name: string)
      modifies this`hosts
      ensures hosts == if dir in old(hosts) then old(hosts)[dir := Unkeyed(old(hosts)[dir], name)] else old(hosts)
    {
      if dir !in hosts { return; }
      var entries := hosts[dir];
      var i := 0;
      while i < |entries|
        invariant 0 <= i <= |entries| == |old(hosts)[dir]| && dir in hosts
        invariant hosts == old(hosts)
        invariant forall j :: 0 <= j < i ==> entries[j] == Unkeyed(old(hosts)[dir], name)[j]
        invariant forall j :: i <= j < |entries| ==> entries[j] == old(hosts)[dir][j]
      {
        if entries[i].key == name { entries := entries[i := entries[i].(key := "")]; }
        i := i + 1;
      }
      assert entries == Unkeyed(old(hosts)[dir], name);
      hosts := hosts[dir := entries];
    }

    /** What recovery does with one entry; false when it refuses. */
    method RecoverOne(env: Env, p: Path, ghost committed: map<Path, Bytes>) returns (ok: bool)
      requires p in files
      modifies this`files
      ensures ok <==> RecoverFile(env, old(Value(committed)), p).Some?
      ensures ok ==> RecoverFile(env, old(Value(committed)), p) == Some(Value(committed))
    {
      var kind := KindOf(p.1);
      if kind.Ordinary? { return true; }
      var target := (p.0, kind.name);
      if kind.Tombstone? && target in keys {
        if target in files { return false; }
        Rename(p, target);
      } else if kind.Staged? && target in keys && StagePath(env, target, keys[target]) == p {
        Rename(p, target);
      } else {
        files := files - {p};
      }
      return true;
    }

    /**
     Startup recovery over the directory listing, in any order. It needs only that the files are those of a store that
     some crash left behind, and it ends with exactly the committed files.
     */
    method RecoverChanges(env: Env, ghost committed: map<Path, Bytes>) returns (ok: bool)
      requires EnvOk(env) && RowsOk(env, Value(committed)) && DownOk(env, Value(committed))
      modifies this`files
      ensures ok && files == committed
    {
      ok := true;
      var todo := files.Keys;
      StartKeeps(env, Value(committed));
      while ok && todo != {}
        invariant ok && RowsOk(env, Value(committed)) && RecoveringOk(env, Value(committed), todo)
        decreases |todo|
      {
        var p :| p in todo;
        RecoverStep(env, Value(committed), todo, p);
        ok := RecoverOne(env, p, committed);
        todo := todo - {p};
      }
    }

    method RenderOne(env: Env, dir: Dir, ghost todo: set<Dir>)
      requires dir in todo && ConfigsOk(env, Value(map[]), todo)
      modifies this`configs
      ensures configs == old(configs)[dir := RenderDir(env, Value(map[]), dir)]
      ensures ConfigsOk(env, Value(map[]), todo - {dir})
    {
      var entries := if dir in hosts then hosts[dir] else [];
      configs := configs[dir := env.render(dir, entries)];
      assert todo - {dir} + {dir} == todo;
      assert configs - {dir} == old(configs) - {dir};
      OneConfig(env, old(Value(map[])), Value(map[]), dir, todo - {dir});
    }

    /** Every directory that has entries or a config is rendered again. */
    method ReconcileConfigs(env: Env)
      requires EnvOk(env)
      modifies this`configs
      ensures ConfigsOk(env, Value(map[]), {}) && configs.Keys == old(hosts.Keys + configs.Keys)
    {
      var todo := hosts.Keys + configs.Keys;
      ghost var dirs := todo;
      NothingRenders(env, Value(map[]));
      while todo != {}
        invariant todo <= dirs && configs.Keys <= dirs && dirs - todo <= configs.Keys
        invariant ConfigsOk(env, Value(map[]), todo)
        decreases |todo|
      {
        var dir :| dir in todo;
        RenderOne(env, dir, todo);
        todo := todo - {dir};
      }
    }

    /** A restart after any crash: both passes, and the service is settled on the committed keys. */
    method Restart(env: Env, ghost committed: map<Path, Bytes>) returns (ok: bool)
      requires EnvOk(env) && RowsOk(env, Value(committed)) && DownOk(env, Value(committed))
      modifies this`files, this`configs
      ensures ok && Settled(env) && files == committed
    {
      ok := RecoverChanges(env, committed);
      ReconcileConfigs(env);
      RowsSame(env, old(Value(committed)), Value(committed));
      SameConfigs(env, Value(map[]), Value(committed), {});
    }

    /** The rows of a mutation, inside its transaction; the outcome is whether it may commit. */
    method MutateRows(dir: Dir, m: Mutation, ghost committed: map<Path, Bytes>) returns (ok: bool)
      modifies this`hosts, this`keys
      ensures ok <==> Mutate(old(Value(committed)), dir, m).Some?
      ensures ok ==> hosts == Mutate(old(Value(committed)), dir, m).value.hosts
      ensures ok ==> keys == Mutate(old(Value(committed)), dir, m).value.keys
    {
      var entries := if dir in hosts then hosts[dir] else [];
      match m {
        case AddHost(h) =>
          if !RefersTo(keys, dir, h) || AliasTaken(entries, h.name) { return false; }
          hosts := hosts[dir := entries + [h]];
        case UpdateHost(h) =>
          if !RefersTo(keys, dir, h) || !Listed(entries, h.name) { return false; }
          hosts := hosts[dir := Replaced(entries, h)];
        case RemoveHost(alias) =>
          if !Listed(entries, alias) { return false; }
          hosts := hosts[dir := Without(entries, alias)];
        case DropKey(name) =>
          if (dir, name) !in keys { return false; }
          ClearReferences(dir, name);
          keys := keys - {(dir, name)};
      }
      return true;
    }

    /** The transaction with its config: it commits, or rows and config are as they were. */
    method Transact(env: Env, dir: Dir, m: Mutation, ready: bool, commits: bool, ghost committed: map<Path, Bytes>) returns (ok: bool)
      modifies this`hosts, this`keys, this`configs
      ensures var after := Mutate(old(Value(committed)), dir, m);
              && (ok <==> after.Some? && ready && commits)
              && (ok ==> hosts == after.value.hosts && keys == after.value.keys &&
                         configs == old(configs)[dir := RenderDir(env, after.value, dir)])
      ensures !ok ==> hosts == old(hosts) && keys == old(keys) && configs == old(configs)
    {
      var previous := if dir in configs then Some(configs[dir]) else None;
      var savedHosts, savedKeys := hosts, keys;
      var done := MutateRows(dir, m, committed);
      if done && ready {
        var entries := if dir in hosts then hosts[dir] else [];
        configs := configs[dir := env.render(dir, entries)];
      }
      ok := done && ready && commits;
      if !ok {
        hosts, keys := savedHosts, savedKeys;
        if done && ready { configs := Restored(configs, dir, previous); }
      }
    }

    /**
     Adding, updating or removing an entry. `ready` says whether the transaction got as far as replacing the config,
     `commits` whether it committed. It has its whole effect or none, on rows and config alike.
     */
    method MutateHosts(env: Env, dir: Dir, m: Mutation, ready: bool, commits: bool) returns (ok: bool)
      requires EnvOk(env) && Settled(env) && Admissible(env, dir, m) && !m.DropKey?
      modifies this
      ensures Settled(env)
      ensures ok <==> SshEffects.Granted(old(Value(files)), dir, m) && ready && commits
      ensures ok ==> forall h :: SshEffects.Stored(HostsOf(Value(files), dir), h) <==> SshEffects.Expected(old(Value(files)), dir, m, h)
      ensures ok ==> Mutate(old(Value(files)), dir, m).Some?
      ensures ok ==> Value(files) == Mutated(env, old(Value(files)), dir, Mutate(old(Value(files)), dir, m).value)
      ensures !ok ==> Value(files) == old(Value(files))
    {
      ghost var start := Value(files);
      SshEffects.MutationSucceedsExactly(start, dir, m);
      ok := Transact(env, dir, m, ready, commits, files);
      if ok {
        MutatedSettles(env, start, dir, m);
        ghost var after := Value(files);
        forall h ensures SshEffects.Stored(HostsOf(after, dir), h) <==> SshEffects.Expected(start, dir, m, h) {
          SshEffects.MutationEffect(start, dir, m, h, dir);
        }
      }
    }

    /** Deleting a key: the file waits under its tombstone until the rows and the config are settled. */
    method DeleteKey(env: Env, dir: Dir, name: string, ready: bool, commits: bool) returns (ok: bool)
      requires EnvOk(env) && Settled(env) && Admissible(env, dir, DropKey(name))
      modifies this
      ensures Settled(env)
      ensures ok <==> (dir, name) in old(keys) && ready && commits
      ensures ok ==> forall h :: SshEffects.Stored(HostsOf(Value(files), dir), h) <==> SshEffects.Expected(old(Value(files)), dir, DropKey(name), h)
      ensures ok ==> keys == old(keys) - {(dir, name)} && files == old(files) - {(dir, name)}
      ensures ok ==> Value(files) == Mutated(env, old(Value(files)), dir, Mutate(old(Value(files)), dir, DropKey(name)).value)
      ensures !ok ==> Value(files) == old(Value(files))
    {
      ghost var start := Value(files);
      var key := (dir, name);
      var tombstone := TombstonePath(key);
      if key !in files { return false; }
      NoTombstone(env, start, key);
      if tombstone in files { return false; }
      Rename(key, tombstone);
      MutateIgnoresFiles(start, files, dir, DropKey(name));
      ok := Transact(env, dir, DropKey(name), ready, commits, start.committed);
      if ok {
        files := files - {tombstone};
        assert files == start.files - {key};
        MutatedSettles(env, start, dir, DropKey(name));
        ghost var after := Value(files);
        forall h ensures SshEffects.Stored(HostsOf(after, dir), h) <==> SshEffects.Expected(start, dir, DropKey(name), h) {
          SshEffects.MutationEffect(start, dir, DropKey(name), h, dir);
        }
      } else {
        Rename(tombstone, key);
        assert files == start.files;
      }
    }
  }

  lemma NoTombstone(env: Env, s: Store, key: Path)
    requires SettledStore(env, s) && ValidKey(key)
    ensures TombstonePath(key) !in s.files && key != TombstonePath(key)
  {
    TombstoneKind(key);
    TargetIsOrdinary(key.1);
    if TombstonePath(key) in s.files { KeyKind(env, s, TombstonePath(key)); }
  }

  /** The settled store after a committed mutation. */
  function Mutated(env: Env, s: Store, dir: Dir, after: Store): Store {
    after.(files := after.committed, configs := s.configs[dir := RenderDir(env, after, dir)])
  }

  lemma MutatedSettles(env: Env, s: Store, dir: Dir, m: Mutation)
    requires EnvOk(env) && SettledStore(env, s) && Admissible(env, dir, m) && Mutate(s, dir, m).Some?
    ensures var d := Mutated(env, s, dir, Mutate(s, dir, m).value);
            SettledStore(env, d) && d.files == s.files - (if m.DropKey? then {(dir, m.name)} else {})
  {
    var after := Mutate(s, dir, m).value;
    var d := Mutated(env, s, dir, after);
    MutateFrame(s, dir, m);
    MutateKeepsRows(env, s, dir, m);
    RowsSame(env, after, d);
    assert d.configs - {dir} == s.configs - {dir};
    OneConfig(env, s, d, dir, {});
  }

  /** Rows change the same way whatever the files are. */
  lemma MutateIgnoresFiles(s: Store, files: map<Path, Bytes>, dir: Dir, m: Mutation)
    ensures Mutate(s.(files := files), dir, m) ==
            if Mutate(s, dir, m).Some? then Some(Mutate(s, dir, m).value.(files := files)) else None
  {
  }
}
