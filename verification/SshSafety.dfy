/** Every run of the SSH store, with a crash after any step, recovers to a state in which files, rows and configs agree. */
module SshSafety {
  import opened SessionTypes
  import opened HostEntry
  import opened HostConfig
  import opened KeyNames
  import opened SshStore

  // ----- rows

  ghost predicate EntriesOk(env: Env, keys: map<Path, Meta>, dir: Dir, hosts: seq<Host>) {
    forall i :: 0 <= i < |hosts| ==> env.entry(hosts[i]) && RefersTo(keys, dir, hosts[i])
  }

  /** Every key row has the bytes of a committed put; every host entry is well formed and refers to a stored key or none. */
  ghost predicate RowsOk(env: Env, s: Store) {
    && s.keys.Keys == s.committed.Keys
    && (forall k :: k in s.committed ==> ValidKey(k))
    && (forall dir :: dir in s.hosts ==> EntriesOk(env, s.keys, dir, s.hosts[dir]))
  }

  // ----- files

  /** No write or deletion is pending: the files are exactly the committed keys. */
  predicate Clean(s: Store) { s.files == s.committed }

  function PendingKey(p: Path): Option<Path> {
    match KindOf(p.1)
    case Ordinary => None
    case Staged(name) => Some((p.0, name))
    case Tombstone(name) => Some((p.0, name))
  }

  /** One file too many: a staged write that did not commit, or the tombstone of a deletion that did. */
  predicate Loose(s: Store, p: Path) {
    p in s.files && PendingKey(p).Some? && PendingKey(p).value !in s.keys && s.files - {p} == s.committed
  }

  /** One file under the wrong name: a staged write that committed, or the tombstone of a deletion that did not. */
  predicate Bound(env: Env, s: Store, p: Path) {
    p in s.files && PendingKey(p).Some? &&
    var k := PendingKey(p).value;
    && k in s.keys && k in s.committed && k !in s.files && s.files - {p} == s.committed - {k} && s.files[p] == s.committed[k]
    && (KindOf(p.1).Staged? ==> p == StagePath(env, k, s.keys[k]))
  }

  predicate Pending(env: Env, s: Store, p: Path) { Loose(s, p) || Bound(env, s, p) }

  lemma StageKind(env: Env, key: Path, meta: Meta)
    requires EnvOk(env) && ValidKey(key)
    ensures PendingKey(StagePath(env, key, meta)) == Some(key) && KindOf(StagePath(env, key, meta).1).Staged?
  {
    StageDecodes(key.1, env.digest(key.0, key.1, meta));
  }

  lemma TombstoneKind(key: Path)
    requires ValidKey(key)
    ensures PendingKey(TombstonePath(key)) == Some(key) && KindOf(TombstonePath(key).1).Tombstone?
  {
    TombstoneDecodes(key.1);
  }

  lemma KeyKind(env: Env, s: Store, k: Path)
    requires RowsOk(env, s) && k in s.committed
    ensures PendingKey(k).None? && ValidKey(k)
  {
    TargetIsOrdinary(k.1);
  }

  /** Recovery settles the pending file. */
  lemma RecoverPending(env: Env, s: Store, p: Path)
    requires RowsOk(env, s) && Pending(env, s, p)
    ensures RecoverFile(env, s, p).Some? && RecoverFile(env, s, p).value == s.(files := s.committed)
  {
    var k := PendingKey(p).value;
    if Loose(s, p) {
      assert RecoverFile(env, s, p) == Some(s.(files := s.files - {p}));
    } else {
      assert RecoverFile(env, s, p) == Some(s.(files := Moved(s.files, p, k)));
      assert (s.committed - {k})[k := s.committed[k]] == s.committed;
    }
  }

  /** Recovery leaves every other file alone. */
  lemma RecoverOther(env: Env, s: Store, p: Path, q: Path)
    requires RowsOk(env, s) && q in s.files && (Clean(s) || (Pending(env, s, p) && q != p))
    ensures RecoverFile(env, s, q) == Some(s)
  {
    assert q in s.committed by { if !Clean(s) { assert q in s.files - {p}; } }
    KeyKind(env, s, q);
  }

  // ----- configs

  ghost predicate ConfigOk(env: Env, s: Store, dir: Dir) { ConfigText(s, dir) == RenderDir(env, s, dir) }

  ghost predicate ConfigsOk(env: Env, s: Store, except: set<Dir>) { forall dir :: dir !in except ==> ConfigOk(env, s, dir) }

  lemma SameConfigs(env: Env, s: Store, d: Store, except: set<Dir>)
    requires ConfigsOk(env, s, except) && d.hosts == s.hosts && d.configs == s.configs
    ensures ConfigsOk(env, d, except)
  {
    forall dir | dir !in except ensures ConfigOk(env, d, dir) { assert ConfigOk(env, s, dir); }
  }

  /** One directory's config changes. */
  lemma OneConfig(env: Env, s: Store, d: Store, dir: Dir, except: set<Dir>)
    requires ConfigsOk(env, s, except + {dir}) && d.hosts - {dir} == s.hosts - {dir} && d.configs - {dir} == s.configs - {dir}
    requires ConfigOk(env, d, dir)
    ensures ConfigsOk(env, d, except)
  {
    forall x | x !in except ensures ConfigOk(env, d, x) {
      if x != dir {
        assert ConfigOk(env, s, x);
        assert (x in s.hosts <==> x in s.hosts - {dir}) && (x in d.hosts <==> x in d.hosts - {dir});
        assert (x in s.configs <==> x in s.configs - {dir}) && (x in d.configs <==> x in d.configs - {dir});
        assert x in s.hosts ==> d.hosts[x] == (d.hosts - {dir})[x] == s.hosts[x];
        assert x in s.configs ==> d.configs[x] == (d.configs - {dir})[x] == s.configs[x];
      }
    }
  }

  /** A directory without rows and without a config agrees: nothing renders to the empty text. */
  lemma NothingRenders(env: Env, s: Store)
    requires EnvOk(env)
    ensures ConfigsOk(env, s, Dirs(s))
  {
    forall dir | dir !in Dirs(s) ensures ConfigOk(env, s, dir) { assert env.render(dir, []) == ""; }
  }

  // ----- the invariant

  /** The files while a mutation is under way: clean, or the moved key stands under its tombstone. */
  predicate MovedOk(env: Env, s: Store, moved: Option<Path>) {
    if moved.None? then Clean(s)
    else ValidKey(moved.value) && Bound(env, s, TombstonePath(moved.value))
  }

  predicate PreviousOk(env: Env, s: Store, dir: Dir, previous: Option<string>) {
    (if previous.Some? then previous.value else "") == RenderDir(env, s, dir)
  }

  /** What is pending, if anything, is still to be visited. */
  ghost predicate RecoveringOk(env: Env, s: Store, todo: set<Path>) {
    todo <= s.files.Keys && (Clean(s) || exists p :: p in todo && Pending(env, s, p))
  }

  /** At most one file is pending. */
  ghost predicate DownOk(env: Env, s: Store) { Clean(s) || exists p :: Pending(env, s, p) }

  ghost predicate OpOk(env: Env, s: Store, op: Op) {
    match op
    case Idle => Clean(s) && ConfigsOk(env, s, {})
    case Staging(key, meta, bytes) =>
      && ValidKey(key) && key !in s.keys && Loose(s, StagePath(env, key, meta)) && s.files[StagePath(env, key, meta)] == bytes
      && key !in s.files && ConfigsOk(env, s, {})
    case Promoting(key, meta) => ValidKey(key) && Bound(env, s, StagePath(env, key, meta)) && ConfigsOk(env, s, {})
    case Unstaging(key, meta) => ValidKey(key) && Loose(s, StagePath(env, key, meta)) && ConfigsOk(env, s, {})
    case Begun(dir, previous, moved, m) =>
      && MovedOk(env, s, moved) && ConfigsOk(env, s, {}) && PreviousOk(env, s, dir, previous) && Admissible(env, dir, m)
      && moved == (if m.DropKey? then Some((dir, m.name)) else None)
    case Rendered(dir, previous, moved, m) =>
      && MovedOk(env, s, moved) && ConfigsOk(env, s, {dir}) && PreviousOk(env, s, dir, previous) && Admissible(env, dir, m)
      && moved == (if m.DropKey? then Some((dir, m.name)) else None)
      && Mutate(s, dir, m).Some? && ConfigText(s, dir) == RenderDir(env, Mutate(s, dir, m).value, dir)
    case Failing(dir, previous, moved, attempted) =>
      && MovedOk(env, s, moved) && ConfigsOk(env, s, if attempted then {dir} else {}) && PreviousOk(env, s, dir, previous)
    case PuttingBack(moved) => MovedOk(env, s, moved) && ConfigsOk(env, s, {})
    case Finishing(moved) =>
      && ConfigsOk(env, s, {})
      && (if moved.None? then Clean(s) else ValidKey(moved.value) && Loose(s, TombstonePath(moved.value)))
    case Recovering(todo) => RecoveringOk(env, s, todo)
    case Rendering(dirs) => Clean(s) && ConfigsOk(env, s, dirs)
    case Refused => false
    case Down => DownOk(env, s)
  }

  ghost predicate Inv(env: Env, st: State) { RowsOk(env, st.store) && OpOk(env, st.store, st.op) }

  // ----- writing a key

  lemma PutKeeps(env: Env, s: Store, key: Path, meta: Meta, bytes: Bytes)
    requires EnvOk(env) && Inv(env, State(s, Idle))
    ensures Inv(env, DoPut(env, s, key, meta, bytes))
  {
    if ValidKey(key) && key !in s.keys && key !in s.files {
      var stage := StagePath(env, key, meta);
      StageKind(env, key, meta);
      assert stage !in s.committed by { if stage in s.committed { KeyKind(env, s, stage); } }
      var d := s.(files := s.files[stage := bytes]);
      assert d.files - {stage} == s.files;
      TargetIsOrdinary(key.1);
      SameConfigs(env, s, d, {});
    }
  }

  /** A new key row breaks no reference. */
  lemma MoreKeys(env: Env, s: Store, key: Path, meta: Meta, bytes: Bytes)
    requires RowsOk(env, s) && ValidKey(key)
    ensures RowsOk(env, s.(keys := s.keys[key := meta], committed := s.committed[key := bytes]))
  {
    var d := s.(keys := s.keys[key := meta], committed := s.committed[key := bytes]);
    forall dir | dir in d.hosts ensures EntriesOk(env, d.keys, dir, d.hosts[dir]) { assert EntriesOk(env, s.keys, dir, s.hosts[dir]); }
  }

  lemma InsertKeeps(env: Env, s: Store, op: Op, ok: bool)
    requires EnvOk(env) && op.Staging? && Inv(env, State(s, op))
    ensures Inv(env, DoInsert(s, op, ok))
  {
    if ok {
      var stage := StagePath(env, op.key, op.meta);
      var d := DoInsert(s, op, ok).store;
      MoreKeys(env, s, op.key, op.meta, op.bytes);
      StageKind(env, op.key, op.meta);
      assert op.key !in s.committed;
      assert d.committed - {op.key} == s.committed;
      SameConfigs(env, s, d, {});
    }
  }

  /** Renaming a bound file, or removing a loose one, leaves the files clean. */
  lemma BoundMoves(env: Env, s: Store, p: Path)
    requires Bound(env, s, p)
    ensures Moved(s.files, p, PendingKey(p).value) == s.committed
  {
    var k := PendingKey(p).value;
    assert (s.committed - {k})[k := s.committed[k]] == s.committed;
  }

  lemma CleanKeeps(env: Env, s: Store, files: map<Path, Bytes>)
    requires RowsOk(env, s) && ConfigsOk(env, s, {}) && files == s.committed
    ensures Inv(env, State(s.(files := files), Idle))
  {
    SameConfigs(env, s, s.(files := files), {});
  }

  lemma PromoteKeeps(env: Env, s: Store, op: Op)
    requires EnvOk(env) && op.Promoting? && Inv(env, State(s, op))
    ensures StagePath(env, op.key, op.meta) in s.files
    ensures Inv(env, State(s.(files := Moved(s.files, StagePath(env, op.key, op.meta), op.key)), Idle))
  {
    StageKind(env, op.key, op.meta);
    BoundMoves(env, s, StagePath(env, op.key, op.meta));
    CleanKeeps(env, s, Moved(s.files, StagePath(env, op.key, op.meta), op.key));
  }

  // ----- mutations

  lemma {:induction false} WithoutOk(env: Env, keys: map<Path, Meta>, dir: Dir, hosts: seq<Host>, alias: string)
    requires EntriesOk(env, keys, dir, hosts)
    ensures EntriesOk(env, keys, dir, Without(hosts, alias))
  {
    if hosts != [] { WithoutOk(env, keys, dir, hosts[1..], alias); }
  }

  lemma HostsOk(env: Env, s: Store, dir: Dir)
    requires RowsOk(env, s)
    ensures EntriesOk(env, s.keys, dir, HostsOf(s, dir))
  {
  }

  lemma UnkeyedOk(env: Env, keys: map<Path, Meta>, dir: Dir, hosts: seq<Host>, name: string)
    requires EnvOk(env) && EntriesOk(env, keys, dir, hosts)
    ensures EntriesOk(env, keys - {(dir, name)}, dir, Unkeyed(hosts, name))
  {
    var d := Unkeyed(hosts, name);
    forall i | 0 <= i < |d| ensures env.entry(d[i]) && RefersTo(keys - {(dir, name)}, dir, d[i]) {
      assert env.entry(hosts[i]) && RefersTo(keys, dir, hosts[i]);
    }
  }

  lemma ReplacedOk(env: Env, keys: map<Path, Meta>, dir: Dir, hosts: seq<Host>, h: Host)
    requires EntriesOk(env, keys, dir, hosts) && env.entry(h) && RefersTo(keys, dir, h)
    ensures EntriesOk(env, keys, dir, Replaced(hosts, h))
  {
    var d := Replaced(hosts, h);
    forall i | 0 <= i < |d| ensures env.entry(d[i]) && RefersTo(keys, dir, d[i]) {
      assert env.entry(hosts[i]) && RefersTo(keys, dir, hosts[i]);
    }
  }

  /** The entries of other directories refer to their own keys. */
  lemma RowsAfter(env: Env, s: Store, d: Store, dir: Dir, hosts: seq<Host>, gone: set<Path>)
    requires RowsOk(env, s) && EntriesOk(env, d.keys, dir, hosts)
    requires d.hosts == s.hosts[dir := hosts] || (dir !in s.hosts && d.hosts == s.hosts)
    requires d.keys == s.keys - gone && d.committed == s.committed - gone && forall k :: k in gone ==> k.0 == dir
    ensures RowsOk(env, d)
  {
    forall x | x in d.hosts ensures EntriesOk(env, d.keys, x, d.hosts[x]) {
      if x != dir {
        assert EntriesOk(env, s.keys, x, s.hosts[x]);
        forall i | 0 <= i < |d.hosts[x]| ensures env.entry(d.hosts[x][i]) && RefersTo(d.keys, x, d.hosts[x][i]) {
          assert RefersTo(s.keys, x, s.hosts[x][i]);
        }
      }
    }
  }

  lemma MutateKeepsRows(env: Env, s: Store, dir: Dir, m: Mutation)
    requires EnvOk(env) && RowsOk(env, s) && Admissible(env, dir, m) && Mutate(s, dir, m).Some?
    ensures RowsOk(env, Mutate(s, dir, m).value)
  {
    var d := Mutate(s, dir, m).value;
    var hosts := HostsOf(s, dir);
    HostsOk(env, s, dir);
    match m
    case AddHost(h) => RowsAfter(env, s, d, dir, hosts + [h], {});
    case UpdateHost(h) => ReplacedOk(env, s.keys, dir, hosts, h); RowsAfter(env, s, d, dir, Replaced(hosts, h), {});
    case RemoveHost(alias) => WithoutOk(env, s.keys, dir, hosts, alias); RowsAfter(env, s, d, dir, Without(hosts, alias), {});
    case DropKey(name) => UnkeyedOk(env, s.keys, dir, hosts, name); RowsAfter(env, s, d, dir, Unkeyed(hosts, name), {(dir, name)});
  }

  lemma BeginKeeps(env: Env, s: Store, dir: Dir, m: Mutation)
    requires EnvOk(env) && Inv(env, State(s, Idle))
    ensures Inv(env, DoBegin(env, s, dir, m))
  {
    assert ConfigOk(env, s, dir);
    if Admissible(env, dir, m) && m.DropKey? && (dir, m.name) in s.files && TombstonePath((dir, m.name)) !in s.files {
      var key := (dir, m.name);
      var d := s.(files := Moved(s.files, key, TombstonePath(key)));
      TombstoneKind(key);
      assert d.files - {TombstonePath(key)} == s.files - {key};
      TargetIsOrdinary(key.1);
      SameConfigs(env, s, d, {});
    }
  }

  /** What a transaction leaves alone. */
  lemma MutateFrame(s: Store, dir: Dir, m: Mutation)
    requires Mutate(s, dir, m).Some?
    ensures var d := Mutate(s, dir, m).value;
            var gone := if m.DropKey? then {(dir, m.name)} else {};
            && d.files == s.files && d.configs == s.configs && d.hosts - {dir} == s.hosts - {dir}
            && d.keys == s.keys - gone && d.committed == s.committed - gone
  {
  }

  /** Its outcome does not depend on the config files. */
  lemma MutateSkipsConfigs(s: Store, configs: map<Dir, string>, dir: Dir, m: Mutation)
    requires Mutate(s, dir, m).Some?
    ensures Mutate(s.(configs := configs), dir, m) == Some(Mutate(s, dir, m).value.(configs := configs))
  {
  }

  lemma MovedSame(env: Env, s: Store, d: Store, moved: Option<Path>)
    requires MovedOk(env, s, moved) && d.files == s.files && d.keys == s.keys && d.committed == s.committed
    ensures MovedOk(env, d, moved)
  {
  }

  lemma RowsSame(env: Env, s: Store, d: Store)
    requires RowsOk(env, s) && d.hosts == s.hosts && d.keys == s.keys && d.committed == s.committed
    ensures RowsOk(env, d)
  {
  }

  lemma ReplaceKeeps(env: Env, s: Store, op: Op, ok: bool)
    requires op.Begun? && Inv(env, State(s, op))
    ensures Inv(env, DoReplace(env, s, op, ok))
  {
    var after := Mutate(s, op.dir, op.mutation);
    if ok && after.Some? {
      ReplacedKeeps(env, s, op, after.value);
    }
  }

  lemma ReplacedKeeps(env: Env, s: Store, op: Op, after: Store)
    requires op.Begun? && Inv(env, State(s, op)) && Mutate(s, op.dir, op.mutation) == Some(after)
    ensures var d := s.(configs := s.configs[op.dir := RenderDir(env, after, op.dir)]);
            Inv(env, State(d, Rendered(op.dir, op.previous, op.moved, op.mutation)))
  {
    var text := RenderDir(env, after, op.dir);
    var d := s.(configs := s.configs[op.dir := text]);
    MutateSkipsConfigs(s, d.configs, op.dir, op.mutation);
    assert RenderDir(env, Mutate(d, op.dir, op.mutation).value, op.dir) == text;
    MovedSame(env, s, d, op.moved);
    RowsSame(env, s, d);
    forall x | x !in {op.dir} ensures ConfigOk(env, d, x) { assert ConfigOk(env, s, x); }
    assert PreviousOk(env, d, op.dir, op.previous);
  }

  lemma CommitKeeps(env: Env, s: Store, op: Op, ok: bool)
    requires EnvOk(env) && op.Rendered? && Inv(env, State(s, op))
    ensures Inv(env, DoCommit(s, op, ok))
  {
    if ok { CommittedKeeps(env, s, op, Mutate(s, op.dir, op.mutation).value); }
  }

  lemma CommittedKeeps(env: Env, s: Store, op: Op, d: Store)
    requires EnvOk(env) && op.Rendered? && Inv(env, State(s, op)) && Mutate(s, op.dir, op.mutation) == Some(d)
    ensures Inv(env, State(d, Finishing(op.moved)))
  {
    MutateKeepsRows(env, s, op.dir, op.mutation);
    MutateFrame(s, op.dir, op.mutation);
    OneConfig(env, s, d, op.dir, {});
    if op.moved.Some? {
      TombstoneKind(op.moved.value);
      assert Loose(d, TombstonePath(op.moved.value));
    }
  }

  lemma RestoreKeeps(env: Env, s: Store, op: Op)
    requires op.Failing? && Inv(env, State(s, op))
    ensures Inv(env, DoRestore(s, op))
  {
    if op.attempted {
      var d := DoRestore(s, op).store;
      assert d.configs - {op.dir} == s.configs - {op.dir};
      OneConfig(env, s, d, op.dir, {});
    }
  }

  lemma PutBackKeeps(env: Env, s: Store, op: Op)
    requires EnvOk(env) && op.PuttingBack? && Inv(env, State(s, op))
    ensures Inv(env, DoPutBack(s, op))
  {
    if op.moved.Some? {
      TombstoneKind(op.moved.value);
      BoundMoves(env, s, TombstonePath(op.moved.value));
      CleanKeeps(env, s, s.committed);
    }
  }

  lemma FinishKeeps(env: Env, s: Store, op: Op)
    requires op.Finishing? && Inv(env, State(s, op))
    ensures Inv(env, DoFinish(s, op))
  {
    if op.moved.Some? { CleanKeeps(env, s, s.files - {TombstonePath(op.moved.value)}); }
  }

  lemma UnstageKeeps(env: Env, s: Store, op: Op)
    requires op.Unstaging? && Inv(env, State(s, op))
    ensures Inv(env, State(s.(files := s.files - {StagePath(env, op.key, op.meta)}), Idle))
  {
    CleanKeeps(env, s, s.files - {StagePath(env, op.key, op.meta)});
  }

  // ----- crashes and recovery

  /** Whatever was under way, what a crash leaves on disk is recoverable. */
  lemma CrashKeeps(env: Env, s: Store, op: Op)
    requires Inv(env, State(s, op))
    ensures Inv(env, State(s, Down))
  {
    match op
    case Staging(key, meta, _) => assert Pending(env, s, StagePath(env, key, meta));
    case Promoting(key, meta) => assert Pending(env, s, StagePath(env, key, meta));
    case Unstaging(key, meta) => assert Pending(env, s, StagePath(env, key, meta));
    case Begun(_, _, moved, _) => assert moved.Some? ==> Pending(env, s, TombstonePath(moved.value));
    case Rendered(_, _, moved, _) => assert moved.Some? ==> Pending(env, s, TombstonePath(moved.value));
    case Failing(_, _, moved, _) => assert moved.Some? ==> Pending(env, s, TombstonePath(moved.value));
    case PuttingBack(moved) => assert moved.Some? ==> Pending(env, s, TombstonePath(moved.value));
    case Finishing(moved) => assert moved.Some? ==> Pending(env, s, TombstonePath(moved.value));
    case _ =>
  }

  /** One entry: recovery does not refuse it, and what is pending afterwards is still to be visited. */
  lemma RecoverStep(env: Env, s: Store, todo: set<Path>, p: Path)
    requires RowsOk(env, s) && RecoveringOk(env, s, todo) && p in todo
    ensures RecoverFile(env, s, p).Some?
    ensures var d := RecoverFile(env, s, p).value;
            RowsOk(env, d) && RecoveringOk(env, d, todo - {p}) && d == s.(files := d.files)
  {
    if Clean(s) {
      RecoverOther(env, s, p, p);
    } else {
      var q :| q in todo && Pending(env, s, q);
      if p == q { SettledFiles(env, s, p, todo); } else { RecoverOther(env, s, q, p); }
    }
  }

  lemma RecoverKeeps(env: Env, s: Store, op: Op, p: Path)
    requires op.Recovering? && Inv(env, State(s, op))
    ensures Inv(env, DoRecover(env, s, op, p))
  {
    if p in op.todo { RecoverStep(env, s, op.todo, p); }
  }

  lemma SettledFiles(env: Env, s: Store, p: Path, todo: set<Path>)
    requires RowsOk(env, s) && Pending(env, s, p) && p in todo && todo <= s.files.Keys
    ensures RecoverFile(env, s, p) == Some(s.(files := s.committed)) && todo - {p} <= s.committed.Keys
    ensures RowsOk(env, s.(files := s.committed))
  {
    RecoverPending(env, s, p);
    forall q | q in todo - {p} ensures q in s.committed { assert q in s.files - {p}; }
    RowsSame(env, s, s.(files := s.committed));
  }

  lemma RenderKeeps(env: Env, s: Store, op: Op, dir: Dir)
    requires op.Rendering? && dir in op.dirs && Inv(env, State(s, op))
    ensures Inv(env, State(s.(configs := s.configs[dir := RenderDir(env, s, dir)]), Rendering(op.dirs - {dir})))
  {
    var d := s.(configs := s.configs[dir := RenderDir(env, s, dir)]);
    RowsSame(env, s, d);
    assert op.dirs - {dir} + {dir} == op.dirs;
    OneConfig(env, s, d, dir, op.dirs - {dir});
  }

  // ----- all steps, all runs

  lemma KeyStepKeeps(env: Env, st: State, step: Step)
    requires EnvOk(env) && Inv(env, st) && (step.Put? || step.Insert? || step.Promote? || step.Unstage?)
    ensures Inv(env, Apply(env, st, step))
  {
    var s, op := st.store, st.op;
    match step
    case Put(key, meta, bytes) => if op.Idle? { PutKeeps(env, s, key, meta, bytes); }
    case Insert(ok) => if op.Staging? { InsertKeeps(env, s, op, ok); }
    case Promote => if op.Promoting? { PromoteKeeps(env, s, op); }
    case Unstage => if op.Unstaging? { UnstageKeeps(env, s, op); }
  }

  lemma HostStepKeeps(env: Env, st: State, step: Step)
    requires EnvOk(env) && Inv(env, st)
    requires step.Begin? || step.ReplaceConfig? || step.Commit? || step.RestoreConfig? || step.PutBack? || step.RemoveTombstone?
    ensures Inv(env, Apply(env, st, step))
  {
    var s, op := st.store, st.op;
    match step
    case Begin(dir, m) => if op.Idle? { BeginKeeps(env, s, dir, m); }
    case ReplaceConfig(ok) => if op.Begun? { ReplaceKeeps(env, s, op, ok); }
    case Commit(ok) => if op.Rendered? { CommitKeeps(env, s, op, ok); }
    case RestoreConfig => if op.Failing? { RestoreKeeps(env, s, op); }
    case PutBack => if op.PuttingBack? { PutBackKeeps(env, s, op); }
    case RemoveTombstone => if op.Finishing? { FinishKeeps(env, s, op); }
  }

  lemma RecoveryDoneKeeps(env: Env, s: Store, op: Op)
    requires EnvOk(env) && op.Recovering? && op.todo == {} && Inv(env, State(s, op))
    ensures Inv(env, State(s, Rendering(Dirs(s))))
  {
    NothingRenders(env, s);
  }

  lemma StartStepKeeps(env: Env, s: Store)
    requires Inv(env, State(s, Down))
    ensures Inv(env, State(s, Recovering(s.files.Keys)))
  {
    StartKeeps(env, s);
  }

  lemma RenderingDoneKeeps(env: Env, s: Store, op: Op)
    requires op.Rendering? && op.dirs == {} && Inv(env, State(s, op))
    ensures Inv(env, State(s, Idle))
  {
  }

  lemma RecoveryStepKeeps(env: Env, st: State, step: Step)
    requires EnvOk(env) && Inv(env, st) && (step.Start? || step.RecoverEntry? || step.RecoveryDone?)
    ensures Inv(env, Apply(env, st, step))
  {
    var s, op := st.store, st.op;
    match step
    case Start => if op.Down? { StartStepKeeps(env, s); }
    case RecoverEntry(p) => if op.Recovering? { RecoverKeeps(env, s, op, p); }
    case RecoveryDone => if op.Recovering? && op.todo == {} { RecoveryDoneKeeps(env, s, op); }
  }

  lemma RestartStepKeeps(env: Env, st: State, step: Step)
    requires EnvOk(env) && Inv(env, st) && (step.Crash? || step.RenderConfig? || step.RenderingDone?)
    ensures Inv(env, Apply(env, st, step))
  {
    var s, op := st.store, st.op;
    match step
    case Crash => CrashKeeps(env, s, op);
    case RenderConfig(dir) => if op.Rendering? && dir in op.dirs { RenderKeeps(env, s, op, dir); }
    case RenderingDone => if op.Rendering? && op.dirs == {} { RenderingDoneKeeps(env, s, op); }
  }

  lemma StepKeeps(env: Env, st: State, step: Step)
    requires EnvOk(env) && Inv(env, st)
    ensures Inv(env, Apply(env, st, step))
  {
    if step.Put? || step.Insert? || step.Promote? || step.Unstage? {
      KeyStepKeeps(env, st, step);
    } else if step.Start? || step.RecoverEntry? || step.RecoveryDone? {
      RecoveryStepKeeps(env, st, step);
    } else if step.Crash? || step.RenderConfig? || step.RenderingDone? {
      RestartStepKeeps(env, st, step);
    } else {
      HostStepKeeps(env, st, step);
    }
  }

  lemma StartKeeps(env: Env, s: Store)
    requires DownOk(env, s)
    ensures RecoveringOk(env, s, s.files.Keys)
  {
    if !Clean(s) {
      var p :| Pending(env, s, p);
      assert p in s.files.Keys;
    }
  }

  lemma {:induction false} RunKeeps(env: Env, steps: seq<Step>)
    requires EnvOk(env)
    ensures Inv(env, Run(env, steps))
  {
    if steps != [] {
      RunKeeps(env, steps[..|steps| - 1]);
      StepKeeps(env, Run(env, steps[..|steps| - 1]), steps[|steps| - 1]);
    }
  }

  /** Recovery never meets a key and its tombstone together, nor any other reason to refuse. */
  lemma RecoveryNeverRefuses(env: Env, steps: seq<Step>)
    requires EnvOk(env)
    ensures !Run(env, steps).op.Refused?
  {
    RunKeeps(env, steps);
  }

  /**
   Whenever the service is idle - after any operation, finished or rolled back, and after any recovery - a key file
   exists exactly for each key row and holds the bytes of the put that committed; nothing staged and no tombstone is
   left; every host entry refers to a stored key of its own principal or to none.
   */
  lemma IdleAgrees(env: Env, steps: seq<Step>)
    requires EnvOk(env) && Run(env, steps).op.Idle?
    ensures var s := Run(env, steps).store;
            && s.files == s.committed && s.files.Keys == s.keys.Keys
            && (forall p :: p in s.files ==> KindOf(p.1) == Ordinary)
            && (forall dir :: dir in s.hosts ==> EntriesOk(env, s.keys, dir, s.hosts[dir]))
  {
    RunKeeps(env, steps);
    var s := Run(env, steps).store;
    forall p | p in s.files ensures KindOf(p.1) == Ordinary { TargetIsOrdinary(p.1); }
  }

  lemma KeyIsOneLine(name: string)
    requires ValidKeyName(name)
    ensures OneLine(name)
  {
  }

  lemma StorableEntries(env: Env, s: Store, dir: Dir)
    requires RowsOk(env, s) && forall h :: env.entry(h) ==> WellFormed(OPTIONS, h)
    ensures forall i :: 0 <= i < |HostsOf(s, dir)| ==> Storable(OPTIONS, HostsOf(s, dir)[i])
  {
    HostsOk(env, s, dir);
    forall i | 0 <= i < |HostsOf(s, dir)| ensures Storable(OPTIONS, HostsOf(s, dir)[i]) {
      var h := HostsOf(s, dir)[i];
      assert env.entry(h) && RefersTo(s.keys, dir, h);
      if h.key != "" { assert (dir, h.key) in s.keys.Keys; KeyIsOneLine(h.key); }
    }
  }

  lemma IdleRenders(env: Env, steps: seq<Step>, dir: Dir)
    requires EnvOk(env) && Run(env, steps).op.Idle?
    ensures var s := Run(env, steps).store; RowsOk(env, s) && ConfigText(s, dir) == RenderDir(env, s, dir)
  {
    RunKeeps(env, steps);
    assert ConfigOk(env, Run(env, steps).store, dir);
  }

  /** Then, too, every config file is the rendering of the stored entries, and a scan of it accepts exactly their aliases. */
  lemma IdleConfigs(digest: (Dir, string, Meta) -> string, root: string, steps: seq<Step>, dir: Dir, alias: string)
    requires OneLine(root) && OneLine(dir) && forall d, n, m :: HexDigest(digest(d, n, m))
    requires Run(SourceEnv(digest, root), steps).op.Idle?
    ensures var s := Run(SourceEnv(digest, root), steps).store;
            && ConfigText(s, dir) == Render(root, dir, HostsOf(s, dir))
            && (Accepts(ConfigText(s, dir), alias) <==> Listed(HostsOf(s, dir), alias))
  {
    var env := SourceEnv(digest, root);
    SourceEnvOk(digest, root);
    IdleRenders(env, steps, dir);
    var s := Run(env, steps).store;
    StorableEntries(env, s, dir);
    OptionsArePlain();
    ScanAcceptsExactly(OPTIONS, root, dir, HostsOf(s, dir), alias);
  }

  // ----- where the bytes come from

  ghost predicate PutBefore(steps: seq<Step>, key: Path, bytes: Bytes) {
    exists i :: 0 <= i < |steps| && steps[i].Put? && steps[i].key == key && steps[i].bytes == bytes
  }

  lemma PutStays(steps: seq<Step>, key: Path, bytes: Bytes)
    requires steps != [] && PutBefore(steps[..|steps| - 1], key, bytes)
    ensures PutBefore(steps, key, bytes)
  {
    var i :| 0 <= i < |steps| - 1 && steps[..|steps| - 1][i].Put? && steps[..|steps| - 1][i].key == key && steps[..|steps| - 1][i].bytes == bytes;
    assert steps[i] == steps[..|steps| - 1][i];
  }

  /** What one step can do to the committed bytes: an insertion adds those of its put, a committed deletion removes them. */
  lemma CommittedMoves(env: Env, st: State, step: Step)
    ensures var d := Apply(env, st, step);
            || d.store.committed == st.store.committed
            || (step == Insert(true) && st.op.Staging? && d.store.committed == st.store.committed[st.op.key := st.op.bytes])
            || (step == Commit(true) && st.op.Rendered? && st.op.mutation.DropKey? &&
                d.store.committed == st.store.committed - {(st.op.dir, st.op.mutation.name)})
  {
    if step.RecoverEntry? && st.op.Recovering? {
      assert RecoverFile(env, st.store, step.path).Some? ==>
               RecoverFile(env, st.store, step.path).value.committed == st.store.committed;
    }
    if step.Commit? && st.op.Rendered? && Mutate(st.store, st.op.dir, st.op.mutation).Some? {
      MutateFrame(st.store, st.op.dir, st.op.mutation);
    }
  }

  lemma StagingMoves(env: Env, st: State, step: Step)
    requires Apply(env, st, step).op.Staging?
    ensures var op := Apply(env, st, step).op;
            st.op == op || (step.Put? && step.key == op.key && step.bytes == op.bytes)
  {
  }

  /** Every committed key holds bytes that some put of that very key brought. */
  lemma {:induction false} CommittedBytesWerePut(env: Env, steps: seq<Step>, key: Path)
    ensures key in Run(env, steps).store.committed ==> PutBefore(steps, key, Run(env, steps).store.committed[key])
    ensures var op := Run(env, steps).op; op.Staging? ==> PutBefore(steps, op.key, op.bytes)
  {
    if steps != [] {
      var before := steps[..|steps| - 1];
      var st, step := Run(env, before), steps[|steps| - 1];
      CommittedBytesWerePut(env, before, key);
      CommittedMoves(env, st, step);
      var d := Apply(env, st, step);
      if key in d.store.committed && PutBefore(before, key, d.store.committed[key]) { PutStays(steps, key, d.store.committed[key]); }
      if d.op.Staging? {
        StagingMoves(env, st, step);
        if st.op == d.op { PutStays(steps, d.op.key, d.op.bytes); }
      }
    }
  }
}
