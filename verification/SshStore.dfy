/**
 SSH keys and hosts as a crash-consistency protocol (subsystems/ssh/keys.go, persistence.go). Key files, rendered config
 files and database rows are changed one step at a time; the service may stop between any two steps, also while it
 recovers. Rename, removal, replacement and commit are atomic. One operation runs at a time, under the database lock.
 */
module SshStore {
  import opened Text
  import opened SessionTypes
  import opened HostEntry
  import opened HostConfig
  import opened KeyNames

  type Dir = string
  type Bytes = string
  type Path = (Dir, string)

  datatype Meta = Meta(kind: string, fingerprint: string)

  /** What does not change: the metadata digest, how entries are rendered, and which entries the service admits. */
  datatype Env = Env(digest: (Dir, string, Meta) -> string, render: (Dir, seq<Host>) -> string, entry: Host -> bool)

  ghost predicate EnvOk(env: Env) {
    && (forall d, n, m :: HexDigest(env.digest(d, n, m)))
    && (forall d :: env.render(d, []) == "")
    && (forall h :: env.entry(h) ==> env.entry(h.(key := "")))
  }

  /** The environment of the source, given its digest and where the principals' directories are. */
  function SourceEnv(digest: (Dir, string, Meta) -> string, root: string): Env {
    Env(digest, (dir, hosts) => Render(root, dir, hosts), h => WellFormed(OPTIONS, h))
  }

  lemma SourceEnvOk(digest: (Dir, string, Meta) -> string, root: string)
    requires forall d, n, m :: HexDigest(digest(d, n, m))
    ensures EnvOk(SourceEnv(digest, root))
  {
    var env := SourceEnv(digest, root);
    forall d ensures env.render(d, []) == "" { assert SortedByName([]) == [] && StanzaLines(root, d, []) == []; }
  }

  /**
   Key files and config files, key rows and host rows. `committed` is bookkeeping: the bytes of the put that committed
   each key that is stored.
   */
  datatype Store = Store(files: map<Path, Bytes>, keys: map<Path, Meta>, hosts: map<Dir, seq<Host>>,
                         configs: map<Dir, string>, committed: map<Path, Bytes>)

  datatype Mutation = AddHost(host: Host) | UpdateHost(host: Host) | RemoveHost(alias: string) | DropKey(name: string)

  // ----- rows

  function HostsOf(s: Store, dir: Dir): seq<Host> { if dir in s.hosts then s.hosts[dir] else [] }

  predicate RefersTo(keys: map<Path, Meta>, dir: Dir, h: Host) { h.key == "" || (dir, h.key) in keys }

  predicate AliasTaken(hosts: seq<Host>, alias: string) { exists i :: 0 <= i < |hosts| && Lower(hosts[i].name) == Lower(alias) }

  function Replaced(hosts: seq<Host>, h: Host): seq<Host> {
    seq(|hosts|, i requires 0 <= i < |hosts| => if hosts[i].name == h.name then h else hosts[i])
  }

  function Without(hosts: seq<Host>, alias: string): seq<Host> {
    if hosts == [] then [] else (if hosts[0].name == alias then [] else [hosts[0]]) + Without(hosts[1..], alias)
  }

  function Unkeyed(hosts: seq<Host>, name: string): seq<Host> {
    seq(|hosts|, i requires 0 <= i < |hosts| => if hosts[i].key == name then hosts[i].(key := "") else hosts[i])
  }

  /** What a transaction does to the rows, or None when it fails. */
  function Mutate(s: Store, dir: Dir, m: Mutation): Option<Store> {
    var hosts := HostsOf(s, dir);
    match m
    case AddHost(h) =>
      if RefersTo(s.keys, dir, h) && !AliasTaken(hosts, h.name) then Some(s.(hosts := s.hosts[dir := hosts + [h]])) else None
    case UpdateHost(h) =>
      if RefersTo(s.keys, dir, h) && Listed(hosts, h.name) then Some(s.(hosts := s.hosts[dir := Replaced(hosts, h)])) else None
    case RemoveHost(alias) =>
      if Listed(hosts, alias) then Some(s.(hosts := s.hosts[dir := Without(hosts, alias)])) else None
    case DropKey(name) =>
      if (dir, name) !in s.keys then None
      else Some(s.(hosts := if dir in s.hosts then s.hosts[dir := Unkeyed(hosts, name)] else s.hosts,
                   keys := s.keys - {(dir, name)}, committed := s.committed - {(dir, name)}))
  }

  // ----- files

  function StagePath(env: Env, key: Path, meta: Meta): Path { (key.0, StageName(key.1, env.digest(key.0, key.1, meta))) }

  function TombstonePath(key: Path): Path { (key.0, TombstoneName(key.1)) }

  /** Rename, replacing what was there. */
  function Moved(files: map<Path, Bytes>, source: Path, target: Path): map<Path, Bytes>
    requires source in files
  {
    (files - {source})[target := files[source]]
  }

  /** What recovery does with one directory entry, or None when it refuses. */
  function RecoverFile(env: Env, s: Store, p: Path): Option<Store> {
    if p !in s.files then None
    else match KindOf(p.1)
      case Ordinary => Some(s)
      case Tombstone(name) =>
        if (p.0, name) !in s.keys then Some(s.(files := s.files - {p}))
        else if (p.0, name) in s.files then None
        else Some(s.(files := Moved(s.files, p, (p.0, name))))
      case Staged(name) =>
        if (p.0, name) in s.keys && StagePath(env, (p.0, name), s.keys[(p.0, name)]) == p
        then Some(s.(files := Moved(s.files, p, (p.0, name))))
        else Some(s.(files := s.files - {p}))
  }

  function RenderDir(env: Env, s: Store, dir: Dir): string { env.render(dir, HostsOf(s, dir)) }

  /** A missing config reads as an empty one. */
  function ConfigText(s: Store, dir: Dir): string { if dir in s.configs then s.configs[dir] else "" }

  function Restored(configs: map<Dir, string>, dir: Dir, previous: Option<string>): map<Dir, string> {
    if previous.Some? then configs[dir := previous.value] else configs - {dir}
  }

  // ----- the service and its steps

  datatype Op =
    | Idle
    | Staging(key: Path, meta: Meta, bytes: Bytes)                               // the staged file is written
    | Promoting(key: Path, meta: Meta)                                           // the row is inserted
    | Unstaging(key: Path, meta: Meta)                                           // the insertion failed
    | Begun(dir: Dir, previous: Option<string>, moved: Option<Path>, mutation: Mutation)
    | Rendered(dir: Dir, previous: Option<string>, moved: Option<Path>, mutation: Mutation)  // not committed
    | Failing(dir: Dir, previous: Option<string>, moved: Option<Path>, attempted: bool)
    | PuttingBack(moved: Option<Path>)
    | Finishing(moved: Option<Path>)                                             // committed; the tombstone is to go
    | Recovering(todo: set<Path>)
    | Rendering(dirs: set<Dir>)
    | Refused
    | Down

  datatype State = State(store: Store, op: Op)

  const EMPTY := State(Store(map[], map[], map[], map[], map[]), Down)

  datatype Step =
    | Put(key: Path, meta: Meta, bytes: Bytes)
    | Insert(ok: bool)
    | Promote
    | Unstage
    | Begin(dir: Dir, mutation: Mutation)
    | ReplaceConfig(ok: bool)
    | Commit(ok: bool)
    | RestoreConfig
    | PutBack
    | RemoveTombstone
    | Crash
    | Start
    | RecoverEntry(path: Path)
    | RecoveryDone
    | RenderConfig(dir: Dir)
    | RenderingDone

  predicate ValidKey(key: Path) { SafeName(key.0, 128) && ValidKeyName(key.1) }

  /** What the service checks before it calls the store. */
  predicate Admissible(env: Env, dir: Dir, m: Mutation) {
    SafeName(dir, 128) &&
    match m
    case AddHost(h) => env.entry(h)
    case UpdateHost(h) => env.entry(h)
    case RemoveHost(alias) => ValidAlias(alias)
    case DropKey(name) => ValidKeyName(name)
  }

  function DoPut(env: Env, s: Store, key: Path, meta: Meta, bytes: Bytes): State {
    if !ValidKey(key) || key in s.keys || key in s.files then State(s, Idle)
    else State(s.(files := s.files[StagePath(env, key, meta) := bytes]), Staging(key, meta, bytes))
  }

  function DoInsert(s: Store, op: Op, ok: bool): State
    requires op.Staging?
  {
    if ok then State(s.(keys := s.keys[op.key := op.meta], committed := s.committed[op.key := op.bytes]), Promoting(op.key, op.meta))
    else State(s, Unstaging(op.key, op.meta))
  }

  function PreviousConfig(s: Store, dir: Dir): Option<string> { if dir in s.configs then Some(s.configs[dir]) else None }

  /** A deletion first moves the key to its tombstone, and fails when there is no key file or a tombstone already. */
  function DoBegin(env: Env, s: Store, dir: Dir, m: Mutation): State {
    if !Admissible(env, dir, m) then State(s, Idle)
    else if !m.DropKey? then State(s, Begun(dir, PreviousConfig(s, dir), None, m))
    else
      var key := (dir, m.name);
      if key !in s.files || TombstonePath(key) in s.files then State(s, Idle)
      else State(s.(files := Moved(s.files, key, TombstonePath(key))), Begun(dir, PreviousConfig(s, dir), Some(key), m))
  }

  /** The transaction changes the rows and, at its end, replaces the config; `ok` is false when something before fails. */
  function DoReplace(env: Env, s: Store, op: Op, ok: bool): State
    requires op.Begun?
  {
    var after := Mutate(s, op.dir, op.mutation);
    if ok && after.Some? then
      State(s.(configs := s.configs[op.dir := RenderDir(env, after.value, op.dir)]),
            Rendered(op.dir, op.previous, op.moved, op.mutation))
    else State(s, Failing(op.dir, op.previous, op.moved, false))
  }

  function DoCommit(s: Store, op: Op, ok: bool): State
    requires op.Rendered?
  {
    var after := Mutate(s, op.dir, op.mutation);
    if ok && after.Some? then State(after.value, Finishing(op.moved))
    else State(s, Failing(op.dir, op.previous, op.moved, true))
  }

  function DoRestore(s: Store, op: Op): State
    requires op.Failing?
  {
    State(if op.attempted then s.(configs := Restored(s.configs, op.dir, op.previous)) else s, PuttingBack(op.moved))
  }

  function DoPutBack(s: Store, op: Op): State
    requires op.PuttingBack?
  {
    if op.moved.None? then State(s, Idle)
    else
      var tombstone := TombstonePath(op.moved.value);
      if op.moved.value in s.files || tombstone !in s.files then State(s, Refused)
      else State(s.(files := Moved(s.files, tombstone, op.moved.value)), Idle)
  }

  function DoFinish(s: Store, op: Op): State
    requires op.Finishing?
  {
    State(if op.moved.Some? then s.(files := s.files - {TombstonePath(op.moved.value)}) else s, Idle)
  }

  /** The directories a restart renders: those with host rows and those that hold a config. */
  function Dirs(s: Store): set<Dir> { s.hosts.Keys + s.configs.Keys }

  function DoRecover(env: Env, s: Store, op: Op, p: Path): State
    requires op.Recovering?
  {
    if p !in op.todo then State(s, op)
    else match RecoverFile(env, s, p)
      case None => State(s, Refused)
      case Some(after) => State(after, Recovering(op.todo - {p}))
  }

  function Apply(env: Env, st: State, step: Step): State {
    var s, op := st.store, st.op;
    match step
    case Crash => State(s, Down)
    case Start => if op.Down? then State(s, Recovering(s.files.Keys)) else st
    case Put(key, meta, bytes) => if op.Idle? then DoPut(env, s, key, meta, bytes) else st
    case Insert(ok) => if op.Staging? then DoInsert(s, op, ok) else st
    case Promote =>
      if op.Promoting? && StagePath(env, op.key, op.meta) in s.files
      then State(s.(files := Moved(s.files, StagePath(env, op.key, op.meta), op.key)), Idle) else st
    case Unstage => if op.Unstaging? then State(s.(files := s.files - {StagePath(env, op.key, op.meta)}), Idle) else st
    case Begin(dir, m) => if op.Idle? then DoBegin(env, s, dir, m) else st
    case ReplaceConfig(ok) => if op.Begun? then DoReplace(env, s, op, ok) else st
    case Commit(ok) => if op.Rendered? then DoCommit(s, op, ok) else st
    case RestoreConfig => if op.Failing? then DoRestore(s, op) else st
    case PutBack => if op.PuttingBack? then DoPutBack(s, op) else st
    case RemoveTombstone => if op.Finishing? then DoFinish(s, op) else st
    case RecoverEntry(p) => if op.Recovering? then DoRecover(env, s, op, p) else st
    case RecoveryDone => if op.Recovering? && op.todo == {} then State(s, Rendering(Dirs(s))) else st
    case RenderConfig(dir) =>
      if op.Rendering? && dir in op.dirs
      then State(s.(configs := s.configs[dir := RenderDir(env, s, dir)]), Rendering(op.dirs - {dir})) else st
    case RenderingDone => if op.Rendering? && op.dirs == {} then State(s, Idle) else st
  }

  function Run(env: Env, steps: seq<Step>): State {
    if steps == [] then EMPTY else Apply(env, Run(env, steps[..|steps| - 1]), steps[|steps| - 1])
  }
}
