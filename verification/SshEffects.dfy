/** What a committed mutation of hosts or keys does to the rows, in the caller's terms (subsystems/ssh/persistence.go). */
module SshEffects {
  import opened Text
  import opened HostEntry
  import opened HostConfig
  import opened SshStore

  /** The entry stored under an alias, as an update or a removal finds it. */
  predicate Stored(hosts: seq<Host>, h: Host) { exists i :: 0 <= i < |hosts| && hosts[i] == h }

  lemma {:induction false} WithoutStores(hosts: seq<Host>, alias: string, h: Host)
    ensures Stored(Without(hosts, alias), h) <==> Stored(hosts, h) && h.name != alias
  {
    if hosts != [] {
      WithoutStores(hosts[1..], alias, h);
      StoredSplit(hosts, h);
      var rest := Without(hosts[1..], alias);
      if hosts[0].name != alias {
        StoredSplit([hosts[0]] + rest, h);
        assert ([hosts[0]] + rest)[1..] == rest;
      } else {
        assert [] + rest == rest;
      }
    }
  }

  lemma StoredSplit(hosts: seq<Host>, h: Host)
    requires hosts != []
    ensures Stored(hosts, h) <==> hosts[0] == h || Stored(hosts[1..], h)
  {
    if i :| 0 <= i < |hosts| && hosts[i] == h { assert i > 0 ==> hosts[1..][i - 1] == h; }
    if i :| 0 <= i < |hosts[1..]| && hosts[1..][i] == h { assert hosts[i + 1] == h; }
  }

  lemma StoredMore(hosts: seq<Host>, g: Host, h: Host)
    ensures Stored(hosts + [g], h) <==> Stored(hosts, h) || h == g
  {
    var d := hosts + [g];
    if i :| 0 <= i < |hosts| && hosts[i] == h { assert d[i] == h; }
    if h == g { assert d[|hosts|] == h; }
    if i :| 0 <= i < |d| && d[i] == h { assert i < |hosts| ==> hosts[i] == h; }
  }

  lemma ReplacedStores(hosts: seq<Host>, g: Host, h: Host)
    requires Listed(hosts, g.name)
    ensures Stored(Replaced(hosts, g), h) <==> h == g || (Stored(hosts, h) && h.name != g.name)
  {
    var d := Replaced(hosts, g);
    var k :| 0 <= k < |hosts| && hosts[k].name == g.name;
    assert d[k] == g;
    if i :| 0 <= i < |d| && d[i] == h { assert hosts[i].name != g.name ==> hosts[i] == h; }
    if i :| 0 <= i < |hosts| && hosts[i] == h { assert h.name != g.name ==> d[i] == h; }
  }

  lemma UnkeyedStores(hosts: seq<Host>, name: string, h: Host)
    requires name != ""
    ensures Stored(Unkeyed(hosts, name), h) <==>
            (h.key != name && Stored(hosts, h)) || (h.key == "" && Stored(hosts, h.(key := name)))
  {
    var d := Unkeyed(hosts, name);
    if i :| 0 <= i < |d| && d[i] == h { assert hosts[i] == h || hosts[i] == h.(key := name); }
    if i :| 0 <= i < |hosts| && hosts[i] == h { assert h.key != name ==> d[i] == h; }
    if i :| 0 <= i < |hosts| && hosts[i] == h.(key := name) { assert h.key == "" ==> d[i] == h; }
  }

  /** Which entries the principal has after a mutation. */
  predicate Expected(s: Store, dir: Dir, m: Mutation, h: Host) {
    var hosts := HostsOf(s, dir);
    match m
    case AddHost(g) => Stored(hosts, h) || h == g
    case UpdateHost(g) => h == g || (Stored(hosts, h) && h.name != g.name)
    case RemoveHost(alias) => Stored(hosts, h) && h.name != alias
    case DropKey(name) => (h.key != name && Stored(hosts, h)) || (h.key == "" && Stored(hosts, h.(key := name)))
  }

  /** A committed mutation leaves exactly the expected entries and keys, and does not touch other principals. */
  lemma MutationEffect(s: Store, dir: Dir, m: Mutation, h: Host, other: Dir)
    requires Mutate(s, dir, m).Some? && (m.DropKey? ==> m.name != "")
    ensures var d := Mutate(s, dir, m).value;
            && (Stored(HostsOf(d, dir), h) <==> Expected(s, dir, m, h)) && (other != dir ==> HostsOf(d, other) == HostsOf(s, other))
            && d.keys == (if m.DropKey? then s.keys - {(dir, m.name)} else s.keys)
  {
    var hosts := HostsOf(s, dir);
    match m
    case AddHost(g) => StoredMore(hosts, g, h);
    case UpdateHost(g) => ReplacedStores(hosts, g, h);
    case RemoveHost(alias) => WithoutStores(hosts, alias, h);
    case DropKey(name) => UnkeyedStores(hosts, name, h);
  }

  // ----- when a mutation succeeds

  ghost predicate HasEntry(hosts: seq<Host>, alias: string) { exists h :: Stored(hosts, h) && h.name == alias }

  /** OpenSSH matches aliases without regard to case, so a new one must differ by more. */
  ghost predicate HasEntryUpToCase(hosts: seq<Host>, alias: string) { exists h :: Stored(hosts, h) && Lower(h.name) == Lower(alias) }

  ghost predicate Granted(s: Store, dir: Dir, m: Mutation) {
    var hosts := HostsOf(s, dir);
    match m
    case AddHost(h) => (h.key == "" || (dir, h.key) in s.keys) && !HasEntryUpToCase(hosts, h.name)
    case UpdateHost(h) => (h.key == "" || (dir, h.key) in s.keys) && HasEntry(hosts, h.name)
    case RemoveHost(alias) => HasEntry(hosts, alias)
    case DropKey(name) => (dir, name) in s.keys
  }

  lemma ListedIsStored(hosts: seq<Host>, alias: string)
    ensures Listed(hosts, alias) <==> HasEntry(hosts, alias)
    ensures AliasTaken(hosts, alias) <==> HasEntryUpToCase(hosts, alias)
  {
    if i :| 0 <= i < |hosts| && hosts[i].name == alias { assert Stored(hosts, hosts[i]); }
    if i :| 0 <= i < |hosts| && Lower(hosts[i].name) == Lower(alias) { assert Stored(hosts, hosts[i]); }
    if h :| Stored(hosts, h) && h.name == alias { var i :| 0 <= i < |hosts| && hosts[i] == h; }
    if h :| Stored(hosts, h) && Lower(h.name) == Lower(alias) { var i :| 0 <= i < |hosts| && hosts[i] == h; }
  }

  /** A mutation succeeds exactly when what it names is stored, or for a new entry is free, and its key is stored. */
  lemma MutationSucceedsExactly(s: Store, dir: Dir, m: Mutation)
    ensures Mutate(s, dir, m).Some? <==> Granted(s, dir, m)
  {
    var hosts := HostsOf(s, dir);
    if !m.DropKey? { ListedIsStored(hosts, if m.RemoveHost? then m.alias else m.host.name); }
  }
}
