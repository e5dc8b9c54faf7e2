/**
 What a rendered stanza says (subsystems/ssh/config.go): for every key, exactly the values the entry gives it, keys in
 order; and stanzas come in the order of their aliases (subsystems/ssh/persistence.go).
 */
module HostMeaning {
  import opened Text
  import opened HostEntry
  import opened HostConfig

  // ----- byte order is a strict total order

  lemma {:induction false} BeforeTotal(a: string, b: string)
    ensures a == b || Before(a, b) || Before(b, a)
    ensures !(Before(a, b) && Before(b, a)) && !Before(a, a)
  {
    if a != "" && b != "" {
      BeforeTotal(a[1..], b[1..]);
      BeforeTotal(a[1..], a[1..]);
      assert a == [a[0]] + a[1..] && b == [b[0]] + b[1..];
    } else if a != "" {
      BeforeTotal(a[1..], a[1..]);
    }
  }

  lemma {:induction false} BeforeTransitive(a: string, b: string, c: string)
    requires Before(a, b) && Before(b, c)
    ensures Before(a, c)
  {
    if a != "" && a[0] == b[0] && b[0] == c[0] { BeforeTransitive(a[1..], b[1..], c[1..]); }
  }

  // ----- keys and values

  predicate Ordered(c: Settings) { forall i, j :: 0 <= i < j < |c| ==> Before(c[i].0, c[j].0) }

  /** The values a stanza gives a key. */
  function ValuesOf(c: Settings, key: string): seq<string> {
    if c == [] then [] else (if c[0].0 == key then c[0].1 else []) + ValuesOf(c[1..], key)
  }

  /** A key before all keys has no values. */
  lemma {:induction false} NoValues(c: Settings, key: string)
    requires Ordered(c) && (c != [] ==> Before(key, c[0].0))
    ensures ValuesOf(c, key) == []
  {
    if c != [] {
      BeforeTotal(key, c[0].0);
      if |c| > 1 { BeforeTransitive(key, c[0].0, c[1].0); }
      NoValues(c[1..], key);
    }
  }

  lemma OrderedCons(first: (string, seq<string>), rest: Settings)
    requires Ordered(rest) && (rest != [] ==> Before(first.0, rest[0].0))
    ensures Ordered([first] + rest)
  {
    var c := [first] + rest;
    forall i, j | 0 <= i < j < |c| ensures Before(c[i].0, c[j].0) {
      if i == 0 && j > 1 { BeforeTransitive(first.0, rest[0].0, rest[j - 1].0); }
    }
  }

  /** Where an added key ends up: first, or behind what was first. */
  lemma AddFirst(c: Settings, key: string, value: string)
    ensures var d := Add(c, key, value); d != [] && (d[0].0 == key || (c != [] && d[0].0 == c[0].0))
    ensures var d := Put(c, key, value); d != [] && (d[0].0 == key || (c != [] && d[0].0 == c[0].0))
  {
  }

  lemma {:induction false} AddMeans(c: Settings, key: string, value: string, x: string)
    requires Ordered(c)
    ensures Ordered(Add(c, key, value))
    ensures ValuesOf(Add(c, key, value), x) == ValuesOf(c, x) + (if x == key then [value] else [])
  {
    if c == [] || Before(key, c[0].0) {
      NoValues(c, key);
      OrderedCons((key, [value]), c);
      assert ([(key, [value])] + c)[1..] == c;
    } else if key == c[0].0 {
      if |c| > 1 { assert Before(key, c[1].0); }
      NoValues(c[1..], key);
      OrderedCons((key, c[0].1 + [value]), c[1..]);
      assert ([(key, c[0].1 + [value])] + c[1..])[1..] == c[1..];
    } else {
      AddMeans(c[1..], key, value, x);
      AddFirst(c[1..], key, value);
      BeforeTotal(key, c[0].0);
      OrderedCons(c[0], Add(c[1..], key, value));
      assert ([c[0]] + Add(c[1..], key, value))[1..] == Add(c[1..], key, value);
    }
  }

  lemma {:induction false} PutMeans(c: Settings, key: string, value: string, x: string)
    requires Ordered(c)
    ensures Ordered(Put(c, key, value))
    ensures ValuesOf(Put(c, key, value), x) == if x == key then [value] else ValuesOf(c, x)
  {
    if c == [] || Before(key, c[0].0) {
      NoValues(c, key);
      OrderedCons((key, [value]), c);
      assert ([(key, [value])] + c)[1..] == c;
    } else if key == c[0].0 {
      if |c| > 1 { assert Before(key, c[1].0); }
      NoValues(c[1..], key);
      OrderedCons((key, [value]), c[1..]);
      assert ([(key, [value])] + c[1..])[1..] == c[1..];
    } else {
      PutMeans(c[1..], key, value, x);
      AddFirst(c[1..], key, value);
      BeforeTotal(key, c[0].0);
      OrderedCons(c[0], Put(c[1..], key, value));
      assert ([c[0]] + Put(c[1..], key, value))[1..] == Put(c[1..], key, value);
    }
  }

  // ----- what an entry gives a key

  /** The key and the value of a directive. */
  function KeyOf(d: string): string { Lower(d[..IndexOf(d, ' ')]) }

  function ValueOf(d: string): string { if IndexOf(d, ' ') < |d| then d[IndexOf(d, ' ') + 1..] else "" }

  /** What a directive gives a key. */
  function Given(d: string, x: string): seq<string> { if KeyOf(d) == x then [ValueOf(d)] else [] }

  function DirectiveValues(ds: seq<string>, x: string): seq<string> {
    if ds == [] then [] else DirectiveValues(ds[..|ds| - 1], x) + Given(ds[|ds| - 1], x)
  }

  function If(on: bool, value: string): seq<string> { if on then [value] else [] }

  /** The address, then the directives; a key replaces what the directives say about identities. */
  function Said(k: Keys, h: Host, file: string, x: string): seq<string> {
    if h.key != "" && x == k.identitiesOnly then ["yes"]
    else if h.key != "" && x == k.identityFile then [file]
    else If(x == k.hostname, h.hostname) + If(x == k.user && h.user != "", h.user) +
         If(x == k.port && h.port > 0 && h.port != 22, if h.port > 0 then Decimal(h.port) else "") + DirectiveValues(h.directives, x)
  }

  lemma AddressMeans(k: Keys, h: Host, x: string)
    requires ValueText(h.hostname)
    ensures Ordered(Address(k, h))
    ensures ValuesOf(Address(k, h), x) ==
            If(x == k.hostname, h.hostname) + If(x == k.user && h.user != "", h.user) +
            If(x == k.port && h.port > 0 && h.port != 22, if h.port > 0 then Decimal(h.port) else "")
  {
    assert ValuesOf([], x) == [];
    AddMeans([], k.hostname, h.hostname, x);
    if h.user != "" { AddMeans(Named(k, h), k.user, h.user, x); }
    if h.port > 0 && h.port != 22 { AddMeans(Owned(k, h), k.port, Decimal(h.port), x); }
  }

  lemma DirectiveMeans(options: seq<string>, c: Settings, d: string, x: string)
    requires Plain(options) && Sets(options, d) && Ordered(c)
    ensures Ordered(AddDirective(c, d))
    ensures ValuesOf(AddDirective(c, d), x) == ValuesOf(c, x) + Given(d, x)
  {
    var o, v := SetsMeans(options, d);
    OptionReadsPlain(options, o);
    ValueIsBlankless(v);
    TrimWord(v);
    DirectiveAdds(c, o, v);
    CutAt(o, ' ', v);
    AddMeans(c, Lower(o), v, x);
  }

  lemma {:induction false} DirectivesMean(options: seq<string>, c: Settings, ds: seq<string>, x: string)
    requires Plain(options) && Ordered(c) && forall i :: 0 <= i < |ds| ==> Sets(options, ds[i])
    ensures Ordered(AddDirectives(c, ds))
    ensures ValuesOf(AddDirectives(c, ds), x) == ValuesOf(c, x) + DirectiveValues(ds, x)
  {
    if ds != [] {
      DirectivesMean(options, c, ds[..|ds| - 1], x);
      DirectiveMeans(options, AddDirectives(c, ds[..|ds| - 1]), ds[|ds| - 1], x);
      Regroup(ValuesOf(c, x), DirectiveValues(ds[..|ds| - 1], x), Given(ds[|ds| - 1], x));
    } else {
      assert ValuesOf(c, x) + [] == ValuesOf(c, x);
    }
  }

  lemma Regroup(a: seq<string>, b: seq<string>, c: seq<string>)
    ensures a + b + c == a + (b + c)
  {
  }

  /** For every key, the stanza of a well-formed entry gives exactly the values the entry says, and keys come in order. */
  lemma StanzaSays(options: seq<string>, k: Keys, h: Host, file: string, x: string)
    requires Plain(options) && WellFormed(options, h) && k.identityFile != k.identitiesOnly
    ensures Ordered(SettingsOf(k, h, file)) && ValuesOf(SettingsOf(k, h, file), x) == Said(k, h, file, x)
  {
    AddressMeans(k, h, x);
    DirectivesMean(options, Address(k, h), h.directives, x);
    if h.key != "" {
      var all := AddDirectives(Address(k, h), h.directives);
      PutMeans(all, k.identityFile, file, x);
      PutMeans(Put(all, k.identityFile, file), k.identitiesOnly, "yes", x);
    }
  }

  // ----- the order of stanzas

  predicate InOrder(hosts: seq<Host>) { forall i, j :: 0 <= i < j < |hosts| ==> !Before(hosts[j].name, hosts[i].name) }

  lemma {:induction false} InsertAdds(hosts: seq<Host>, h: Host)
    ensures multiset(InsertByName(hosts, h)) == multiset(hosts) + multiset{h}
  {
    if hosts != [] && !Before(h.name, hosts[0].name) {
      InsertAdds(hosts[1..], h);
      assert hosts == [hosts[0]] + hosts[1..];
    }
  }

  lemma InOrderCons(first: Host, rest: seq<Host>)
    requires InOrder(rest) && forall j :: 0 <= j < |rest| ==> !Before(rest[j].name, first.name)
    ensures InOrder([first] + rest)
  {
  }

  lemma {:induction false} InsertKeepsOrder(hosts: seq<Host>, h: Host)
    requires InOrder(hosts)
    ensures InOrder(InsertByName(hosts, h))
  {
    if hosts == [] || Before(h.name, hosts[0].name) {
      forall j | 0 <= j < |hosts| ensures !Before(hosts[j].name, h.name) { BeforeAll(hosts, h, j); }
      InOrderCons(h, hosts);
    } else {
      var rest := InsertByName(hosts[1..], h);
      InsertKeepsOrder(hosts[1..], h);
      InsertAdds(hosts[1..], h);
      forall j | 0 <= j < |rest| ensures !Before(rest[j].name, hosts[0].name) {
        assert rest[j] in multiset(rest);
        assert rest[j] == h || rest[j] in hosts[1..];
      }
      InOrderCons(hosts[0], rest);
    }
  }

  lemma BeforeAll(hosts: seq<Host>, h: Host, j: nat)
    requires InOrder(hosts) && j < |hosts| && Before(h.name, hosts[0].name)
    ensures !Before(hosts[j].name, h.name)
  {
    BeforeTotal(hosts[j].name, h.name);
    BeforeTotal(hosts[0].name, hosts[j].name);
    if Before(hosts[0].name, hosts[j].name) { BeforeTransitive(h.name, hosts[0].name, hosts[j].name); }
  }

  /** Rendering takes the stored entries, each once, in the order of their aliases. */
  lemma {:induction false} StanzasInOrder(hosts: seq<Host>)
    ensures InOrder(SortedByName(hosts)) && multiset(SortedByName(hosts)) == multiset(hosts)
  {
    if hosts != [] {
      var init := hosts[..|hosts| - 1];
      StanzasInOrder(init);
      InsertKeepsOrder(SortedByName(init), hosts[|hosts| - 1]);
      InsertAdds(SortedByName(init), hosts[|hosts| - 1]);
      assert hosts == init + [hosts[|hosts| - 1]];
    }
  }
}
