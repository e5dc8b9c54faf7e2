/**
 Reading a rendered config back, line by line, as OpenSSH does (subsystems/ssh/config.go, persistence.go): under every
 alias and for every key, the text gives exactly the values the entry of that alias says.
 */
module HostReading {
  import opened Text
  import opened HostEntry
  import opened HostConfig
  import opened HostMeaning

  // ----- the reader

  /** The keyword of a line, without regard to case and indentation, and the text after it and one blank. */
  function Keyword(line: string): string { var t := TrimLeft(line); Lower(t[..IndexOf(t, ' ')]) }

  function Argument(line: string): string {
    var t := TrimLeft(line);
    var cut := IndexOf(t, ' ');
    if cut < |t| then t[cut + 1..] else ""
  }

  /** What the lines give a key under an alias; `within` says whether the lines so far are under that alias. */
  function Says(lines: seq<string>, alias: string, key: string, within: bool): seq<string> {
    if lines == [] then []
    else
      var word, rest := Keyword(lines[0]), lines[1..];
      if word == "host" then Says(rest, alias, key, HostLine(lines[0], alias))
      else (if within && word == key then [Argument(lines[0])] else []) + Says(rest, alias, key, within)
  }

  // ----- keys in lower case

  predicate LowerCase(s: string) { forall i :: 0 <= i < |s| ==> !('A' <= s[i] <= 'Z') }

  lemma LowerStays(s: string)
    requires LowerCase(s)
    ensures Lower(s) == s
  {
  }

  predicate LowerKeys(c: Settings) { forall i :: 0 <= i < |c| ==> LowerCase(c[i].0) }

  lemma {:induction false} AddLower(c: Settings, key: string, value: string)
    requires LowerKeys(c) && LowerCase(key)
    ensures LowerKeys(Add(c, key, value)) && LowerKeys(Put(c, key, value))
  {
    if c != [] && !Before(key, c[0].0) && key != c[0].0 { AddLower(c[1..], key, value); }
  }

  predicate LowerWords(k: Keys) {
    LowerCase(k.hostname) && LowerCase(k.user) && LowerCase(k.port) && LowerCase(k.identityFile) && LowerCase(k.identitiesOnly)
  }

  lemma KeysAreLower() ensures LowerWords(KEYS) {}

  lemma DirectiveLower(c: Settings, d: string)
    requires LowerKeys(c)
    ensures LowerKeys(AddDirective(c, d))
  {
    var t := TrimSpace(d);
    var cut := IndexOf(t, ' ');
    if cut < |t| { AddLower(c, Lower(t[..cut]), TrimSpace(t[cut + 1..])); }
  }

  lemma {:induction false} DirectivesLower(c: Settings, ds: seq<string>)
    requires LowerKeys(c)
    ensures LowerKeys(AddDirectives(c, ds))
  {
    if ds != [] {
      DirectivesLower(c, ds[..|ds| - 1]);
      DirectiveLower(AddDirectives(c, ds[..|ds| - 1]), ds[|ds| - 1]);
    }
  }

  lemma SettingsLower(k: Keys, h: Host, file: string)
    requires LowerWords(k)
    ensures LowerKeys(SettingsOf(k, h, file))
  {
    AddLower([], k.hostname, h.hostname);
    AddLower(Named(k, h), k.user, h.user);
    if h.port > 0 { AddLower(Owned(k, h), k.port, Decimal(h.port)); }
    DirectivesLower(Address(k, h), h.directives);
    var all := AddDirectives(Address(k, h), h.directives);
    AddLower(all, k.identityFile, file);
    AddLower(Put(all, k.identityFile, file), k.identitiesOnly, "yes");
  }

  // ----- reading lines

  lemma TrimIndent(s: string)
    requires s != "" && !IsSpace(s[0])
    ensures TrimLeft("    " + s) == s && TrimLeft(s) == s
  {
    assert ("    " + s)[1..] == "   " + s && ("   " + s)[1..] == "  " + s && ("  " + s)[1..] == " " + s && (" " + s)[1..] == s;
    calc {
      TrimLeft("    " + s);
      TrimLeft("   " + s);
      TrimLeft("  " + s);
      TrimLeft(" " + s);
      TrimLeft(s);
    }
  }

  function SettingLine(key: string, value: string): string { "    " + key + " " + value }

  lemma SettingLineReads(key: string, value: string)
    requires PlainKey(key) && LowerCase(key)
    ensures Keyword(SettingLine(key, value)) == key != "host" && Argument(SettingLine(key, value)) == value
  {
    var t := key + [' '] + value;
    assert t[0] == key[0];
    assert SettingLine(key, value) == "    " + t;
    TrimIndent(t);
    assert ' ' !in key;
    CutAt(key, ' ', value);
    LowerStays(key);
  }

  predicate Readable(key: string) { PlainKey(key) && LowerCase(key) }

  lemma FirstLineSays(line: string, rest: seq<string>, alias: string, x: string, within: bool)
    requires Keyword(line) != "host"
    ensures Says([line] + rest, alias, x, within) ==
            (if within && Keyword(line) == x then [Argument(line)] else []) + Says(rest, alias, x, within)
  {
    assert ([line] + rest)[1..] == rest;
  }

  function Under(within: bool, values: seq<string>): seq<string> { if within then values else [] }

  lemma SettingLineSays(key: string, value: string, rest: seq<string>, alias: string, x: string, within: bool)
    requires Readable(key)
    ensures Says([SettingLine(key, value)] + rest, alias, x, within) ==
            Under(within && key == x, [value]) + Says(rest, alias, x, within)
  {
    SettingLineReads(key, value);
    FirstLineSays(SettingLine(key, value), rest, alias, x, within);
  }

  lemma UnderSplit(on: bool, values: seq<string>, after: seq<string>)
    requires values != []
    ensures Under(on, [values[0]]) + (Under(on, values[1..]) + after) == Under(on, values) + after
  {
    if on { assert [values[0]] + values[1..] == values; }
    Regroup(Under(on, [values[0]]), Under(on, values[1..]), after);
  }

  lemma {:induction false} LinesSay(lines: seq<string>, key: string, values: seq<string>, rest: seq<string>, alias: string, x: string, within: bool)
    requires Readable(key) && |lines| == |values| && forall i :: 0 <= i < |lines| ==> lines[i] == SettingLine(key, values[i])
    ensures Says(lines + rest, alias, x, within) == Under(within && key == x, values) + Says(rest, alias, x, within)
  {
    if lines == [] {
      assert lines + rest == rest;
    } else {
      assert lines + rest == [lines[0]] + (lines[1..] + rest);
      SettingLineSays(key, values[0], lines[1..] + rest, alias, x, within);
      LinesSay(lines[1..], key, values[1..], rest, alias, x, within);
      UnderSplit(within && key == x, values, Says(rest, alias, x, within));
    }
  }

  lemma ValueLinesSay(key: string, values: seq<string>, rest: seq<string>, alias: string, x: string, within: bool)
    requires Readable(key)
    ensures Says(ValueLines(key, values) + rest, alias, x, within) ==
            Under(within && key == x, values) + Says(rest, alias, x, within)
  {
    LinesSay(ValueLines(key, values), key, values, rest, alias, x, within);
  }

  lemma {:induction false} SettingLinesSay(c: Settings, rest: seq<string>, alias: string, x: string, within: bool)
    requires PlainSettings(c) && LowerKeys(c)
    ensures Says(SettingLines(c) + rest, alias, x, within) == Under(within, ValuesOf(c, x)) + Says(rest, alias, x, within)
  {
    if c == [] {
      assert SettingLines(c) + rest == rest;
    } else {
      var tail := SettingLines(c[1..]) + rest;
      assert SettingLines(c) + rest == ValueLines(c[0].0, c[0].1) + tail;
      ValueLinesSay(c[0].0, c[0].1, tail, alias, x, within);
      SettingLinesSay(c[1..], rest, alias, x, within);
      Regroup(Under(within && c[0].0 == x, c[0].1), Under(within, ValuesOf(c[1..], x)), Says(rest, alias, x, within));
    }
  }

  lemma AliasLineReads(name: string)
    requires ValidAlias(name)
    ensures Keyword("Host " + name) == "host"
  {
    var line := "Host" + [' '] + name;
    assert line == "Host " + name && line[0] == 'H';
    TrimIndent(line);
    CutAt("Host", ' ', name);
    HostWord("Host");
  }

  lemma EmptyLineSays(rest: seq<string>, alias: string, x: string, within: bool)
    requires x != ""
    ensures Says([""] + rest, alias, x, within) == Says(rest, alias, x, within)
  {
    assert Keyword("") == "";
    FirstLineSays("", rest, alias, x, within);
  }

  lemma BodyReads(name: string, c: Settings, rest: seq<string>, alias: string, x: string, within: bool)
    requires ValidAlias(name) && PlainSettings(c) && LowerKeys(c) && x != ""
    ensures Says(["Host " + name] + SettingLines(c) + [""] + rest, alias, x, within) ==
            Under(alias == name, ValuesOf(c, x)) + Says(rest, alias, x, alias == name)
  {
    AliasLine(name, alias);
    AliasLineReads(name);
    var first := "Host " + name;
    var tail := SettingLines(c) + ([""] + rest);
    assert [first] + SettingLines(c) + [""] + rest == [first] + tail && ([first] + tail)[1..] == tail;
    SettingLinesSay(c, [""] + rest, alias, x, alias == name);
    EmptyLineSays(rest, alias, x, alias == name);
  }

  lemma SettingsReadable(options: seq<string>, k: Keys, h: Host, file: string, x: string)
    requires Plain(options) && WellFormed(options, h) && OneLine(file) && Words(k) && LowerWords(k) && k.identityFile != k.identitiesOnly
    ensures var c := SettingsOf(k, h, file); PlainSettings(c) && LowerKeys(c) && ValuesOf(c, x) == Said(k, h, file, x)
  {
    SettingsPlain(options, k, h, file);
    SettingsLower(k, h, file);
    StanzaSays(options, k, h, file, x);
  }

  lemma KeysDiffer() ensures KEYS.identityFile != KEYS.identitiesOnly {}

  /** Reading a stanza: its values under its own alias, nothing under any other, whatever came before. */
  lemma StanzaReads(options: seq<string>, h: Host, file: string, rest: seq<string>, alias: string, x: string, within: bool)
    requires Plain(options) && WellFormed(options, h) && OneLine(file) && x != ""
    ensures Says(Stanza(h, file) + rest, alias, x, within) ==
            Under(alias == h.name, Said(KEYS, h, file, x)) + Says(rest, alias, x, alias == h.name)
  {
    KeysAreWords();
    KeysAreLower();
    KeysDiffer();
    SettingsReadable(options, KEYS, h, file, x);
    BodyReads(h.name, SettingsOf(KEYS, h, file), rest, alias, x, within);
  }

  // ----- reading the whole text

  /** What the entries of an alias say, in their order. */
  function AllSaid(root: string, dir: string, hosts: seq<Host>, alias: string, x: string): seq<string> {
    if hosts == [] then []
    else Under(alias == hosts[0].name, Said(KEYS, hosts[0], KeyPath(root, dir, hosts[0].key), x)) + AllSaid(root, dir, hosts[1..], alias, x)
  }

  predicate AllStorable(options: seq<string>, hosts: seq<Host>) { forall i :: 0 <= i < |hosts| ==> Storable(options, hosts[i]) }

  lemma {:induction false} StanzasRead(options: seq<string>, root: string, dir: string, hosts: seq<Host>, alias: string, x: string, within: bool)
    requires Plain(options) && OneLine(root) && OneLine(dir) && AllStorable(options, hosts) && x != ""
    ensures Says(StanzaLines(root, dir, hosts), alias, x, within) == AllSaid(root, dir, hosts, alias, x)
  {
    if hosts != [] {
      assert Storable(options, hosts[0]);
      KeyPathIsOneLine(root, dir, hosts[0].key);
      StanzaReads(options, hosts[0], KeyPath(root, dir, hosts[0].key), StanzaLines(root, dir, hosts[1..]), alias, x, within);
      StanzasRead(options, root, dir, hosts[1..], alias, x, alias == hosts[0].name);
    }
  }

  predicate OneEach(hosts: seq<Host>) { hosts == [] || (!Listed(hosts[1..], hosts[0].name) && OneEach(hosts[1..])) }

  predicate DistinctNames(hosts: seq<Host>) { forall i, j :: 0 <= i < j < |hosts| ==> hosts[i].name != hosts[j].name }

  lemma {:induction false} InsertLists(hosts: seq<Host>, h: Host, alias: string)
    ensures Listed(InsertByName(hosts, h), alias) <==> alias == h.name || Listed(hosts, alias)
  {
    FirstOrRest(InsertByName(hosts, h), alias);
    if hosts == [] || Before(h.name, hosts[0].name) {
      assert InsertByName(hosts, h)[1..] == hosts;
    } else {
      InsertLists(hosts[1..], h, alias);
      FirstOrRest(hosts, alias);
      assert InsertByName(hosts, h)[1..] == InsertByName(hosts[1..], h);
    }
  }

  lemma {:induction false} InsertKeepsOne(hosts: seq<Host>, h: Host)
    requires OneEach(hosts) && !Listed(hosts, h.name)
    ensures OneEach(InsertByName(hosts, h))
  {
    if hosts == [] || Before(h.name, hosts[0].name) {
      assert InsertByName(hosts, h)[1..] == hosts;
    } else {
      FirstOrRest(hosts, h.name);
      InsertKeepsOne(hosts[1..], h);
      InsertLists(hosts[1..], h, hosts[0].name);
      assert InsertByName(hosts, h)[1..] == InsertByName(hosts[1..], h);
    }
  }

  lemma {:induction false} SortedOnce(hosts: seq<Host>)
    requires DistinctNames(hosts)
    ensures OneEach(SortedByName(hosts))
  {
    if hosts != [] {
      var init, last := hosts[..|hosts| - 1], hosts[|hosts| - 1];
      SortedOnce(init);
      SortedList(init, last.name);
      assert !Listed(init, last.name);
      InsertKeepsOne(SortedByName(init), last);
    }
  }

  lemma {:induction false} NotListedSaysNothing(root: string, dir: string, hosts: seq<Host>, alias: string, x: string)
    requires !Listed(hosts, alias)
    ensures AllSaid(root, dir, hosts, alias, x) == []
  {
    if hosts != [] {
      FirstOrRest(hosts, alias);
      NotListedSaysNothing(root, dir, hosts[1..], alias, x);
    }
  }

  lemma {:induction false} ListedOnceSays(root: string, dir: string, hosts: seq<Host>, h: Host, x: string)
    requires OneEach(hosts) && h in hosts
    ensures AllSaid(root, dir, hosts, h.name, x) == Said(KEYS, h, KeyPath(root, dir, h.key), x)
  {
    if hosts[0] == h {
      NotListedSaysNothing(root, dir, hosts[1..], h.name, x);
    } else {
      assert h in hosts[1..];
      var i :| 0 <= i < |hosts[1..]| && hosts[1..][i] == h;
      assert Listed(hosts[1..], h.name);
      ListedOnceSays(root, dir, hosts[1..], h, x);
    }
  }

  lemma RenderedLines(root: string, dir: string, lines: seq<string>, alias: string, x: string)
    requires OneLiners(lines) && x != ""
    ensures Says(Split(Join(lines, '\n'), '\n'), alias, x, false) == Says(lines, alias, x, false)
  {
    if lines == [] {
      assert Split("", '\n') == [""] && [""] + [] == [""];
      EmptyLineSays([], alias, x, false);
    } else {
      SplitJoin(lines, '\n');
    }
  }

  lemma SortedStorable(options: seq<string>, hosts: seq<Host>)
    requires AllStorable(options, hosts)
    ensures AllStorable(options, SortedByName(hosts))
  {
    var sorted := SortedByName(hosts);
    forall i | 0 <= i < |sorted| ensures Storable(options, sorted[i]) {
      SortMembers(hosts, sorted[i]);
      var j :| 0 <= j < |hosts| && hosts[j] == sorted[i];
    }
  }

  /**
   The text rendered for a principal's entries, read back line by line, gives under the alias of each entry and for every
   key exactly the values that entry says, and under every other alias nothing.
   */
  lemma RenderedReadsBack(options: seq<string>, root: string, dir: string, hosts: seq<Host>, alias: string, x: string)
    requires Plain(options) && OneLine(root) && OneLine(dir) && AllStorable(options, hosts) && DistinctNames(hosts) && x != ""
    ensures var said := Says(Split(Render(root, dir, hosts), '\n'), alias, x, false);
            && (forall h :: h in hosts && h.name == alias ==> said == Said(KEYS, h, KeyPath(root, dir, h.key), x))
            && (!Listed(hosts, alias) ==> said == [])
  {
    var sorted := SortedByName(hosts);
    SortedStorable(options, hosts);
    SortedOnce(hosts);
    SortedList(hosts, alias);
    StanzasName(options, root, dir, sorted, alias);
    RenderedLines(root, dir, StanzaLines(root, dir, sorted), alias, x);
    StanzasRead(options, root, dir, sorted, alias, x, false);
    forall h | h in hosts && h.name == alias
      ensures AllSaid(root, dir, sorted, alias, x) == Said(KEYS, h, KeyPath(root, dir, h.key), x)
    {
      SortMembers(hosts, h);
      ListedOnceSays(root, dir, sorted, h, x);
    }
    if !Listed(hosts, alias) { NotListedSaysNothing(root, dir, sorted, alias, x); }
  }
}
