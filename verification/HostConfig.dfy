/**
 The config file: how host entries are rendered (subsystems/ssh/config.go, persistence.go) and how the Runner looks an
 alias up in the text (internal/ssh/exec.go).
 */
module HostConfig {
  import opened Text
  import opened HostEntry

  // ----- rendering

  /** Byte order on names. */
  predicate Before(a: string, b: string) {
    b != "" && (a == "" || a[0] < b[0] || (a[0] == b[0] && Before(a[1..], b[1..])))
  }

  /** The directives of a stanza: keys in order, each with its values in the order they were added. */
  type Settings = seq<(string, seq<string>)>

  function Add(c: Settings, key: string, value: string): Settings {
    if c == [] || Before(key, c[0].0) then [(key, [value])] + c
    else if key == c[0].0 then [(key, c[0].1 + [value])] + c[1..]
    else [c[0]] + Add(c[1..], key, value)
  }

  function Put(c: Settings, key: string, value: string): Settings {
    if c == [] || Before(key, c[0].0) then [(key, [value])] + c
    else if key == c[0].0 then [(key, [value])] + c[1..]
    else [c[0]] + Put(c[1..], key, value)
  }

  function AddDirective(c: Settings, directive: string): Settings {
    var d := TrimSpace(directive);
    var cut := IndexOf(d, ' ');
    if cut == |d| then c else Add(c, Lower(d[..cut]), TrimSpace(d[cut + 1..]))
  }

  function AddDirectives(c: Settings, ds: seq<string>): Settings {
    if ds == [] then c else AddDirective(AddDirectives(c, ds[..|ds| - 1]), ds[|ds| - 1])
  }

  /** The keys a stanza uses besides those of its directives. */
  datatype Keys = Keys(hostname: string, user: string, port: string, identityFile: string, identitiesOnly: string)

  const KEYS := Keys("hostname", "user", "port", "identityfile", "identitiesonly")

  function Named(k: Keys, h: Host): Settings { if h.hostname != "" then Add([], k.hostname, h.hostname) else [] }

  function Owned(k: Keys, h: Host): Settings { if h.user != "" then Add(Named(k, h), k.user, h.user) else Named(k, h) }

  function Address(k: Keys, h: Host): Settings {
    if h.port > 0 && h.port != 22 then Add(Owned(k, h), k.port, Decimal(h.port)) else Owned(k, h)
  }

  function SettingsOf(k: Keys, h: Host, identityFile: string): Settings {
    var all := AddDirectives(Address(k, h), h.directives);
    if h.key != "" then Put(Put(all, k.identityFile, identityFile), k.identitiesOnly, "yes") else all
  }

  function ValueLines(key: string, values: seq<string>): seq<string> {
    seq(|values|, i requires 0 <= i < |values| => "    " + key + " " + values[i])
  }

  function SettingLines(c: Settings): seq<string> {
    if c == [] then [] else ValueLines(c[0].0, c[0].1) + SettingLines(c[1..])
  }

  function Stanza(h: Host, identityFile: string): seq<string> {
    ["Host " + h.name] + SettingLines(SettingsOf(KEYS, h, identityFile)) + [""]
  }

  function InsertByName(hosts: seq<Host>, h: Host): seq<Host> {
    if hosts == [] || Before(h.name, hosts[0].name) then [h] + hosts else [hosts[0]] + InsertByName(hosts[1..], h)
  }

  function SortedByName(hosts: seq<Host>): seq<Host> {
    if hosts == [] then [] else InsertByName(SortedByName(hosts[..|hosts| - 1]), hosts[|hosts| - 1])
  }

  function KeyPath(root: string, dir: string, name: string): string { root + "/" + dir + "/keys/" + name }

  function StanzaLines(root: string, dir: string, hosts: seq<Host>): seq<string> {
    if hosts == [] then [] else Stanza(hosts[0], KeyPath(root, dir, hosts[0].key)) + StanzaLines(root, dir, hosts[1..])
  }

  function Render(root: string, dir: string, hosts: seq<Host>): string {
    Join(StanzaLines(root, dir, SortedByName(hosts)), '\n')
  }

  // ----- the Runner's scan

  predicate HostLine(line: string, alias: string) {
    var fields := Fields(line);
    |fields| >= 2 && Lower(fields[0]) == "host" && alias in fields[1..]
  }

  predicate Accepts(text: string, alias: string) {
    exists i :: 0 <= i < |Split(text, '\n')| && HostLine(Split(text, '\n')[i], alias)
  }

  // ----- the scan accepts exactly the stored aliases

  predicate PlainSettings(c: Settings) {
    forall i :: 0 <= i < |c| ==> PlainKey(c[i].0) && forall j :: 0 <= j < |c[i].1| ==> OneLine(c[i].1[j])
  }

  lemma {:induction false} AddPlain(c: Settings, key: string, value: string)
    requires PlainSettings(c) && PlainKey(key) && OneLine(value)
    ensures PlainSettings(Add(c, key, value))
  {
    if c != [] && !Before(key, c[0].0) && key != c[0].0 { AddPlain(c[1..], key, value); }
  }

  lemma {:induction false} PutPlain(c: Settings, key: string, value: string)
    requires PlainSettings(c) && PlainKey(key) && OneLine(value)
    ensures PlainSettings(Put(c, key, value))
  {
    if c != [] && !Before(key, c[0].0) && key != c[0].0 { PutPlain(c[1..], key, value); }
  }

  /** Nothing to trim at either end. */
  lemma TrimNothing(s: string)
    requires s != "" && !IsSpace(s[0]) && !IsSpace(s[|s| - 1])
    ensures TrimSpace(s) == s
  {
  }

  lemma DirectiveAdds(c: Settings, o: string, v: string)
    requires o != "" && Blankless(o) && v != "" && Blankless(v) && TrimSpace(v) == v
    ensures AddDirective(c, DirectiveText(o, v)) == Add(c, Lower(o), v)
  {
    var d := DirectiveText(o, v);
    assert d[0] == o[0] && d[|d| - 1] == v[|v| - 1];
    TrimNothing(d);
    IndexAfter(o, ' ', v);
    assert d[..|o|] == o && d[|o| + 1..] == v;
  }

  lemma OptionReadsPlain(options: seq<string>, o: string)
    requires Plain(options) && o in options
    ensures o != "" && Blankless(o) && PlainKey(Lower(o))
  {
    var i :| 0 <= i < |options| && options[i] == o;
    assert PlainKey(options[i]) && PlainKey(Lower(options[i]));
  }

  lemma DirectivePlain(options: seq<string>, c: Settings, d: string)
    requires Plain(options) && PlainSettings(c) && Sets(options, d)
    ensures PlainSettings(AddDirective(c, d))
  {
    var o, v := SetsMeans(options, d);
    OptionReadsPlain(options, o);
    ValueIsBlankless(v);
    TrimWord(v);
    DirectiveAdds(c, o, v);
    AddPlain(c, Lower(o), v);
  }

  lemma {:induction false} DirectivesPlain(options: seq<string>, c: Settings, ds: seq<string>)
    requires Plain(options) && PlainSettings(c) && forall i :: 0 <= i < |ds| ==> Sets(options, ds[i])
    ensures PlainSettings(AddDirectives(c, ds))
  {
    if ds != [] {
      DirectivesPlain(options, c, ds[..|ds| - 1]);
      DirectivePlain(options, AddDirectives(c, ds[..|ds| - 1]), ds[|ds| - 1]);
    }
  }

  /** A key of letters only, which is no spelling of `host` by its length or first letter. */
  predicate Word(key: string) { Letters(key) && key != "" && (|key| == 4 ==> key[0] !in "hH") }

  lemma AddWord(c: Settings, key: string, value: string)
    requires PlainSettings(c) && Word(key) && OneLine(value)
    ensures PlainSettings(Add(c, key, value)) && PlainSettings(Put(c, key, value))
  {
    LettersArePlain(key);
    AddPlain(c, key, value);
    PutPlain(c, key, value);
  }

  predicate Words(k: Keys) { Word(k.hostname) && Word(k.user) && Word(k.port) && Word(k.identityFile) && Word(k.identitiesOnly) }

  lemma KeysAreWords() ensures Words(KEYS) {}

  lemma AddValue(c: Settings, key: string, value: string)
    requires PlainSettings(c) && Word(key) && ValueText(value)
    ensures PlainSettings(Add(c, key, value))
  {
    ValueIsBlankless(value);
    AddWord(c, key, value);
  }

  lemma OwnedPlain(k: Keys, h: Host)
    requires Words(k) && ValueText(h.hostname) && (h.user == "" || ValueText(h.user))
    ensures PlainSettings(Owned(k, h))
  {
    AddValue([], k.hostname, h.hostname);
    if h.user != "" { AddValue(Named(k, h), k.user, h.user); }
  }

  lemma AddressPlain(k: Keys, h: Host)
    requires Words(k) && PlainSettings(Owned(k, h))
    ensures PlainSettings(Address(k, h))
  {
    if h.port > 0 {
      DecimalIsPlain(h.port);
      AddWord(Owned(k, h), k.port, Decimal(h.port));
    }
  }

  lemma KeyedPlain(k: Keys, c: Settings, file: string)
    requires Words(k) && PlainSettings(c) && OneLine(file)
    ensures PlainSettings(Put(Put(c, k.identityFile, file), k.identitiesOnly, "yes"))
  {
    AddWord(c, k.identityFile, file);
    assert OneLine("yes");
    AddWord(Put(c, k.identityFile, file), k.identitiesOnly, "yes");
  }

  lemma SettingsPlain(options: seq<string>, k: Keys, h: Host, file: string)
    requires Plain(options) && Words(k) && WellFormed(options, h) && OneLine(file)
    ensures PlainSettings(SettingsOf(k, h, file))
  {
    OwnedPlain(k, h);
    AddressPlain(k, h);
    DirectivesPlain(options, Address(k, h), h.directives);
    KeyedPlain(k, AddDirectives(Address(k, h), h.directives), file);
  }

  lemma LeadingBlank(s: string)
    ensures Fields(" " + s) == Fields(s)
  {
    assert (" " + s)[1..] == s;
  }

  lemma Indented(s: string)
    ensures Fields("    " + s) == Fields(s)
  {
    LeadingBlank(s);
    LeadingBlank(" " + s);
    LeadingBlank("  " + s);
    LeadingBlank("   " + s);
    assert " " + (" " + s) == "  " + s && " " + ("  " + s) == "   " + s && " " + ("   " + s) == "    " + s;
  }

  /** A directive line is one line, and no alias is found on it. */
  lemma DirectiveLine(key: string, value: string, alias: string)
    requires PlainKey(key) && OneLine(value)
    ensures var line := "    " + key + " " + value; '\n' !in line && !HostLine(line, alias)
  {
    var rest := " " + value;
    var line := "    " + key + " " + value;
    var word := key + rest;
    FirstField(key, rest);
    Indented(word);
    assert line == "    " + word;
  }

  predicate Quiet(lines: seq<string>, alias: string) {
    forall i :: 0 <= i < |lines| ==> '\n' !in lines[i] && !HostLine(lines[i], alias)
  }

  lemma ValueLinesQuiet(key: string, values: seq<string>, alias: string)
    requires PlainKey(key) && forall j :: 0 <= j < |values| ==> OneLine(values[j])
    ensures Quiet(ValueLines(key, values), alias)
  {
    forall i | 0 <= i < |values| ensures '\n' !in ValueLines(key, values)[i] && !HostLine(ValueLines(key, values)[i], alias) {
      DirectiveLine(key, values[i], alias);
    }
  }

  lemma {:induction false} SettingLinesQuiet(c: Settings, alias: string)
    requires PlainSettings(c)
    ensures Quiet(SettingLines(c), alias)
  {
    if c != [] {
      ValueLinesQuiet(c[0].0, c[0].1, alias);
      SettingLinesQuiet(c[1..], alias);
    }
  }

  lemma HostWord(word: string)
    requires |word| == 4 && word[0] == 'H' && word[1] == 'o' && word[2] == 's' && word[3] == 't'
    ensures Lower(word) == "host"
  {
    assert Lower(word)[0] as int == 'h' as int;
  }

  lemma AliasLine(name: string, alias: string)
    requires ValidAlias(name)
    ensures '\n' !in "Host " + name && (HostLine("Host " + name, alias) <==> alias == name)
  {
    forall i | 0 <= i < |name| ensures !IsSpace(name[i]) && name[i] != '\n' {}
    FirstField("Host", " " + name);
    LeadingBlank(name);
    FirstField(name, "");
    assert name + "" == name && "Host " + name == "Host" + (" " + name);
    var fields := Fields("Host " + name);
    assert fields == ["Host", name];
    HostWord(fields[0]);
  }

  predicate Listed(hosts: seq<Host>, alias: string) { exists i :: 0 <= i < |hosts| && hosts[i].name == alias }

  lemma FirstOrRest(hosts: seq<Host>, alias: string)
    requires hosts != []
    ensures Listed(hosts, alias) <==> hosts[0].name == alias || Listed(hosts[1..], alias)
  {
    if i :| 0 <= i < |hosts| && hosts[i].name == alias { assert i > 0 ==> hosts[1..][i - 1] == hosts[i]; }
    if i :| 0 <= i < |hosts[1..]| && hosts[1..][i].name == alias { assert hosts[i + 1] == hosts[1..][i]; }
  }

  predicate OneLine(line: string) { '\n' !in line }

  /** An entry that can be stored: well formed, with a key reference on one line. */
  predicate Storable(options: seq<string>, h: Host) { WellFormed(options, h) && OneLine(h.key) }

  lemma KeyPathIsOneLine(root: string, dir: string, name: string)
    requires OneLine(root) && OneLine(dir) && OneLine(name)
    ensures OneLine(KeyPath(root, dir, name))
  {
  }

  /** The stanza of one entry names its alias on its first line and nowhere else. */
  lemma StanzaNames(options: seq<string>, h: Host, file: string, alias: string) returns (body: seq<string>)
    requires Plain(options) && WellFormed(options, h) && OneLine(file)
    ensures Stanza(h, file) == ["Host " + h.name] + body + [""] && Quiet(body, alias)
    ensures OneLine("Host " + h.name) && (HostLine("Host " + h.name, alias) <==> alias == h.name)
  {
    KeysAreWords();
    body := SettingLines(SettingsOf(KEYS, h, file));
    SettingsPlain(options, KEYS, h, file);
    SettingLinesQuiet(SettingsOf(KEYS, h, file), alias);
    AliasLine(h.name, alias);
  }

  predicate NamesLine(lines: seq<string>, alias: string) { exists i :: 0 <= i < |lines| && HostLine(lines[i], alias) }

  predicate OneLiners(lines: seq<string>) { forall i :: 0 <= i < |lines| ==> OneLine(lines[i]) }

  /** The lines of well-formed entries name exactly their aliases. */
  lemma {:induction false} StanzasName(options: seq<string>, root: string, dir: string, hosts: seq<Host>, alias: string)
    requires Plain(options) && OneLine(root) && OneLine(dir) && forall i :: 0 <= i < |hosts| ==> Storable(options, hosts[i])
    ensures var lines := StanzaLines(root, dir, hosts); OneLiners(lines) && (NamesLine(lines, alias) <==> Listed(hosts, alias))
  {
    if hosts != [] {
      var file := KeyPath(root, dir, hosts[0].key);
      var rest := StanzaLines(root, dir, hosts[1..]);
      assert Storable(options, hosts[0]);
      KeyPathIsOneLine(root, dir, hosts[0].key);
      var body := StanzaNames(options, hosts[0], file, alias);
      StanzasName(options, root, dir, hosts[1..], alias);
      NamedLines("Host " + hosts[0].name, body, rest, alias);
      FirstOrRest(hosts, alias);
    }
  }

  lemma NamedLines(first: string, body: seq<string>, rest: seq<string>, alias: string)
    requires Quiet(body, alias) && OneLine(first) && OneLiners(rest)
    ensures var lines := [first] + body + [""] + rest;
            OneLiners(lines) && (NamesLine(lines, alias) <==> HostLine(first, alias) || NamesLine(rest, alias))
  {
    var lines := [first] + body + [""] + rest;
    var n := |body| + 2;
    assert !HostLine("", alias);
    forall i | 0 <= i < |lines|
      ensures lines[i] == if i == 0 then first else if i < n - 1 then body[i - 1] else if i == n - 1 then "" else rest[i - n]
    {
    }
    if i :| 0 <= i < |rest| && HostLine(rest[i], alias) { assert lines[i + n] == rest[i]; }
    if HostLine(first, alias) { assert lines[0] == first; }
    if i :| 0 <= i < |lines| && HostLine(lines[i], alias) { assert i == 0 || rest[i - n] == lines[i]; }
  }

  lemma {:induction false} InsertMembers(hosts: seq<Host>, h: Host, g: Host)
    ensures g in InsertByName(hosts, h) <==> g == h || g in hosts
  {
    if hosts != [] && !Before(h.name, hosts[0].name) {
      InsertMembers(hosts[1..], h, g);
      assert hosts == [hosts[0]] + hosts[1..];
    }
  }

  lemma {:induction false} SortMembers(hosts: seq<Host>, g: Host)
    ensures g in SortedByName(hosts) <==> g in hosts
  {
    if hosts != [] {
      var before := hosts[..|hosts| - 1];
      SortMembers(before, g);
      InsertMembers(SortedByName(before), hosts[|hosts| - 1], g);
      assert hosts == before + [hosts[|hosts| - 1]];
    }
  }

  lemma SortedList(hosts: seq<Host>, alias: string)
    ensures Listed(SortedByName(hosts), alias) <==> Listed(hosts, alias)
  {
    var sorted := SortedByName(hosts);
    if i :| 0 <= i < |hosts| && hosts[i].name == alias {
      SortMembers(hosts, hosts[i]);
      var j :| 0 <= j < |sorted| && sorted[j] == hosts[i];
    }
    if i :| 0 <= i < |sorted| && sorted[i].name == alias {
      SortMembers(hosts, sorted[i]);
      var j :| 0 <= j < |hosts| && hosts[j] == sorted[i];
    }
  }

  lemma JoinedLines(lines: seq<string>, alias: string)
    requires OneLiners(lines)
    ensures Accepts(Join(lines, '\n'), alias) <==> NamesLine(lines, alias)
  {
    if lines == [] {
      assert Split("", '\n') == [""] && !HostLine("", alias);
    } else {
      SplitJoin(lines, '\n');
    }
  }

  /** The Runner's scan of a rendered config accepts exactly the aliases of the entries. */
  lemma ScanAcceptsExactly(options: seq<string>, root: string, dir: string, hosts: seq<Host>, alias: string)
    requires Plain(options) && OneLine(root) && OneLine(dir) && forall i :: 0 <= i < |hosts| ==> Storable(options, hosts[i])
    ensures Accepts(Render(root, dir, hosts), alias) <==> Listed(hosts, alias)
  {
    var sorted := SortedByName(hosts);
    forall i | 0 <= i < |sorted| ensures Storable(options, sorted[i]) {
      SortMembers(hosts, sorted[i]);
      var j :| 0 <= j < |hosts| && hosts[j] == sorted[i];
    }
    StanzasName(options, root, dir, sorted, alias);
    JoinedLines(StanzaLines(root, dir, sorted), alias);
    SortedList(hosts, alias);
  }
}
