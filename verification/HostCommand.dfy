/** A pasted ssh command becomes a host entry (subsystems/ssh/config.go). */
module HostCommand {
  import opened Text
  import opened SessionTypes
  import opened HostEntry

  datatype Fault = InvalidAlias | RemoteCommand | Unsupported | ValueMissing | BadPort | BadOption | BadText | NoHost

  datatype Parsed = Ok(host: Host) | Err(fault: Fault)

  /** Go's filepath.Base. */
  function Base(path: string): string {
    if path == "" then "."
    else if path[|path| - 1] == '/' then (if |path| == 1 then "/" else Base(path[..|path| - 1]))
    else LastElement(path)
  }

  function LastElement(path: string): string {
    if path == "" || path[|path| - 1] == '/' then "" else LastElement(path[..|path| - 1]) + [path[|path| - 1]]
  }

  function DecimalValue(s: string): int
    requires forall i :: 0 <= i < |s| ==> IsDigit(s[i])
  {
    if s == "" then 0 else DecimalValue(s[..|s| - 1]) * 10 + (s[|s| - 1] as int - '0' as int)
  }

  predicate Digits(s: string) { s != "" && forall i :: 0 <= i < |s| ==> IsDigit(s[i]) }

  /** Go's strconv.Atoi; a number beyond the machine's range is refused as a port in either case. */
  function Atoi(s: string): Option<int> {
    if s != "" && s[0] in "+-" then
      if Digits(s[1..]) then Some(if s[0] == '-' then -DecimalValue(s[1..]) else DecimalValue(s[1..])) else None
    else if Digits(s) then Some(DecimalValue(s)) else None
  }

  /** The option whose lower-case spelling is `key`. */
  function Lookup(options: seq<string>, key: string): (c: Option<string>)
    ensures c.Some? ==> c.value in options && Lower(c.value) == key
    ensures c.None? ==> forall o :: o in options ==> Lower(o) != key
  {
    if options == [] then None
    else if Lower(options[0]) == key then Some(options[0])
    else Lookup(options[1..], key)
  }

  /** The text before and after the first '=', or else the first blank. */
  function CutSetting(value: string): Option<(string, string)> {
    var equals := IndexOf(value, '=');
    var cut := if equals < |value| then equals else IndexOf(value, ' ');
    if cut == |value| then None else Some((value[..cut], value[cut + 1..]))
  }

  function CanonicalSetting(options: seq<string>, key: string, setting: string): (r: Option<(string, string)>)
    ensures r.Some? ==> r.value.0 in options
  {
    match Lookup(options, Lower(TrimSpace(key)))
    case None => None
    case Some(canonical) => Some((canonical, TrimSpace(setting)))
  }

  /** The option and the value a `-J` or `-o` names. */
  function Setting(options: seq<string>, flag: char, value: string): Option<(string, string)> {
    if flag == 'J' then Some(("ProxyJump", value))
    else match CutSetting(value)
      case None => None
      case Some(parts) => CanonicalSetting(options, parts.0, parts.1)
  }

  /** One `-p`, `-l`, `-J` or `-o` with its value. */
  function WithOption(options: seq<string>, host: Host, flag: char, value: string): Parsed {
    if flag == 'p' then
      var port := Atoi(value);
      if port.None? || port.value < 1 || port.value > 65535 then Err(BadPort) else Ok(host.(port := port.value))
    else if flag == 'l' then
      if ValueText(value) then Ok(host.(user := value)) else Err(BadText)
    else match Setting(options, flag, value)
      case None => Err(BadOption)
      case Some(s) =>
        if ValueText(s.1) then Ok(host.(directives := host.directives + [DirectiveText(s.0, s.1)])) else Err(BadText)
  }

  function WithTarget(host: Host, target: string): Parsed {
    var at := IndexOf(target, '@');
    if target == "" then Err(NoHost)
    else if at < |target| then
      if !ValueText(target[..at]) || !ValueText(target[at + 1..]) then Err(BadText)
      else Ok(host.(user := target[..at], hostname := target[at + 1..]))
    else if ValueText(target) then Ok(host.(hostname := target)) else Err(BadText)
  }

  predicate Flag(field: string) { |field| >= 2 && field[0] == '-' && field[1] in "plJo" }

  /** What one field, or a flag with its value, leads to: the end, or the entry so far and how many fields it took. */
  datatype Next = Done(result: Parsed) | More(host: Host, target: string, taken: nat)

  function Advance(options: seq<string>, host: Host, target: string, fields: seq<string>): (n: Next)
    requires fields != []
    ensures n.More? ==> 1 <= n.taken <= |fields|
  {
    var field := fields[0];
    if field == "--" then More(host, target, 1)
    else if field == "" || field[0] != '-' then
      if target != "" then Done(Err(RemoteCommand)) else More(host, field, 1)
    else if !Flag(field) then Done(Err(Unsupported))
    else if |field| == 2 && |fields| == 1 then Done(Err(ValueMissing))
    else
      var applied := WithOption(options, host, field[1], if |field| > 2 then field[2..] else fields[1]);
      if applied.Err? then Done(applied) else More(applied.host, target, if |field| > 2 then 1 else 2)
  }

  function ParseFields(options: seq<string>, host: Host, target: string, fields: seq<string>): Parsed
    decreases |fields|
  {
    if fields == [] then WithTarget(host, target)
    else match Advance(options, host, target, fields)
      case Done(r) => r
      case More(h, t, taken) => ParseFields(options, h, t, fields[taken..])
  }

  /** The fields of a command, without the name of the program. */
  function Arguments(command: string): seq<string> {
    var fields := Fields(command);
    if |fields| > 0 && Lower(Base(fields[0])) == "ssh" then fields[1..] else fields
  }

  function Blank(name: string): Host { Host(name, "", "", 22, "", []) }

  function Parse(options: seq<string>, name: string, command: string): Parsed {
    if ValidAlias(name) then ParseFields(options, Blank(name), "", Arguments(command)) else Err(InvalidAlias)
  }

  /** One round of the walk, with the index moving over a flag's value as well. */
  method Step(options: seq<string>, host: Host, target: string, fields: seq<string>, index: nat) returns (next: Next)
    requires index < |fields|
    ensures next == Advance(options, host, target, fields[index..])
  {
    var field := fields[index];
    if field == "--" { return More(host, target, 1); }
    if field == "" || field[0] != '-' {
      if target != "" { return Done(Err(RemoteCommand)); }
      return More(host, field, 1);
    }
    if |field| < 2 || field[1] !in "plJo" { return Done(Err(Unsupported)); }
    var value, taken := field[2..], 1;
    if value == "" {
      if index + 1 >= |fields| { return Done(Err(ValueMissing)); }
      value, taken := fields[index + 1], 2;
    }
    var applied := WithOption(options, host, field[1], value);
    if applied.Err? { return Done(applied); }
    return More(applied.host, target, taken);
  }

  /** The walk over the fields. */
  method Walk(options: seq<string>, start: Host, fields: seq<string>) returns (r: Parsed)
    ensures r == ParseFields(options, start, "", fields)
  {
    var host, target := start, "";
    var index := 0;
    while index < |fields|
      invariant 0 <= index <= |fields|
      invariant ParseFields(options, start, "", fields) == ParseFields(options, host, target, fields[index..])
    {
      var next := Step(options, host, target, fields, index);
      if next.Done? { return next.result; }
      assert fields[index..][next.taken..] == fields[index + next.taken..];
      host, target, index := next.host, next.target, index + next.taken;
    }
    assert fields[index..] == [];
    return WithTarget(host, target);
  }

  method ParseCommand(options: seq<string>, name: string, command: string) returns (r: Parsed)
    ensures r == Parse(options, name, command)
  {
    if !ValidAlias(name) { return Err(InvalidAlias); }
    r := Walk(options, Blank(name), Arguments(command));
  }

  /** An entry that still lacks its host name. */
  predicate Partial(options: seq<string>, h: Host) { WellFormed(options, h.(hostname := "x")) }

  lemma DirectiveKeepsPartial(options: seq<string>, host: Host, d: string)
    requires Partial(options, host) && Sets(options, d)
    ensures Partial(options, host.(directives := host.directives + [d]))
  {
  }

  lemma OptionKeepsPartial(options: seq<string>, host: Host, flag: char, value: string)
    requires Plain(options) && Partial(options, host)
    ensures var r := WithOption(options, host, flag, value);
            r.Ok? ==> Partial(options, r.host) && r.host.name == host.name && r.host.key == host.key
  {
    if flag != 'p' && flag != 'l' { DirectiveOptionKeepsPartial(options, host, flag, value); }
  }

  lemma DirectiveOptionKeepsPartial(options: seq<string>, host: Host, flag: char, value: string)
    requires Plain(options) && Partial(options, host) && flag != 'p' && flag != 'l'
    ensures var r := WithOption(options, host, flag, value);
            r.Ok? ==> Partial(options, r.host) && r.host.name == host.name && r.host.key == host.key
  {
    var s := Setting(options, flag, value);
    SettingIsAnOption(options, flag, value);
    if s.Some? && ValueText(s.value.1) {
      DirectiveSets(options, s.value.0, s.value.1);
      DirectiveKeepsPartial(options, host, DirectiveText(s.value.0, s.value.1));
    }
  }

  lemma SettingIsAnOption(options: seq<string>, flag: char, value: string)
    requires Plain(options)
    ensures Setting(options, flag, value).Some? ==> Setting(options, flag, value).value.0 in options
  {
  }

  lemma AdvanceKeepsPartial(options: seq<string>, host: Host, target: string, fields: seq<string>)
    requires Plain(options) && Partial(options, host) && fields != []
    ensures var n := Advance(options, host, target, fields);
            && (n.Done? ==> n.result.Err?)
            && (n.More? ==> Partial(options, n.host) && n.host.name == host.name && n.host.key == host.key)
  {
    var field := fields[0];
    if field != "--" && Flag(field) && (|field| > 2 || |fields| > 1) {
      OptionKeepsPartial(options, host, field[1], if |field| > 2 then field[2..] else fields[1]);
    }
  }

  lemma {:induction false} FieldsKeepPartial(options: seq<string>, host: Host, target: string, fields: seq<string>)
    requires Plain(options) && Partial(options, host)
    ensures var r := ParseFields(options, host, target, fields);
            r.Ok? ==> WellFormed(options, r.host) && r.host.name == host.name && r.host.key == host.key
    decreases |fields|
  {
    if fields != [] {
      AdvanceKeepsPartial(options, host, target, fields);
      var n := Advance(options, host, target, fields);
      if n.More? { FieldsKeepPartial(options, n.host, n.target, fields[n.taken..]); }
    }
  }

  /** Whatever is accepted is well formed, keeps the requested alias and names no key. */
  lemma ParsedIsWellFormed(options: seq<string>, name: string, command: string)
    requires Plain(options)
    ensures var r := Parse(options, name, command); r.Ok? ==> WellFormed(options, r.host) && r.host.name == name && r.host.key == ""
  {
    if ValidAlias(name) { FieldsKeepPartial(options, Blank(name), "", Arguments(command)); }
  }

  // ----- a command for every entry

  /** The `-o` form of a directive. */
  function Assignment(d: string): string {
    var cut := IndexOf(d, ' ');
    if cut == |d| then d else d[..cut] + ['='] + d[cut + 1..]
  }

  function OptionFields(ds: seq<string>): seq<string> {
    if ds == [] then [] else ["-o", Assignment(ds[0])] + OptionFields(ds[1..])
  }

  function Login(user: string): seq<string> { if user == "" then [] else ["-l", user] }

  /** A text that is read as a target, up to an '@' if it has one. */
  predicate Bare(s: string) { s != "" && '@' !in s && s[0] != '-' }

  /** The host name can stand on its own, or behind a user that can. */
  predicate Spellable(h: Host) { Bare(h.hostname) || Bare(h.user) }

  function Target(h: Host): string { if Bare(h.hostname) then h.hostname else h.user + ['@'] + h.hostname }

  /** The user is named by a flag unless the target names it. */
  function Flagged(h: Host): string { if Bare(h.hostname) then h.user else "" }

  function CommandFields(h: Host): seq<string>
    requires h.port >= 0
  {
    ["-p", Decimal(h.port)] + (Login(Flagged(h)) + (OptionFields(h.directives) + [Target(h)]))
  }

  lemma {:induction false} AtoiDecimal(n: nat)
    ensures Digits(Decimal(n)) && DecimalValue(Decimal(n)) == n && Atoi(Decimal(n)) == Some(n)
  {
    if n >= 10 {
      AtoiDecimal(n / 10);
      assert Decimal(n)[..|Decimal(n)| - 1] == Decimal(n / 10);
    }
  }

  /** A two-letter flag takes the next field as its value. */
  lemma FlagField(options: seq<string>, host: Host, flag: string, value: string, rest: seq<string>, after: Host)
    requires |flag| == 2 && Flag(flag) && flag != "--" && WithOption(options, host, flag[1], value) == Ok(after)
    ensures ParseFields(options, host, "", [flag, value] + rest) == ParseFields(options, after, "", rest)
  {
    var fields := [flag, value] + rest;
    assert fields[0] == flag && fields[1] == value && fields[2..] == rest;
  }

  lemma {:induction false} LookupFinds(options: seq<string>, i: nat)
    requires i < |options| && forall j, k :: 0 <= j < k < |options| ==> Lower(options[j]) != Lower(options[k])
    ensures Lookup(options, Lower(options[i])) == Some(options[i])
  {
    if i > 0 {
      assert Lower(options[0]) != Lower(options[i]);
      LookupFinds(options[1..], i - 1);
    }
  }

  lemma OptionIsWord(options: seq<string>, o: string)
    requires Plain(options) && o in options
    ensures o != "" && Blankless(o) && ' ' !in o && '=' !in o && Lookup(options, Lower(o)) == Some(o)
  {
    var i :| 0 <= i < |options| && options[i] == o;
    assert PlainKey(options[i]) && '=' !in options[i];
    LookupFinds(options, i);
  }

  lemma AssignmentOf(o: string, v: string)
    requires ' ' !in o
    ensures Assignment(DirectiveText(o, v)) == o + ['='] + v
  {
    CutAt(o, ' ', v);
  }

  lemma CutOf(o: string, v: string)
    requires '=' !in o
    ensures CutSetting(o + ['='] + v) == Some((o, v))
  {
    CutAt(o, '=', v);
  }

  lemma CanonicalOf(options: seq<string>, o: string, v: string)
    requires o != "" && Blankless(o) && v != "" && Blankless(v) && Lookup(options, Lower(o)) == Some(o)
    ensures CanonicalSetting(options, o, v) == Some((o, v))
  {
    TrimWord(o);
    TrimWord(v);
  }

  /** A directive in its `-o` form is appended as it was. */
  lemma AssignmentParses(options: seq<string>, host: Host, d: string)
    requires Plain(options) && Sets(options, d)
    ensures WithOption(options, host, 'o', Assignment(d)) == Ok(WithDirectives(host, [d]))
  {
    var o, v := SetsMeans(options, d);
    AssignmentSets(options, o, v);
    WithSetting(options, host, Assignment(d), o, v);
  }

  lemma AssignmentSets(options: seq<string>, o: string, v: string)
    requires Plain(options) && o in options && ValueText(v)
    ensures Setting(options, 'o', Assignment(DirectiveText(o, v))) == Some((o, v))
  {
    OptionIsWord(options, o);
    ValueIsBlankless(v);
    AssignmentOf(o, v);
    CutOf(o, v);
    CanonicalOf(options, o, v);
  }

  lemma WithSetting(options: seq<string>, host: Host, value: string, o: string, v: string)
    requires Setting(options, 'o', value) == Some((o, v)) && ValueText(v)
    ensures WithOption(options, host, 'o', value) == Ok(WithDirectives(host, [DirectiveText(o, v)]))
  {
  }

  lemma AssignmentIsWord(options: seq<string>, d: string)
    requires Plain(options) && Sets(options, d)
    ensures Assignment(d) != "" && Blankless(Assignment(d))
  {
    var o, v := SetsMeans(options, d);
    OptionIsWord(options, o);
    ValueIsBlankless(v);
    AssignmentOf(o, v);
  }

  lemma OptionParses(options: seq<string>, host: Host, d: string, rest: seq<string>)
    requires Plain(options) && Sets(options, d)
    ensures ParseFields(options, host, "", ["-o", Assignment(d)] + rest) ==
            ParseFields(options, WithDirectives(host, [d]), "", rest)
  {
    AssignmentParses(options, host, d);
    FlagField(options, host, "-o", Assignment(d), rest, WithDirectives(host, [d]));
  }

  lemma OptionFieldsSplit(ds: seq<string>, rest: seq<string>)
    requires ds != []
    ensures OptionFields(ds) + rest == ["-o", Assignment(ds[0])] + (OptionFields(ds[1..]) + rest)
  {
  }

  function WithDirectives(host: Host, ds: seq<string>): Host { host.(directives := host.directives + ds) }

  lemma DirectivesSplit(host: Host, ds: seq<string>)
    requires ds != []
    ensures WithDirectives(WithDirectives(host, [ds[0]]), ds[1..]) == WithDirectives(host, ds)
  {
    assert host.directives + [ds[0]] + ds[1..] == host.directives + ds;
  }

  lemma {:induction false} OptionsParse(options: seq<string>, host: Host, ds: seq<string>, rest: seq<string>)
    requires Plain(options) && forall i :: 0 <= i < |ds| ==> Sets(options, ds[i])
    ensures ParseFields(options, host, "", OptionFields(ds) + rest) == ParseFields(options, WithDirectives(host, ds), "", rest)
    decreases |ds|
  {
    if ds == [] {
      assert OptionFields(ds) + rest == rest && host.directives + ds == host.directives;
    } else {
      OptionFieldsSplit(ds, rest);
      OptionParses(options, host, ds[0], OptionFields(ds[1..]) + rest);
      OptionsParse(options, WithDirectives(host, [ds[0]]), ds[1..], rest);
      DirectivesSplit(host, ds);
    }
  }

  lemma LoginParses(options: seq<string>, host: Host, user: string, rest: seq<string>)
    requires host.user == "" && (user == "" || ValueText(user))
    ensures ParseFields(options, host, "", Login(user) + rest) == ParseFields(options, host.(user := user), "", rest)
  {
    if user == "" {
      assert Login(user) + rest == rest;
    } else {
      FlagField(options, host, "-l", user, rest, host.(user := user));
    }
  }

  lemma TargetParses(options: seq<string>, host: Host, h: Host)
    requires ValueText(h.hostname) && (h.user == "" || ValueText(h.user)) && Spellable(h) && host == h.(hostname := "", user := Flagged(h))
    ensures ParseFields(options, host, "", [Target(h)]) == Ok(h)
  {
    var target := Target(h);
    if Bare(h.hostname) {
      assert IndexOf(target, '@') == |target|;
    } else {
      CutAt(h.user, '@', h.hostname);
      assert target[0] == h.user[0];
    }
    var fields: seq<string> := [target];
    assert fields[1..] == [] && Advance(options, host, "", fields) == More(host, target, 1);
  }

  lemma CommandFieldsParse(options: seq<string>, h: Host)
    requires Plain(options) && WellFormed(options, h) && h.key == "" && Spellable(h)
    ensures ParseFields(options, Blank(h.name), "", CommandFields(h)) == Ok(h)
  {
    var start := Blank(h.name);
    var last := OptionFields(h.directives) + [Target(h)];
    AtoiDecimal(h.port);
    FlagField(options, start, "-p", Decimal(h.port), Login(Flagged(h)) + last, start.(port := h.port));
    LoginParses(options, start.(port := h.port), Flagged(h), last);
    var owned := start.(port := h.port, user := Flagged(h));
    OptionsParse(options, owned, h.directives, [Target(h)]);
    assert [] + h.directives == h.directives;
    TargetParses(options, owned.(directives := h.directives), h);
  }

  predicate Plainly(fields: seq<string>) { forall i :: 0 <= i < |fields| ==> fields[i] != "" && Blankless(fields[i]) }

  lemma {:induction false} OptionFieldsPlain(options: seq<string>, ds: seq<string>)
    requires Plain(options) && forall i :: 0 <= i < |ds| ==> Sets(options, ds[i])
    ensures Plainly(OptionFields(ds))
  {
    if ds != [] {
      OptionFieldsPlain(options, ds[1..]);
      AssignmentIsWord(options, ds[0]);
    }
  }

  /** The command text of an entry. */
  function CommandOf(h: Host): string
    requires h.port >= 0
  {
    Join(["ssh"] + CommandFields(h), ' ')
  }

  lemma LoginPlain(user: string)
    requires user == "" || ValueText(user)
    ensures Plainly(Login(user))
  {
    if user != "" { ValueIsBlankless(user); }
  }

  lemma TargetPlain(h: Host)
    requires ValueText(h.hostname) && (h.user == "" || ValueText(h.user))
    ensures Plainly([Target(h)])
  {
    ValueIsBlankless(h.hostname);
    if h.user != "" { ValueIsBlankless(h.user); }
  }

  lemma BothPlain(a: seq<string>, b: seq<string>)
    requires Plainly(a) && Plainly(b)
    ensures Plainly(a + b)
  {
  }

  lemma CommandPlain(options: seq<string>, h: Host)
    requires Plain(options) && WellFormed(options, h)
    ensures Plainly(CommandFields(h))
  {
    OptionFieldsPlain(options, h.directives);
    LoginPlain(Flagged(h));
    TargetPlain(h);
    DecimalIsPlain(h.port);
    BothPlain(OptionFields(h.directives), [Target(h)]);
    BothPlain(Login(Flagged(h)), OptionFields(h.directives) + [Target(h)]);
    BothPlain(["-p", Decimal(h.port)], Login(Flagged(h)) + (OptionFields(h.directives) + [Target(h)]));
  }

  lemma CommandSplits(options: seq<string>, h: Host)
    requires Plain(options) && WellFormed(options, h)
    ensures Fields(CommandOf(h)) == ["ssh"] + CommandFields(h)
  {
    CommandPlain(options, h);
    assert Plainly(["ssh"]);
    FieldsJoin(["ssh"] + CommandFields(h));
  }

  lemma {:induction false} LastOfWord(s: string)
    requires '/' !in s
    ensures LastElement(s) == s
  {
    if s != "" {
      var init := s[..|s| - 1];
      assert s == init + [s[|s| - 1]] && s[|s| - 1] in s;
      LastOfWord(init);
    }
  }

  lemma SshIsBase()
    ensures Lower(Base("ssh")) == "ssh"
  {
    LastOfWord("ssh");
    assert Lower("ssh")[0] == 's' && Lower("ssh")[1] == 's' && Lower("ssh")[2] == 'h';
  }

  /** The entry comes back from the command that spells it out: port, user, directives in order, target. */
  lemma CommandRoundTrip(options: seq<string>, h: Host)
    requires Plain(options) && WellFormed(options, h) && h.key == "" && Spellable(h)
    ensures Parse(options, h.name, CommandOf(h)) == Ok(h)
  {
    CommandSplits(options, h);
    SshIsBase();
    assert (["ssh"] + CommandFields(h))[1..] == CommandFields(h);
    CommandFieldsParse(options, h);
  }

  // ----- and no command for any other

  lemma TargetIsSpellable(host: Host, target: string)
    requires target == "" || target[0] != '-'
    ensures WithTarget(host, target).Ok? ==> Spellable(WithTarget(host, target).host)
  {
  }

  lemma {:induction false} FieldsAreSpellable(options: seq<string>, host: Host, target: string, fields: seq<string>)
    requires target == "" || target[0] != '-'
    ensures var r := ParseFields(options, host, target, fields); r.Ok? ==> Spellable(r.host)
    decreases |fields|
  {
    if fields == [] {
      TargetIsSpellable(host, target);
    } else {
      var n := Advance(options, host, target, fields);
      AdvanceStops(options, host, target, fields);
      if n.More? { FieldsAreSpellable(options, n.host, n.target, fields[n.taken..]); }
    }
  }

  /** The walk ends early only with a fault, and takes no flag for a target. */
  lemma AdvanceStops(options: seq<string>, host: Host, target: string, fields: seq<string>)
    requires fields != [] && (target == "" || target[0] != '-')
    ensures var n := Advance(options, host, target, fields);
            (n.Done? ==> n.result.Err?) && (n.More? ==> n.target == "" || n.target[0] != '-')
  {
  }

  ghost predicate HasCommand(options: seq<string>, h: Host) { exists name, command :: Parse(options, name, command) == Ok(h) }

  /** Exactly the well-formed entries without a key whose target can be spelled are what some command stands for. */
  lemma CommandsSpellExactly(options: seq<string>, h: Host)
    requires Plain(options)
    ensures HasCommand(options, h) <==> WellFormed(options, h) && h.key == "" && Spellable(h)
  {
    if HasCommand(options, h) {
      var name, command :| Parse(options, name, command) == Ok(h);
      ParsedIsWellFormed(options, name, command);
      FieldsAreSpellable(options, Blank(name), "", Arguments(command));
    }
    if WellFormed(options, h) && h.key == "" && Spellable(h) { CommandRoundTrip(options, h); }
  }

  // ----- other spellings

  /** A value may be attached to its flag. */
  lemma AttachedValueIsTheSame(options: seq<string>, host: Host, target: string, flag: string, value: string, rest: seq<string>)
    requires |flag| == 2 && Flag(flag) && value != ""
    ensures ParseFields(options, host, target, [flag + value] + rest) == ParseFields(options, host, target, [flag, value] + rest)
  {
    var joined, apart := [flag + value] + rest, [flag, value] + rest;
    assert joined[0] == flag + value && (flag + value)[2..] == value && (flag + value)[..2] == flag;
    assert joined[1..] == rest && apart[2..] == rest && apart[0] == flag && apart[1] == value;
    assert flag != "--" && flag + value != "--";
  }

  /** `-J host` is `-o ProxyJump=host`; ProxyJump is the first of the options. */
  lemma JumpIsAnOption(options: seq<string>, host: Host, target: string, value: string, rest: seq<string>)
    requires Plain(options) && ValueText(value)
    ensures ParseFields(options, host, target, ["-J", value] + rest) == ParseFields(options, host, target, ["-o", options[0] + ['='] + value] + rest)
  {
    OptionSets(options, options[0], value);
    SameFlag(options, host, target, "-J", value, "-o", options[0] + ['='] + value, rest);
  }

  lemma OptionSets(options: seq<string>, o: string, value: string)
    requires Plain(options) && o in options && ValueText(value)
    ensures Setting(options, 'o', o + ['='] + value) == Some((o, value))
  {
    OptionIsWord(options, o);
    ValueIsBlankless(value);
    CutOf(o, value);
    CanonicalOf(options, o, value);
  }

  lemma SameFlag(options: seq<string>, host: Host, target: string, f: string, v: string, g: string, u: string, rest: seq<string>)
    requires |f| == 2 && Flag(f) && |g| == 2 && Flag(g) && WithOption(options, host, f[1], v) == WithOption(options, host, g[1], u)
    ensures ParseFields(options, host, target, [f, v] + rest) == ParseFields(options, host, target, [g, u] + rest)
  {
    assert f != "--" && g != "--";
    assert ([f, v] + rest)[2..] == rest && ([g, u] + rest)[2..] == rest;
  }

  /** The target may stand anywhere: before a flag it is what it is after it. */
  lemma TargetStandsAnywhere(options: seq<string>, host: Host, flag: string, value: string, target: string, rest: seq<string>)
    requires |flag| == 2 && Flag(flag) && target != "" && target[0] != '-'
    ensures ParseFields(options, host, "", [target, flag, value] + rest) == ParseFields(options, host, "", [flag, value, target] + rest)
  {
    var first, last := [target, flag, value] + rest, [flag, value, target] + rest;
    var applied := WithOption(options, host, flag[1], value);
    assert flag != "--";
    assert first[1..] == [flag, value] + rest && last[2..] == [target] + rest;
    assert ([flag, value] + rest)[2..] == rest && ([target] + rest)[1..] == rest;
    assert ParseFields(options, host, "", first) == ParseFields(options, host, target, [flag, value] + rest);
    if applied.Ok? {
      assert ParseFields(options, host, target, [flag, value] + rest) == ParseFields(options, applied.host, target, rest);
      assert ParseFields(options, host, "", last) == ParseFields(options, applied.host, "", [target] + rest);
      assert ParseFields(options, applied.host, "", [target] + rest) == ParseFields(options, applied.host, target, rest);
    }
  }

  /** A second target is a remote command, which is refused; so is every other flag. */
  lemma WhatIsRefused(options: seq<string>, host: Host, target: string, field: string, rest: seq<string>)
    ensures target != "" && field != "" && field[0] != '-' ==> ParseFields(options, host, target, [field] + rest) == Err(RemoteCommand)
    ensures field != "" && field[0] == '-' && field != "--" && !Flag(field) ==> ParseFields(options, host, target, [field] + rest) == Err(Unsupported)
    ensures field == "--" ==> ParseFields(options, host, target, [field] + rest) == ParseFields(options, host, target, rest)
    ensures ParseFields(options, host, "", []) == Err(NoHost)
  {
    assert ([field] + rest)[1..] == rest;
  }

  /** An option may be spelled in any case, and its directive has the canonical spelling. */
  lemma CaseOfOptionsIsIgnored(options: seq<string>, host: Host, target: string, o: string, spelled: string, value: string, rest: seq<string>)
    requires Plain(options) && o in options && ValueText(value) && Lower(spelled) == Lower(o) && '=' !in spelled && spelled != "" && Blankless(spelled)
    ensures ParseFields(options, host, target, ["-o", spelled + ['='] + value] + rest) ==
            ParseFields(options, host, target, ["-o", o + ['='] + value] + rest)
  {
    OptionSets(options, o, value);
    OptionIsWord(options, o);
    ValueIsBlankless(value);
    CutOf(spelled, value);
    TrimWord(spelled);
    TrimWord(value);
    assert Setting(options, 'o', spelled + ['='] + value) == Some((o, value));
    SameFlag(options, host, target, "-o", spelled + ['='] + value, "-o", o + ['='] + value, rest);
  }

  lemma {:induction false} LastAfterSlash(dir: string, name: string)
    requires '/' !in name
    ensures LastElement(dir + ['/'] + name) == name
  {
    var path := dir + ['/'] + name;
    if name != "" {
      var init := name[..|name| - 1];
      assert name == init + [name[|name| - 1]] && name[|name| - 1] in name;
      assert path[..|path| - 1] == dir + ['/'] + init && path[|path| - 1] == name[|name| - 1];
      LastAfterSlash(dir, init);
    }
  }

  /** The program may be named by a path: what counts is its last element. */
  lemma ProgramMayBeAPath(dir: string, name: string)
    requires name != "" && '/' !in name
    ensures Base(dir + ['/'] + name) == name && Base(name) == name
  {
    var path := dir + ['/'] + name;
    assert path[|path| - 1] == name[|name| - 1] && name[|name| - 1] in name;
    LastAfterSlash(dir, name);
    LastOfWord(name);
  }
}
