/**
 The program that submits a job (internal/slurm/slurm.go): exports, then sbatch fed from a here-document, so that no
 value reaches an argument list. A reader of the shell language finds exactly the environment and the script again,
 unless the script begins with the line that ends it.
 */
module SubmitProgram {
  import opened Text
  import opened SessionTypes
  import opened ShellQuoting

  const END := "CS_JOB_SCRIPT_END"

  predicate FoundAt(s: string, part: string, i: int) { 0 <= i && i + |part| <= |s| && s[i..i + |part|] == part }

  predicate Contains(s: string, part: string) { exists i :: 0 <= i <= |s| && FoundAt(s, part, i) }

  /** The scripts that are accepted, for a line that ends them. */
  predicate Accepted(script: string, end: string) { HasSuffix(script, "\n") && !Contains(script, "\n" + end + "\n") }

  /** A variable of the environment; the keys come sorted and differ. */
  datatype Binding = Binding(key: string, value: string)

  function Export(b: Binding): string { "export " + b.key + "=" + ShellQuote(b.value) + "\n" }

  function Exports(env: seq<Binding>): string { if env == [] then "" else Export(env[0]) + Exports(env[1..]) }

  /** The fixed words of the line that runs sbatch, and the delimiter it names. */
  datatype Frame = Frame(tool: string, named: string, scope: string, format: string, end: string)

  const FRAME := Frame("sbatch", "--job-name=", "--export=ALL", "--parsable", END)

  function ExecLine(frame: Frame): string {
    "exec " + frame.tool + " " + frame.named + "\"$2\" " + frame.scope + " " + frame.format + " <<'" + frame.end + "'\n"
  }

  function Fed(frame: Frame, script: string): string { ExecLine(frame) + (script + frame.end + "\n") }

  function Program(frame: Frame, env: seq<Binding>, script: string): string { Exports(env) + Fed(frame, script) }

  lemma {:induction false} ExportsMore(env: seq<Binding>, b: Binding)
    ensures Exports(env + [b]) == Exports(env) + Export(b)
  {
    if env == [] {
      assert [] + [b] == [b] && [b][1..] == [];
    } else {
      assert (env + [b])[1..] == env[1..] + [b];
      ExportsMore(env[1..], b);
    }
  }

  method Submission(env: seq<Binding>, script: string) returns (r: Option<string>)
    ensures r == if Accepted(script, END) then Some(Program(FRAME, env, script)) else None
  {
    if !HasSuffix(script, "\n") || Contains(script, "\n" + END + "\n") { return None; }
    var program := "";
    for i := 0 to |env|
      invariant program == Exports(env[..i])
    {
      assert env[..i + 1] == env[..i] + [env[i]];
      ExportsMore(env[..i], env[i]);
      program := program + ("export " + env[i].key + "=" + ShellQuote(env[i].value) + "\n");
    }
    assert env[..|env|] == env;
    return Some(program + (ExecLine(FRAME) + (script + END + "\n")));
  }

  // ----- the here-document

  /** The body up to the first line that is the delimiter; None when no line is. */
  function HereDocument(text: string, end: string): Option<string>
    decreases |text|
  {
    var n := IndexOf(text, '\n');
    if text[..n] == end then Some("")
    else if n == |text| then None
    else match HereDocument(text[n + 1..], end)
      case None => None
      case Some(body) => Some(text[..n + 1] + body)
  }

  /** Some complete line of the text is the delimiter. */
  predicate HasLine(text: string, end: string)
    decreases |text|
  {
    var n := IndexOf(text, '\n');
    n < |text| && (text[..n] == end || HasLine(text[n + 1..], end))
  }

  lemma ReadLine(line: string, rest: string, end: string)
    requires '\n' !in line
    ensures var text := line + ['\n'] + rest;
            && (line == end ==> HereDocument(text, end) == Some(""))
            && (line != end && HereDocument(rest, end).Some? ==>
                  HereDocument(text, end) == Some(line + ['\n'] + HereDocument(rest, end).value))
            && (HasLine(text, end) <==> line == end || HasLine(rest, end))
  {
    var text := line + ['\n'] + rest;
    CutAt(line, '\n', rest);
    assert text[..|line| + 1] == line + ['\n'];
  }

  /** A text that ends with a newline is a line and another such text, or nothing. */
  lemma FirstLine(script: string) returns (line: string, rest: string)
    requires HasSuffix(script, "\n")
    ensures script == line + ['\n'] + rest && '\n' !in line && (rest == "" || HasSuffix(rest, "\n"))
  {
    var n := IndexOf(script, '\n');
    assert script[|script| - 1] == '\n' && '\n' in script;
    IndexFound(script, '\n');
    line, rest := script[..n], script[n + 1..];
    if rest != "" { assert rest[|rest| - 1] == script[|script| - 1]; }
  }

  lemma ReadEnd(end: string)
    requires '\n' !in end
    ensures HereDocument(end + "\n", end) == Some("")
  {
    ReadLine(end, "", end);
    assert end + ['\n'] + "" == end + "\n";
  }

  ghost predicate BodyOk(script: string, end: string, body: Option<string>) {
    body.Some? && (body.value == script <==> !HasLine(script, end)) && (HasLine(script, end) ==> |body.value| < |script|)
  }

  lemma BodyOfLine(line: string, rest: string, end: string)
    requires '\n' !in line && BodyOk(rest, end, HereDocument(rest + end + "\n", end))
    ensures BodyOk(line + ['\n'] + rest, end, HereDocument(line + ['\n'] + (rest + end + "\n"), end))
  {
    ReadLine(line, rest, end);
    ReadLine(line, rest + end + "\n", end);
    SamePrefix(line + ['\n'], HereDocument(rest + end + "\n", end).value, rest);
  }

  lemma TextOfLine(line: string, rest: string, end: string)
    ensures line + ['\n'] + rest + end + "\n" == line + ['\n'] + (rest + end + "\n")
  {
  }

  /** The body of the here-document is the script exactly when no line of the script is the delimiter; else it is cut short. */
  lemma {:induction false} BodyIsScript(script: string, end: string)
    requires '\n' !in end && (script == "" || HasSuffix(script, "\n"))
    ensures BodyOk(script, end, HereDocument(script + end + "\n", end))
    decreases |script|
  {
    if script == "" {
      ReadEnd(end);
      assert script + end + "\n" == end + "\n";
    } else {
      var line, rest := FirstLine(script);
      BodyIsScript(rest, end);
      BodyOfLine(line, rest, end);
      TextOfLine(line, rest, end);
    }
  }

  lemma SamePrefix(a: string, b: string, c: string)
    ensures a + b == a + c <==> b == c
  {
    assert (a + b)[|a|..] == b && (a + c)[|a|..] == c;
  }

  // ----- the condition

  lemma Shifted(a: string, b: string, i: nat, j: nat)
    requires i <= j <= |b|
    ensures (a + b)[|a| + i..|a| + j] == b[i..j]
  {
  }

  /** A part that starts with a newline is found at the end of the line or in the rest. */
  lemma FoundAfterLine(line: string, rest: string, part: string, i: int)
    requires '\n' !in line && part != "" && part[0] == '\n' && FoundAt(line + ['\n'] + rest, part, i)
    ensures part[1..] <= rest || Contains(rest, part)
  {
    var n := |line|;
    var s := line + ['\n'] + rest;
    assert s[i..i + |part|][0] == s[i] == '\n';
    assert forall k :: 0 <= k < n ==> s[k] == line[k];
    if i == n {
      Shifted(line + ['\n'], rest, 0, |part| - 1);
      assert s[i..i + |part|][1..] == s[n + 1..n + |part|];
    } else {
      Shifted(line + ['\n'], rest, i - n - 1, i - n - 1 + |part|);
      assert FoundAt(rest, part, i - n - 1);
    }
  }

  lemma PartAfterLine(line: string, rest: string, part: string)
    requires '\n' !in line && part != "" && part[0] == '\n'
    ensures Contains(line + ['\n'] + rest, part) <==> part[1..] <= rest || Contains(rest, part)
  {
    var s := line + ['\n'] + rest;
    if i :| 0 <= i <= |s| && FoundAt(s, part, i) { FoundAfterLine(line, rest, part, i); }
    if part[1..] <= rest { FoundAtLineEnd(line, rest, part); }
    if i :| 0 <= i <= |rest| && FoundAt(rest, part, i) {
      Shifted(line + ['\n'], rest, i, i + |part|);
      assert FoundAt(s, part, |line| + 1 + i);
    }
  }

  lemma FoundAtLineEnd(line: string, rest: string, part: string)
    requires part != "" && part[0] == '\n' && part[1..] <= rest
    ensures Contains(line + ['\n'] + rest, part)
  {
    var s := line + ['\n'] + rest;
    Shifted(line, ['\n'] + rest, 0, |part|);
    assert s == line + (['\n'] + rest);
    assert (['\n'] + rest)[0..|part|] == ['\n'] + rest[..|part| - 1];
    assert part == ['\n'] + part[1..];
    assert FoundAt(s, part, |line|);
  }

  lemma FirstLineIs(line: string, rest: string, end: string)
    requires '\n' !in line && '\n' !in end
    ensures end + "\n" <= line + ['\n'] + rest <==> line == end
  {
    var s := line + ['\n'] + rest;
    if end + "\n" <= s {
      IndexAfter(end, '\n', s[|end| + 1..]);
      IndexAfter(line, '\n', rest);
      assert s == end + ['\n'] + s[|end| + 1..];
      assert s[..|end|] == end && s[..|line|] == line;
    }
  }

  /** The text has the delimiter on a line of its own exactly when it begins with it or holds it between newlines. */
  lemma {:induction false} LineIsFound(script: string, end: string)
    requires '\n' !in end && (script == "" || HasSuffix(script, "\n"))
    ensures HasLine(script, end) <==> end + "\n" <= script || Contains(script, "\n" + end + "\n")
    decreases |script|
  {
    if script != "" {
      var line, rest := FirstLine(script);
      LineIsFound(rest, end);
      ReadLine(line, rest, end);
      FirstLineIs(line, rest, end);
      PartAfterLine(line, rest, "\n" + end + "\n");
      assert ("\n" + end + "\n")[1..] == end + "\n";
    }
  }

  /** For an accepted script the body is the script if and only if its first line is not the delimiter. */
  lemma AcceptedBody(script: string, end: string)
    requires '\n' !in end && Accepted(script, end)
    ensures HereDocument(script + end + "\n", end) == Some(script) <==> !(end + "\n" <= script)
  {
    BodyIsScript(script, end);
    LineIsFound(script, end);
  }

  /** An accepted script that begins with the delimiter loses everything. */
  lemma DelimiterFirst(rest: string)
    requires Accepted(END + "\n" + rest, END)
    ensures HereDocument(END + "\n" + rest + END + "\n", END) == Some("")
  {
    ReadLine(END, rest + END + "\n", END);
    assert END + "\n" + rest + END + "\n" == END + ['\n'] + (rest + END + "\n");
  }

  /** Such a script exists: the delimiter on a line of its own. */
  lemma DelimiterAlone()
    ensures Accepted(END + "\n", END) && HereDocument(END + "\n" + END + "\n", END) == Some("")
  {
    var script := END + "\n";
    assert |"\n" + END + "\n"| > |script|;
    assert script[|script| - 1..] == "\n";
    DelimiterFirst("");
    assert END + "\n" + "" == script;
  }

  // ----- the whole program

  /** What a shell made of a program: the variables exported, in order, the command it became, and what that reads. */
  datatype Submitted = Submitted(env: seq<Binding>, command: seq<string>, script: string)

  predicate Name(s: string) { s != "" && forall i :: 0 <= i < |s| ==> IsLetter(s[i]) || IsDigit(s[i]) || s[i] == '_' }

  /** A shell with the positional parameters `args` runs exports until it becomes the command of an exec. */
  function Interpret(args: seq<string>, program: string): Option<Submitted>
    decreases |program|
  {
    match Read(args, program, Bare, None)
    case None => None
    case Some(c) =>
      if |c.words| > 1 && c.words[0] == "exec" && c.here.Some? then
        match HereDocument(c.rest, c.here.value)
        case None => None
        case Some(body) => Some(Submitted([], c.words[1..], body))
      else if |c.words| != 2 || c.words[0] != "export" || c.here.Some? || '=' !in c.words[1] || |c.rest| >= |program| then None
      else
        match Interpret(args, c.rest)
        case None => None
        case Some(after) => Some(after.(env := [Assignment(c.words[1])] + after.env))
  }

  /** The remote login shell reads the command line; it starts a shell that reads the program. */
  function Remote(line: string, program: string): Option<Submitted> {
    match Read([], line, Bare, None)
    case None => None
    case Some(c) => if |c.words| >= 3 && c.words[..3] == ["sh", "-s", "--"] then Interpret(c.words[3..], program) else None
  }

  function Assignment(word: string): Binding
    requires '=' in word
  {
    var cut := IndexOf(word, '=');
    Binding(word[..cut], word[cut..][if cut < |word| then 1 else 0..])
  }

  lemma {:induction false} ReadPlain(args: seq<string>, s: string, word: Option<string>, rest: string)
    requires s != "" && PlainWord(s)
    ensures Read(args, s + rest, Bare, word) == Read(args, rest, Bare, Grown(word, s))
  {
    assert (s + rest)[0] == s[0] && (s + rest)[1..] == s[1..] + rest;
    if |s| > 1 {
      ReadPlain(args, s[1..], Grown(word, [s[0]]), rest);
      assert Grown(word, [s[0]]).value + s[1..] == Grown(word, s).value;
    } else {
      assert s == [s[0]] && s[1..] + rest == rest;
    }
  }

  lemma ReadBlank(args: seq<string>, word: string, rest: string)
    ensures Read(args, [' '] + rest, Bare, Some(word)) == Before(Some(word), Read(args, rest, Bare, None))
  {
    assert ([' '] + rest)[1..] == rest;
  }

  lemma ReadNewline(args: seq<string>, word: string, rest: string)
    ensures Read(args, ['\n'] + rest, Bare, Some(word)) == Some(Command([word], None, rest))
  {
    assert (['\n'] + rest)[1..] == rest && [word] + [] == [word];
  }

  lemma NameIsPlain(key: string)
    requires Name(key)
    ensures PlainWord(key + "=") && '=' !in key && key + "=" != ""
  {
  }

  lemma ReadAssignment(args: seq<string>, stem: string, value: string, rest: string)
    requires stem != "" && PlainWord(stem) && NulFree(value)
    ensures Read(args, stem + (ShellQuote(value) + (['\n'] + rest)), Bare, None) == Some(Command([stem + value], None, rest))
  {
    ReadPlain(args, stem, None, ShellQuote(value) + (['\n'] + rest));
    assert "" + stem == stem;
    ReadQuoted(args, value, Some(stem), ['\n'] + rest);
    ReadNewline(args, stem + value, rest);
  }

  lemma ReadExportWord(args: seq<string>, after: string)
    ensures Read(args, "export" + ([' '] + after), Bare, None) == Before(Some("export"), Read(args, after, Bare, None))
  {
    ReadPlain(args, "export", None, [' '] + after);
    assert "" + "export" == "export";
    ReadBlank(args, "export", after);
  }

  lemma ExportText(b: Binding, rest: string)
    ensures Export(b) + rest == "export" + ([' '] + (b.key + "=" + (ShellQuote(b.value) + (['\n'] + rest))))
  {
    assert "export " == "export" + [' '];
    assert Export(b) + rest == "export" + ([' '] + (b.key + "=" + (ShellQuote(b.value) + (['\n'] + rest))));
  }

  /** Reading an export yields its words, with the value as it is, and what follows. */
  lemma ReadExport(args: seq<string>, b: Binding, rest: string)
    requires Name(b.key) && NulFree(b.value)
    ensures Read(args, Export(b) + rest, Bare, None) == Some(Command(["export", b.key + "=" + b.value], None, rest))
  {
    NameIsPlain(b.key);
    ExportText(b, rest);
    ReadExportWord(args, b.key + "=" + (ShellQuote(b.value) + (['\n'] + rest)));
    ReadAssignment(args, b.key + "=", b.value, rest);
    assert ["export"] + [b.key + "=" + b.value] == ["export", b.key + "=" + b.value];
  }

  predicate FrameOk(frame: Frame) {
    && frame.tool != "" && PlainWord(frame.tool) && frame.named != "" && PlainWord(frame.named)
    && frame.scope != "" && PlainWord(frame.scope) && frame.format != "" && PlainWord(frame.format)
    && PlainWord(frame.end)
  }

  // ----- reading the line that runs sbatch

  lemma ReadPlainWord(args: seq<string>, w: string, rest: string)
    requires w != "" && PlainWord(w)
    ensures Read(args, w + ([' '] + rest), Bare, None) == Before(Some(w), Read(args, rest, Bare, None))
  {
    ReadPlain(args, w, None, [' '] + rest);
    assert "" + w == w;
    ReadBlank(args, w, rest);
  }

  /** The second positional parameter, in double quotes, becomes part of the word as it is. */
  lemma ReadSecond(args: seq<string>, w: string, rest: string)
    requires |args| >= 2
    ensures Read(args, "\"$2\"" + rest, Bare, Some(w)) == Read(args, rest, Bare, Some(w + args[1]))
  {
    var s := "\"$2\"" + rest;
    assert s[1..] == "$2\"" + rest && s[1..][1..] == "2\"" + rest && s[1..][1..][1..] == "\"" + rest;
    assert s[1..][1..][1..][1..] == rest;
    assert w + "" == w && Positional(args, '2') == args[1];
    calc {
      Read(args, s, Bare, Some(w));
      Read(args, "$2\"" + rest, Double, Some(w));
      Read(args, "\"" + rest, Double, Some(w + args[1]));
      Read(args, rest, Bare, Some(w + args[1]));
    }
  }

  lemma ReadNamed(args: seq<string>, stem: string, rest: string)
    requires |args| >= 2 && stem != "" && PlainWord(stem)
    ensures Read(args, stem + ("\"$2\"" + ([' '] + rest)), Bare, None) == Before(Some(stem + args[1]), Read(args, rest, Bare, None))
  {
    ReadPlain(args, stem, None, "\"$2\"" + ([' '] + rest));
    assert "" + stem == stem;
    ReadSecond(args, stem, [' '] + rest);
    ReadBlank(args, stem + args[1], rest);
  }

  lemma PlainHasNoQuote(s: string)
    requires PlainWord(s)
    ensures '\'' !in s && '\n' !in s
  {
  }

  lemma ReadDelimiter(args: seq<string>, end: string, rest: string)
    requires PlainWord(end)
    ensures Read(args, "<<'" + (end + ['\''] + (['\n'] + rest)), Bare, None) == Some(Command([], Some(end), rest))
  {
    var s := "<<'" + (end + ['\''] + (['\n'] + rest));
    PlainHasNoQuote(end);
    CutAt(end, '\'', ['\n'] + rest);
    assert s[1..] == "<'" + (end + ['\''] + (['\n'] + rest));
    assert s[1..][2..] == end + ['\''] + (['\n'] + rest);
    assert s[1..][2..][|end|..] == ['\''] + (['\n'] + rest);
    assert s[1..][2..][|end|..][1..] == ['\n'] + rest && (['\n'] + rest)[1..] == rest;
  }

  /** The words of the line, as the reader meets them. */
  function ExecTail(frame: Frame, rest: string): string { "<<'" + (frame.end + ['\''] + (['\n'] + rest)) }

  function ExecFlags(frame: Frame, rest: string): string {
    frame.scope + ([' '] + (frame.format + ([' '] + ExecTail(frame, rest))))
  }

  lemma ExecText(frame: Frame, rest: string)
    ensures ExecLine(frame) + rest ==
            "exec" + ([' '] + (frame.tool + ([' '] + (frame.named + ("\"$2\"" + ([' '] + ExecFlags(frame, rest)))))))
  {
    assert "exec " == "exec" + [' '] && "\"$2\" " == "\"$2\"" + [' '] && " <<'" == [' '] + "<<'" && "'\n" == ['\''] + ['\n'];
  }

  function SbatchCommand(frame: Frame, name: string): seq<string> { [frame.tool, frame.named + name, frame.scope, frame.format] }

  lemma ReadFlags(args: seq<string>, frame: Frame, rest: string)
    requires FrameOk(frame)
    ensures Read(args, ExecFlags(frame, rest), Bare, None) == Some(Command([frame.scope, frame.format], Some(frame.end), rest))
  {
    ReadPlainWord(args, frame.scope, frame.format + ([' '] + ExecTail(frame, rest)));
    ReadPlainWord(args, frame.format, ExecTail(frame, rest));
    ReadDelimiter(args, frame.end, rest);
    assert [frame.format] + [] == [frame.format] && [frame.scope] + [frame.format] == [frame.scope, frame.format];
  }

  lemma ReadExec(args: seq<string>, frame: Frame, rest: string)
    requires FrameOk(frame) && |args| >= 2
    ensures Read(args, ExecLine(frame) + rest, Bare, None) ==
            Some(Command(["exec"] + SbatchCommand(frame, args[1]), Some(frame.end), rest))
  {
    var flags := ExecFlags(frame, rest);
    var named := frame.named + ("\"$2\"" + ([' '] + flags));
    ExecText(frame, rest);
    ReadPlainWord(args, "exec", frame.tool + ([' '] + named));
    ReadPlainWord(args, frame.tool, named);
    ReadNamed(args, frame.named, flags);
    ReadFlags(args, frame, rest);
    assert [frame.named + args[1]] + [frame.scope, frame.format] == [frame.named + args[1], frame.scope, frame.format];
    assert [frame.tool] + [frame.named + args[1], frame.scope, frame.format] == SbatchCommand(frame, args[1]);
  }

  // ----- the round trip

  lemma AssignmentOf(b: Binding)
    requires Name(b.key)
    ensures var word := b.key + "=" + b.value; '=' in word && Assignment(word) == b
  {
    var word := b.key + "=" + b.value;
    NameIsPlain(b.key);
    CutAt(b.key, '=', b.value);
    assert word == b.key + ['='] + b.value && word[|b.key|] == '=';
    assert word[|b.key|..][1..] == b.value;
  }

  lemma InterpretExport(args: seq<string>, b: Binding, rest: string)
    requires Name(b.key) && NulFree(b.value) && Interpret(args, rest).Some?
    ensures Interpret(args, Export(b) + rest) ==
            Some(Interpret(args, rest).value.(env := [b] + Interpret(args, rest).value.env))
  {
    ReadExport(args, b, rest);
    AssignmentOf(b);
  }

  /** What sbatch reads: the script, or what is left of it. */
  function Body(frame: Frame, script: string): Option<string> { HereDocument(script + frame.end + "\n", frame.end) }

  lemma InterpretBody(args: seq<string>, frame: Frame, script: string)
    requires FrameOk(frame) && Accepted(script, frame.end) && |args| >= 2
    ensures Body(frame, script).Some?
    ensures Interpret(args, Fed(frame, script)) == Some(Submitted([], SbatchCommand(frame, args[1]), Body(frame, script).value))
  {
    PlainHasNoQuote(frame.end);
    BodyIsScript(script, frame.end);
    ReadExec(args, frame, script + frame.end + "\n");
    assert (["exec"] + SbatchCommand(frame, args[1]))[1..] == SbatchCommand(frame, args[1]);
  }

  lemma ProgramSplit(frame: Frame, env: seq<Binding>, script: string)
    requires env != []
    ensures Program(frame, env, script) == Export(env[0]) + Program(frame, env[1..], script)
  {
    Grouped(Export(env[0]), Exports(env[1..]), Fed(frame, script));
  }

  lemma Grouped(a: string, b: string, c: string)
    ensures a + b + c == a + (b + c)
  {
  }

  predicate Environment(env: seq<Binding>) { forall i :: 0 <= i < |env| ==> Name(env[i].key) && NulFree(env[i].value) }

  lemma {:induction false} FramedRoundTrip(args: seq<string>, frame: Frame, env: seq<Binding>, script: string)
    requires FrameOk(frame) && Accepted(script, frame.end) && Environment(env) && |args| >= 2
    ensures Body(frame, script).Some?
    ensures Interpret(args, Program(frame, env, script)) ==
            Some(Submitted(env, SbatchCommand(frame, args[1]), Body(frame, script).value))
  {
    if env == [] {
      InterpretBody(args, frame, script);
      assert "" + Fed(frame, script) == Fed(frame, script);
    } else {
      FramedRoundTrip(args, frame, env[1..], script);
      InterpretExport(args, env[0], Program(frame, env[1..], script));
      ProgramSplit(frame, env, script);
      assert [env[0]] + env[1..] == env;
    }
  }

  lemma SourceFrame()
    ensures FrameOk(FRAME)
  {
  }

  /** How the program is started: the job's name is the second argument. */
  function StartLine(name: string): seq<string> { ["sh", "-s", "--", "cs-submit", name] }

  lemma RemoteArguments(name: string, program: string)
    requires NulFree(name)
    ensures Remote(Join(Quoted(StartLine(name)), ' '), program) == Interpret(["cs-submit", name], program)
  {
    ArgumentsRoundTrip([], StartLine(name));
    assert StartLine(name)[..3] == ["sh", "-s", "--"] && StartLine(name)[3..] == ["cs-submit", name];
  }

  /**
   For every accepted script, every NUL-free name and every environment of named, NUL-free values, the remote shells
   export exactly the environment and become exactly sbatch with the job's name; and they feed it exactly the script if
   and only if the first line is not the terminator.
   */
  lemma ProgramRoundTrip(env: seq<Binding>, name: string, script: string)
    requires Accepted(script, END) && Environment(env) && NulFree(name)
    ensures var r := Remote(Join(Quoted(StartLine(name)), ' '), Program(FRAME, env, script));
            && r.Some? && r.value.env == env
            && r.value.command == ["sbatch", "--job-name=" + name, "--export=ALL", "--parsable"]
            && (r.value.script == script <==> !(END + "\n" <= script))
  {
    SourceFrame();
    RemoteArguments(name, Program(FRAME, env, script));
    FramedRoundTrip(["cs-submit", name], FRAME, env, script);
    AcceptedBody(script, END);
  }
}
