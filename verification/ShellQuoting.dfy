/**
 Arguments and programs handed to a remote shell (internal/ssh/exec.go, internal/slurm/slurm.go), read back by the rules
 of the POSIX.1-2017 Shell Command Language: single quotes (section 2.2.2), double quotes (section 2.2.3),
 positional parameters (section 2.5.1), and here-documents (section 2.7.4).
 */
module ShellQuoting {
  import opened Text
  import opened SessionTypes

  const NUL: char := 0 as char

  predicate NulFree(s: string) { NUL !in s }

  /** A single quote closes the quotation, stands in double quotes, and opens it again. */
  function Escaped(value: string): string {
    if value == "" then "" else (if value[0] == '\'' then "'\"'\"'" else [value[0]]) + Escaped(value[1..])
  }

  function ShellQuote(value: string): string { "'" + Escaped(value) + "'" }

  // ----- the reader

  datatype Mode = Bare | Single | Double

  /** Characters that stand for themselves outside quotes. Everything else the reader does not know is refused. */
  predicate PlainChar(c: char) { IsLetter(c) || IsDigit(c) || c in "_=-./:,+@%" }

  predicate PlainWord(s: string) { forall i :: 0 <= i < |s| ==> PlainChar(s[i]) }

  function Grown(word: Option<string>, more: string): Option<string> { Some((if word.Some? then word.value else "") + more) }

  /** What was read: the words of one command, its here-document's delimiter, and the text after its newline. */
  datatype Command = Command(words: seq<string>, here: Option<string>, rest: string)

  function Before(word: Option<string>, c: Option<Command>): Option<Command> {
    if c.None? || word.None? then c else Some(c.value.(words := [word.value] + c.value.words))
  }

  function Delimited(end: string, c: Option<Command>): Option<Command> {
    if c.None? || c.value.here.Some? then None else Some(c.value.(here := Some(end)))
  }

  /** `$1` to `$9`; a parameter that is not set is empty. */
  function Positional(args: seq<string>, digit: char): string
    requires '1' <= digit <= '9'
  {
    var n := digit as int - '0' as int;
    if n <= |args| then args[n - 1] else ""
  }

  /**
   Reads one command, in a shell with the positional parameters `args`. `word` is the word under way. A here-document
   must name its delimiter in single quotes, so that its body is not expanded.
   */
  function Read(args: seq<string>, s: string, mode: Mode, word: Option<string>): Option<Command>
    decreases |s|
  {
    if s == "" then (if mode == Bare then Before(word, Some(Command([], None, ""))) else None)
    else
      var c, rest := s[0], s[1..];
      if c == NUL then None
      else match mode
        case Single => if c == '\'' then Read(args, rest, Bare, word) else Read(args, rest, Single, Grown(word, [c]))
        case Double =>
          if c == '"' then Read(args, rest, Bare, word)
          else if c == '$' then
            if rest != "" && '1' <= rest[0] <= '9' then
              Read(args, rest[1..], Double, Grown(word, Positional(args, rest[0])))
            else None
          else if c in "`\\" then None
          else Read(args, rest, Double, Grown(word, [c]))
        case Bare =>
          if c == ' ' || c == '\t' then Before(word, Read(args, rest, Bare, None))
          else if c == '\n' then Before(word, Some(Command([], None, rest)))
          else if c == '\'' then Read(args, rest, Single, Grown(word, ""))
          else if c == '"' then Read(args, rest, Double, Grown(word, ""))
          else if PlainChar(c) then Read(args, rest, Bare, Grown(word, [c]))
          else if c == '<' && word.None? && "<'" <= rest then
            var n := IndexOf(rest[2..], '\'');
            var end, after := rest[2..][..n], rest[2..][n..];
            if |after| < 2 || after[1] !in " \n" || !PlainWord(end) then None
            else Delimited(end, Read(args, after[1..], Bare, None))
          else None
  }

  // ----- quoting and reading

  lemma ReadQuoteMark(outer: seq<string>, w: string, rest: string)
    ensures Read(outer, "'\"'\"'" + rest, Single, Some(w)) == Read(outer, rest, Single, Some(w + "'"))
  {
    var s := "'\"'\"'" + rest;
    assert s[1..] == "\"'\"'" + rest && s[1..][1..] == "'\"'" + rest;
    assert s[1..][1..][1..] == "\"'" + rest && s[1..][1..][1..][1..] == "'" + rest && s[1..][1..][1..][1..][1..] == rest;
    assert w + "" == w && w + "'" + "" == w + "'";
    calc {
      Read(outer, s, Single, Some(w));
      Read(outer, "\"'\"'" + rest, Bare, Some(w));
      Read(outer, "'\"'" + rest, Double, Some(w));
      Read(outer, "\"'" + rest, Double, Some(w + "'"));
      Read(outer, "'" + rest, Bare, Some(w + "'"));
      Read(outer, rest, Single, Some(w + "'"));
    }
  }

  lemma ReadPlainInQuotes(outer: seq<string>, c: char, w: string, rest: string)
    requires c != '\'' && c != NUL
    ensures Read(outer, [c] + rest, Single, Some(w)) == Read(outer, rest, Single, Some(w + [c]))
  {
    assert ([c] + rest)[1..] == rest;
  }

  lemma {:induction false} ReadEscaped(outer: seq<string>, value: string, w: string, rest: string)
    requires NulFree(value)
    ensures Read(outer, Escaped(value) + "'" + rest, Single, Some(w)) == Read(outer, rest, Bare, Some(w + value))
  {
    if value == "" {
      assert Escaped(value) + "'" + rest == "'" + rest && ("'" + rest)[1..] == rest && w + value == w;
    } else {
      var after := Escaped(value[1..]) + "'" + rest;
      ReadEscaped(outer, value[1..], w + [value[0]], rest);
      assert w + [value[0]] + value[1..] == w + value;
      if value[0] == '\'' {
        assert Escaped(value) + "'" + rest == "'\"'\"'" + after;
        ReadQuoteMark(outer, w, after);
      } else {
        assert Escaped(value) + "'" + rest == [value[0]] + after;
        ReadPlainInQuotes(outer, value[0], w, after);
      }
    }
  }

  /** A quoted value adds exactly itself to the word under way. */
  lemma ReadQuoted(outer: seq<string>, value: string, word: Option<string>, rest: string)
    requires NulFree(value)
    ensures Read(outer, ShellQuote(value) + rest, Bare, word) == Read(outer, rest, Bare, Grown(word, value))
  {
    var s := ShellQuote(value) + rest;
    assert s[1..] == Escaped(value) + "'" + rest;
    ReadEscaped(outer, value, Grown(word, "").value, rest);
    assert Grown(word, "").value + value == Grown(word, value).value;
  }

  function Quoted(args: seq<string>): seq<string> { seq(|args|, i requires 0 <= i < |args| => ShellQuote(args[i])) }

  method QuoteArguments(args: seq<string>) returns (line: string)
    ensures line == Join(Quoted(args), ' ')
  {
    var quoted := new string[|args|];
    for i := 0 to |args|
      invariant forall j :: 0 <= j < i ==> quoted[j] == ShellQuote(args[j])
    {
      quoted[i] := ShellQuote(args[i]);
    }
    assert quoted[..] == Quoted(args);
    return Join(quoted[..], ' ');
  }

  lemma ReadWordThenBlank(outer: seq<string>, value: string, rest: string)
    requires NulFree(value)
    ensures Read(outer, ShellQuote(value) + [' '] + rest, Bare, None) == Before(Some(value), Read(outer, rest, Bare, None))
  {
    ReadQuoted(outer, value, None, " " + rest);
    assert ShellQuote(value) + [' '] + rest == ShellQuote(value) + (" " + rest);
    assert (" " + rest)[1..] == rest && "" + value == value;
  }

  /** Reading the joined quoted arguments gives back exactly the arguments, whatever they hold. */
  lemma {:induction false} ArgumentsRoundTrip(outer: seq<string>, args: seq<string>)
    requires forall i :: 0 <= i < |args| ==> NulFree(args[i])
    ensures Read(outer, Join(Quoted(args), ' '), Bare, None) == Some(Command(args, None, ""))
  {
    if |args| == 1 {
      ReadQuoted(outer, args[0], None, "");
      assert ShellQuote(args[0]) + "" == ShellQuote(args[0]) && "" + args[0] == args[0];
      assert Quoted(args)[0] == ShellQuote(args[0]) && [args[0]] + [] == args;
    } else if |args| > 1 {
      ArgumentsRoundTrip(outer, args[1..]);
      assert Quoted(args)[1..] == Quoted(args[1..]);
      ReadWordThenBlank(outer, args[0], Join(Quoted(args[1..]), ' '));
      assert [args[0]] + args[1..] == args;
    }
  }
}
