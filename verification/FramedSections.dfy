/**
 Marker-delimited output (internal/ssh/framed.go): section names on lines of their own, in a fixed order, with whatever
 a login banner prints before the first one ignored.
 */
module FramedSections {
  import opened Text
  import opened SessionTypes

  function TrimSuffix(s: string, c: char): string { if s != "" && s[|s| - 1] == c then s[..|s| - 1] else s }

  function TrimLines(lines: seq<string>): seq<string> {
    seq(|lines|, i requires 0 <= i < |lines| => TrimSuffix(lines[i], '\r'))
  }

  /** The lines of an output: a final newline ends the last line, and a carriage return before a newline is dropped. */
  function Lines(output: string): seq<string> { TrimLines(Split(TrimSuffix(output, '\n'), '\n')) }

  // ----- the specification

  /** The lines that start with the prefix, in order. */
  function Marked(lines: seq<string>, prefix: string): seq<string> {
    if lines == [] then []
    else Marked(lines[..|lines| - 1], prefix) + (if prefix <= lines[|lines| - 1] then [lines[|lines| - 1]] else [])
  }

  /** For each marked line, the lines up to the next marked one. Lines before the first marked one belong nowhere. */
  function Chunks(lines: seq<string>, prefix: string): (chunks: seq<seq<string>>)
    ensures |chunks| == |Marked(lines, prefix)|
  {
    if lines == [] then []
    else
      var before := Chunks(lines[..|lines| - 1], prefix);
      var last := lines[|lines| - 1];
      if prefix <= last then before + [[]]
      else if before == [] then []
      else before[..|before| - 1] + [before[|before| - 1] + [last]]
  }

  function Assemble(names: seq<string>, chunks: seq<seq<string>>): map<string, string>
    requires |names| == |chunks|
  {
    if names == [] then map[]
    else Assemble(names[..|names| - 1], chunks[..|chunks| - 1])[names[|names| - 1] := Join(chunks[|chunks| - 1], '\n')]
  }

  /** Parsing succeeds exactly when the marked lines are the expected names in order. */
  function Parsed(output: string, prefix: string, names: seq<string>): Option<map<string, string>> {
    var lines := Lines(output);
    if Marked(lines, prefix) == names then Some(Assemble(names, Chunks(lines, prefix))) else None
  }

  // ----- the loop

  /** The names match so far, and the open section holds the lines since its marker. */
  ghost predicate Reading(lines: seq<string>, prefix: string, names: seq<string>, next: nat, content: seq<string>, sections: map<string, string>)
  {
    && next <= |names| && Marked(lines, prefix) == names[..next]
    && var chunks := Chunks(lines, prefix);
       if next == 0 then content == [] && sections == map[]
       else content == chunks[next - 1] && sections == Assemble(names[..next - 1], chunks[..next - 1])
  }

  lemma ReadContent(lines: seq<string>, line: string, prefix: string, names: seq<string>, next: nat, content: seq<string>, sections: map<string, string>)
    requires Reading(lines, prefix, names, next, content, sections) && !(prefix <= line)
    ensures Reading(lines + [line], prefix, names, next, if next == 0 then [] else content + [line], sections)
  {
    var more := lines + [line];
    assert more[..|more| - 1] == lines;
    if next > 0 { assert Chunks(more, prefix)[..next - 1] == Chunks(lines, prefix)[..next - 1]; }
  }

  function Flushed(names: seq<string>, next: nat, content: seq<string>, sections: map<string, string>): map<string, string>
    requires next <= |names|
  {
    if next > 0 then sections[names[next - 1] := Join(content, '\n')] else sections
  }

  lemma Flush(lines: seq<string>, prefix: string, names: seq<string>, next: nat, content: seq<string>, sections: map<string, string>)
    requires Reading(lines, prefix, names, next, content, sections)
    ensures Flushed(names, next, content, sections) == Assemble(names[..next], Chunks(lines, prefix))
  {
    if next > 0 {
      assert names[..next][..next - 1] == names[..next - 1];
    }
  }

  lemma ReadMarker(lines: seq<string>, line: string, prefix: string, names: seq<string>, next: nat, content: seq<string>, sections: map<string, string>)
    requires Reading(lines, prefix, names, next, content, sections) && prefix <= line && next < |names| && line == names[next]
    ensures Reading(lines + [line], prefix, names, next + 1, [], Flushed(names, next, content, sections))
  {
    var more := lines + [line];
    assert more[..|more| - 1] == lines;
    assert Chunks(more, prefix)[..next] == Chunks(lines, prefix);
    Flush(lines, prefix, names, next, content, sections);
  }

  /** Once a marked line does not fit, the marked lines of the whole output are not the names. */
  lemma {:induction false} MarkedGrows(lines: seq<string>, i: nat, prefix: string)
    requires i <= |lines|
    ensures Marked(lines[..i], prefix) <= Marked(lines, prefix)
  {
    if i == |lines| {
      assert lines[..i] == lines;
    } else {
      var before := lines[..|lines| - 1];
      assert before[..i] == lines[..i];
      MarkedGrows(before, i, prefix);
    }
  }

  lemma MarkerMismatch(lines: seq<string>, i: nat, prefix: string, names: seq<string>, next: nat)
    requires i < |lines| && next <= |names| && Marked(lines[..i], prefix) == names[..next] && prefix <= lines[i]
    requires next == |names| || lines[i] != names[next]
    ensures Marked(lines, prefix) != names
  {
    MarkedGrows(lines, i + 1, prefix);
    assert lines[..i + 1][..i] == lines[..i];
    assert Marked(lines[..i + 1], prefix) == names[..next] + [lines[i]];
    assert Marked(lines, prefix)[next] == lines[i];
  }

  /** The marked lines of a whole output that was read to its end. */
  lemma ReadToEnd(lines: seq<string>, prefix: string, names: seq<string>, next: nat, content: seq<string>, sections: map<string, string>)
    requires Reading(lines, prefix, names, next, content, sections)
    ensures next == |names| ==> Marked(lines, prefix) == names && Flushed(names, next, content, sections) == Assemble(names, Chunks(lines, prefix))
    ensures next < |names| ==> Marked(lines, prefix) != names
  {
    Flush(lines, prefix, names, next, content, sections);
    if next == |names| { assert names[..next] == names; } else { assert |names[..next]| < |names|; }
  }

  method Sections(output: string, prefix: string, names: seq<string>) returns (r: Option<map<string, string>>)
    ensures r == Parsed(output, prefix, names)
  {
    var sections: map<string, string> := map[];
    var next, content := 0, [];
    var raw := Split(TrimSuffix(output, '\n'), '\n');
    ghost var lines := Lines(output);
    var i := 0;
    while i < |raw|
      invariant 0 <= i <= |raw| && Reading(lines[..i], prefix, names, next, content, sections)
    {
      var line := TrimSuffix(raw[i], '\r');
      assert lines[..i + 1] == lines[..i] + [line];
      if !(prefix <= line) {
        ReadContent(lines[..i], line, prefix, names, next, content, sections);
        if next > 0 { content := content + [line]; }
      } else if next == |names| || line != names[next] {
        MarkerMismatch(lines, i, prefix, names, next);
        return None;
      } else {
        ReadMarker(lines[..i], line, prefix, names, next, content, sections);
        if next > 0 { sections := sections[names[next - 1] := Join(content, '\n')]; }
        next, content := next + 1, [];
      }
      i := i + 1;
    }
    assert lines[..|raw|] == lines;
    ReadToEnd(lines, prefix, names, next, content, sections);
    if next > 0 { sections := sections[names[next - 1] := Join(content, '\n')]; }
    if next < |names| { return None; }
    return Some(sections);
  }

  // ----- printing and parsing

  predicate Unmarked(lines: seq<string>, prefix: string) { forall i :: 0 <= i < |lines| ==> !(prefix <= lines[i]) }

  /** Section by section: the name, then the content. */
  function Framed(names: seq<string>, contents: seq<seq<string>>): seq<string>
    requires |names| == |contents|
  {
    if names == [] then []
    else Framed(names[..|names| - 1], contents[..|contents| - 1]) + [names[|names| - 1]] + contents[|contents| - 1]
  }

  lemma {:induction false} BannerChunks(banner: seq<string>, prefix: string)
    requires Unmarked(banner, prefix)
    ensures Marked(banner, prefix) == [] && Chunks(banner, prefix) == []
  {
    if banner != [] { BannerChunks(banner[..|banner| - 1], prefix); }
  }

  /** A section's content extends the last chunk. */
  lemma {:induction false} ContentChunks(lines: seq<string>, content: seq<string>, prefix: string)
    requires Unmarked(content, prefix) && Chunks(lines, prefix) != []
    ensures Marked(lines + content, prefix) == Marked(lines, prefix)
    ensures var chunks := Chunks(lines, prefix);
            Chunks(lines + content, prefix) == chunks[..|chunks| - 1] + [chunks[|chunks| - 1] + content]
  {
    var chunks := Chunks(lines, prefix);
    if content == [] {
      assert lines + content == lines && chunks[|chunks| - 1] + content == chunks[|chunks| - 1];
    } else {
      var init, last := content[..|content| - 1], content[|content| - 1];
      ContentChunks(lines, init, prefix);
      var all := lines + content;
      assert all[..|all| - 1] == lines + init && all[|all| - 1] == last;
      assert chunks[|chunks| - 1] + init + [last] == chunks[|chunks| - 1] + content;
    }
  }

  lemma MarkerChunk(before: seq<string>, name: string, prefix: string)
    requires prefix <= name
    ensures Marked(before + [name], prefix) == Marked(before, prefix) + [name]
    ensures Chunks(before + [name], prefix) == Chunks(before, prefix) + [[]]
  {
    assert (before + [name])[..|before|] == before;
  }

  lemma SectionChunk(before: seq<string>, name: string, content: seq<string>, prefix: string)
    requires prefix <= name && Unmarked(content, prefix)
    ensures Marked(before + [name] + content, prefix) == Marked(before, prefix) + [name]
    ensures Chunks(before + [name] + content, prefix) == Chunks(before, prefix) + [content]
  {
    MarkerChunk(before, name, prefix);
    ContentChunks(before + [name], content, prefix);
    assert [] + content == content;
  }

  lemma Regroup(a: seq<string>, b: seq<string>, c: seq<string>, d: seq<string>)
    ensures a + (b + c + d) == a + b + c + d
  {
  }

  lemma LastSection(banner: seq<string>, names: seq<string>, contents: seq<seq<string>>)
    requires |names| == |contents| > 0
    ensures var n := |names| - 1;
            banner + Framed(names, contents) == banner + Framed(names[..n], contents[..n]) + [names[n]] + contents[n]
  {
    var n := |names| - 1;
    Regroup(banner, Framed(names[..n], contents[..n]), [names[n]], contents[n]);
  }

  lemma SplitLast<T>(s: seq<T>)
    requires s != []
    ensures s[..|s| - 1] + [s[|s| - 1]] == s
  {
  }

  lemma {:induction false} FramedChunks(banner: seq<string>, names: seq<string>, contents: seq<seq<string>>, prefix: string)
    requires |names| == |contents| && Unmarked(banner, prefix)
    requires forall i :: 0 <= i < |names| ==> prefix <= names[i] && Unmarked(contents[i], prefix)
    ensures Marked(banner + Framed(names, contents), prefix) == names && Chunks(banner + Framed(names, contents), prefix) == contents
  {
    if names == [] {
      BannerChunks(banner, prefix);
      assert banner + Framed(names, contents) == banner;
    } else {
      var n := |names| - 1;
      var before := banner + Framed(names[..n], contents[..n]);
      FramedChunks(banner, names[..n], contents[..n], prefix);
      SectionChunk(before, names[n], contents[n], prefix);
      LastSection(banner, names, contents);
      SplitLast(names);
      SplitLast(contents);
    }
  }

  /** A line that survives printing: no newline in it, no carriage return at its end. */
  predicate Printable(line: string) { '\n' !in line && TrimSuffix(line, '\r') == line }

  lemma PrintedLines(lines: seq<string>)
    requires lines != [] && forall i :: 0 <= i < |lines| ==> Printable(lines[i])
    ensures Lines(Join(lines, '\n') + ['\n']) == lines
  {
    var output := Join(lines, '\n') + ['\n'];
    assert TrimSuffix(output, '\n') == Join(lines, '\n');
    SplitJoin(lines, '\n');
  }

  lemma {:induction false} AssembledAt(names: seq<string>, chunks: seq<seq<string>>, k: nat)
    requires |names| == |chunks| && k < |names| && forall i, j :: 0 <= i < j < |names| ==> names[i] != names[j]
    ensures names[k] in Assemble(names, chunks) && Assemble(names, chunks)[names[k]] == Join(chunks[k], '\n')
  {
    if k < |names| - 1 {
      AssembledAt(names[..|names| - 1], chunks[..|chunks| - 1], k);
      assert names[k] != names[|names| - 1];
    }
  }

  /**
   Printing any banner and, under distinct names that carry the prefix, any contents without marked lines, and parsing
   the output, gives each content back.
   */
  lemma PrintThenParse(banner: seq<string>, names: seq<string>, contents: seq<seq<string>>, prefix: string, k: nat)
    requires |names| == |contents| && k < |names| && Unmarked(banner, prefix)
    requires forall i, j :: 0 <= i < j < |names| ==> names[i] != names[j]
    requires forall i :: 0 <= i < |names| ==> prefix <= names[i] && Unmarked(contents[i], prefix)
    requires var lines := banner + Framed(names, contents); lines != [] && forall i :: 0 <= i < |lines| ==> Printable(lines[i])
    ensures var r := Parsed(Join(banner + Framed(names, contents), '\n') + ['\n'], prefix, names);
            r.Some? && names[k] in r.value && r.value[names[k]] == Join(contents[k], '\n')
  {
    FramedChunks(banner, names, contents, prefix);
    PrintedLines(banner + Framed(names, contents));
    AssembledAt(names, contents, k);
  }
}
