/** Character classes and string operations shared by the components that read or write text. */
module Text {

  predicate IsDigit(c: char) { '0' <= c <= '9' }

  predicate IsLetter(c: char) { 'A' <= c <= 'Z' || 'a' <= c <= 'z' }

  /** Unicode white space, as it splits fields and is trimmed. */
  predicate IsSpace(c: char) {
    var n := c as int;
    9 <= n <= 13 || n == 32 || n == 0x85 || n == 0xA0 || n == 0x1680 || 0x2000 <= n <= 0x200A || n == 0x2028 ||
    n == 0x2029 || n == 0x202F || n == 0x205F || n == 0x3000
  }

  function ToLower(c: char): (r: char)
    ensures 'A' <= c <= 'Z' ==> 'a' <= r <= 'z' && r as int == c as int + 32
    ensures !('A' <= c <= 'Z') ==> r == c
  {
    if 'A' <= c <= 'Z' then ((c as int) + 32) as char else c
  }

  function Lower(s: string): (r: string)
    ensures |r| == |s|
    ensures forall i :: 0 <= i < |s| ==> r[i] == ToLower(s[i])
  {
    if s == [] then [] else [ToLower(s[0])] + Lower(s[1..])
  }

  predicate HasSuffix(s: string, suffix: string) {
    |suffix| <= |s| && s[|s| - |suffix|..] == suffix
  }

  /** The safe-name pattern: a letter or digit, then letters, digits, '_', '.' or '-', at most `max` in all. */
  predicate SafeName(s: string, max: nat) {
    0 < |s| <= max && (IsLetter(s[0]) || IsDigit(s[0])) &&
    forall i :: 0 <= i < |s| ==> IsLetter(s[i]) || IsDigit(s[i]) || s[i] in "_.-"
  }

  function TrimLeft(s: string): string { if s != [] && IsSpace(s[0]) then TrimLeft(s[1..]) else s }

  function TrimRight(s: string): string { if s != [] && IsSpace(s[|s| - 1]) then TrimRight(s[..|s| - 1]) else s }

  function TrimSpace(s: string): string { TrimRight(TrimLeft(s)) }

  // ----- lines

  /** Where the first `c` stands, or the length. */
  function IndexOf(s: string, c: char): (n: nat)
    ensures n <= |s| && c !in s[..n] && (n < |s| ==> s[n] == c)
  {
    if s == [] || s[0] == c then 0
    else
      var n := 1 + IndexOf(s[1..], c);
      assert s[..n] == [s[0]] + s[1..][..n - 1];
      n
  }

  /** Go's strings.Split on one character: always at least one piece. */
  function Split(s: string, c: char): (pieces: seq<string>)
    ensures |pieces| >= 1
    decreases |s|
  {
    var n := IndexOf(s, c);
    if n == |s| then [s] else [s[..n]] + Split(s[n + 1..], c)
  }

  /** Go's strings.Join on one character. */
  function Join(pieces: seq<string>, c: char): string {
    if pieces == [] then "" else if |pieces| == 1 then pieces[0] else pieces[0] + [c] + Join(pieces[1..], c)
  }

  lemma {:induction false} IndexAfter(a: string, c: char, b: string)
    requires c !in a
    ensures IndexOf(a, c) == |a| && IndexOf(a + [c] + b, c) == |a|
  {
    var s := a + [c] + b;
    if a == "" {
      assert s[0] == c;
    } else {
      IndexAfter(a[1..], c, b);
      assert s[0] == a[0] && s[1..] == a[1..] + [c] + b;
    }
  }

  lemma {:induction false} IndexFound(s: string, c: char)
    requires c in s
    ensures IndexOf(s, c) < |s|
  {
    if s[0] != c { IndexFound(s[1..], c); }
  }

  lemma CutAt(a: string, c: char, b: string)
    requires c !in a
    ensures var s := a + [c] + b; IndexOf(s, c) == |a| < |s| && s[..|a|] == a && s[|a| + 1..] == b
  {
    IndexAfter(a, c, b);
  }

  /** Splitting undoes joining when no piece holds the separator. */
  lemma {:induction false} SplitJoin(pieces: seq<string>, c: char)
    requires pieces != [] && forall i :: 0 <= i < |pieces| ==> c !in pieces[i]
    ensures Split(Join(pieces, c), c) == pieces
  {
    if |pieces| == 1 {
      IndexAfter(pieces[0], c, "");
    } else {
      var rest := Join(pieces[1..], c);
      IndexAfter(pieces[0], c, rest);
      SplitJoin(pieces[1..], c);
      assert (pieces[0] + [c] + rest)[|pieces[0]| + 1..] == rest;
      assert (pieces[0] + [c] + rest)[..|pieces[0]|] == pieces[0];
    }
  }

  /** Joining undoes splitting, and no piece holds the separator. */
  lemma {:induction false} JoinSplit(s: string, c: char)
    ensures Join(Split(s, c), c) == s
    ensures forall i :: 0 <= i < |Split(s, c)| ==> c !in Split(s, c)[i]
    decreases |s|
  {
    var n := IndexOf(s, c);
    if n == |s| {
      assert s[..n] == s;
    } else {
      JoinSplit(s[n + 1..], c);
      assert s == s[..n] + [c] + s[n + 1..];
      assert Split(s, c)[1..] == Split(s[n + 1..], c);
    }
  }

  // ----- fields

  predicate Blankless(s: string) { forall i :: 0 <= i < |s| ==> !IsSpace(s[i]) }

  /** The length of the longest prefix without blanks. */
  function WordLength(s: string): (n: nat)
    ensures n <= |s| && Blankless(s[..n]) && (n < |s| ==> IsSpace(s[n]))
  {
    if s == [] || IsSpace(s[0]) then 0
    else
      var n := 1 + WordLength(s[1..]);
      assert s[..n] == [s[0]] + s[1..][..n - 1];
      n
  }

  /** Go's strings.Fields. */
  function Fields(s: string): (fields: seq<string>)
    ensures forall i :: 0 <= i < |fields| ==> fields[i] != "" && Blankless(fields[i])
    decreases |s|
  {
    if s == [] then []
    else if IsSpace(s[0]) then Fields(s[1..])
    else [s[..WordLength(s)]] + Fields(s[WordLength(s)..])
  }

  lemma {:induction false} WordThenRest(word: string, rest: string)
    requires Blankless(word) && (rest == "" || IsSpace(rest[0]))
    ensures WordLength(word + rest) == |word|
  {
    var s := word + rest;
    if word == "" {
      assert s == rest;
    } else {
      assert s[0] == word[0] && s[1..] == word[1..] + rest;
      WordThenRest(word[1..], rest);
    }
  }

  lemma FirstField(word: string, rest: string)
    requires word != "" && Blankless(word) && (rest == "" || IsSpace(rest[0]))
    ensures Fields(word + rest) == [word] + Fields(rest)
  {
    var s := word + rest;
    WordThenRest(word, rest);
    assert s[..|word|] == word && s[|word|..] == rest && s[0] == word[0];
  }

  lemma FieldThenBlank(word: string, rest: string)
    requires word != "" && Blankless(word)
    ensures Fields(word + [' '] + rest) == [word] + Fields(rest)
  {
    FirstField(word, " " + rest);
    assert word + [' '] + rest == word + (" " + rest);
    assert (" " + rest)[1..] == rest;
  }

  /** Splitting into fields undoes joining words with blanks. */
  lemma {:induction false} FieldsJoin(words: seq<string>)
    requires forall i :: 0 <= i < |words| ==> words[i] != "" && Blankless(words[i])
    ensures Fields(Join(words, ' ')) == words
  {
    if |words| == 1 {
      FirstField(words[0], "");
      assert words[0] + "" == words[0];
    } else if |words| > 1 {
      FieldThenBlank(words[0], Join(words[1..], ' '));
      FieldsJoin(words[1..]);
      assert words == [words[0]] + words[1..];
    }
  }

  lemma TrimWord(s: string)
    requires s != "" && Blankless(s)
    ensures TrimSpace(s) == s
  {
  }
}
