/**
 The bounded tail of status lines kept per session (subsystems/session/telemetry.go). Lines stand for their bytes; how
 raw text is cleaned and redacted is not modelled beyond the bound that truncation puts on every line.
 */
module LogTail {
  const MAX_LINES := 100
  const MAX_BYTES := 0x1_0000
  const MAX_LINE_BYTES := 0x1000

  function Bytes(lines: seq<string>): nat { if lines == [] then 0 else |lines[0]| + Bytes(lines[1..]) }

  predicate Fits(lines: seq<string>) { |lines| <= MAX_LINES && Bytes(lines) <= MAX_BYTES }

  predicate Bounded(lines: seq<string>) { forall i :: 0 <= i < |lines| ==> |lines[i]| <= MAX_LINE_BYTES }

  /** The history without adjacent repetitions. */
  function Deduplicated(history: seq<string>): (d: seq<string>)
    ensures (history == [] <==> d == []) && (history != [] ==> d[|d| - 1] == history[|history| - 1])
  {
    if history == [] then []
    else
      var before, last := Deduplicated(history[..|history| - 1]), history[|history| - 1];
      if before != [] && before[|before| - 1] == last then before else before + [last]
  }

  /** Dropping from the front until the rest fits. */
  function Evicted(all: seq<string>): seq<string> { if Fits(all) then all else Evicted(all[1..]) }

  lemma {:induction false} BytesSplit(a: seq<string>, b: seq<string>)
    ensures Bytes(a + b) == Bytes(a) + Bytes(b)
  {
    if a == [] {
      assert a + b == b;
    } else {
      BytesSplit(a[1..], b);
      assert (a + b)[1..] == a[1..] + b;
    }
  }

  predicate LongestFitting(tail: seq<string>, all: seq<string>) {
    && |tail| <= |all| && tail == all[|all| - |tail|..] && Fits(tail)
    && forall i :: 0 <= i < |all| - |tail| ==> !Fits(all[i..])
  }

  /** What is left is the longest suffix that fits. */
  lemma {:induction false} EvictedIsLongest(all: seq<string>)
    ensures LongestFitting(Evicted(all), all)
  {
    if Fits(all) {
      assert all[0..] == all;
    } else {
      EvictedIsLongest(all[1..]);
      var tail := Evicted(all[1..]);
      forall i | 0 <= i < |all| - |tail| ensures !Fits(all[i..]) {
        if i == 0 { assert all[0..] == all; } else { assert all[i..] == all[1..][i - 1..]; }
      }
    }
  }

  lemma FitsWithout(all: seq<string>, line: string)
    requires Fits(all + [line])
    ensures Fits(all)
  {
    BytesSplit(all, [line]);
  }

  /** Only the tail is needed to go on: evicting after each line is evicting from the whole history. */
  lemma {:induction false} EvictedStepwise(all: seq<string>, line: string)
    ensures Evicted(all + [line]) == Evicted(Evicted(all) + [line])
  {
    if !Fits(all) {
      EvictedStepwise(all[1..], line);
      if Fits(all + [line]) { FitsWithout(all, line); }
      assert (all + [line])[1..] == all[1..] + [line];
    }
  }

  lemma OneFits(line: string)
    requires |line| <= MAX_LINE_BYTES
    ensures Fits([line])
  {
    assert Bytes([line]) == |line| + Bytes([]);
  }

  /** What does not fit has more than one line. */
  lemma Crowded(lines: seq<string>)
    requires lines != [] && |lines[|lines| - 1]| <= MAX_LINE_BYTES && !Fits(lines)
    ensures |lines| > 1
  {
    var last := lines[|lines| - 1];
    OneFits(last);
    assert |lines| == 1 ==> lines == [last];
  }

  /** The newest line always survives, because one line always fits. */
  lemma {:induction false} NewestSurvives(all: seq<string>)
    requires all != [] && |all[|all| - 1]| <= MAX_LINE_BYTES
    ensures var tail := Evicted(all); tail != [] && tail[|tail| - 1] == all[|all| - 1]
  {
    if !Fits(all) {
      Crowded(all);
      NewestSurvives(all[1..]);
    }
  }

  class Buffer {
    var lines: seq<string>
    var bytes: int
    ghost var history: seq<string>

    /** The tail is the longest suffix of the deduplicated history that fits, and the counter is exact. */
    ghost predicate Valid()
      reads this
    {
      Bounded(lines) && bytes == Bytes(lines) && lines == Evicted(Deduplicated(history)) && (lines == [] <==> history == []) &&
      (history != [] ==> lines[|lines| - 1] == history[|history| - 1])
    }

    constructor ()
      ensures Valid() && history == []
    {
      lines, bytes, history := [], 0, [];
    }

    /** Drops lines from the front until the rest fits. The newest line fits alone, so the buffer never runs empty. */
    method Evict()
      requires lines != [] && Bounded(lines) && bytes == Bytes(lines)
      modifies this`lines, this`bytes
      ensures bytes == Bytes(lines) && lines == Evicted(old(lines)) && Bounded(lines)
    {
      while |lines| > MAX_LINES || bytes > MAX_BYTES
        invariant lines != [] && Bounded(lines) && bytes == Bytes(lines)
        invariant Evicted(lines) == Evicted(old(lines))
        decreases |lines|
      {
        Crowded(lines);
        bytes := bytes - |lines[0]|;
        lines := lines[1..];
      }
    }

    method AppendLine(line: string)
      requires Valid() && |line| <= MAX_LINE_BYTES
      modifies this
      ensures Valid() && history == old(history) + [line]
    {
      ghost var before := Deduplicated(history);
      history := history + [line];
      assert history[..|history| - 1] == old(history);
      if lines != [] && lines[|lines| - 1] == line { return; }
      assert Deduplicated(history) == before + [line];
      EvictedStepwise(before, line);
      NewestSurvives(before + [line]);
      BytesSplit(lines, [line]);
      assert Bytes([line]) == |line| + Bytes([]);
      lines := lines + [line];
      bytes := bytes + |line|;
      Evict();
    }

    /** Every line of one text, in order. */
    method Append(text: seq<string>)
      requires Valid() && Bounded(text)
      modifies this
      ensures Valid() && history == old(history) + text
    {
      var i := 0;
      assert old(history) + text[..0] == old(history);
      while i < |text|
        invariant 0 <= i <= |text| && Valid() && history == old(history) + text[..i]
      {
        AppendLine(text[i]);
        assert old(history) + text[..i] + [text[i]] == old(history) + text[..i + 1];
        i := i + 1;
      }
      assert text[..|text|] == text;
    }
  }
}
