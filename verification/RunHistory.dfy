/** The durable run history (subsystems/session/telemetry.go): newest first, bounded, keyed by session and seq. */
module RunHistory {
  import opened SessionTypes

  const MAX_RUN_RECORDS := 200

  datatype RunStats = RunStats(cores: int, requestedMemory: string, elapsedSeconds: int, maxRss: string)

  /** `trace` stands for the frozen samples and log lines. */
  datatype RunRecord = RunRecord(
    sessionId: Id, seqNo: nat, owner: Principal, launcher: Launcher, spec: Spec, finalPhase: Phase, error: string,
    startedAt: Option<int>, endedAt: int, stats: Option<RunStats>, trace: string)

  predicate Records(r: RunRecord, id: Id, seqNo: nat) { r.sessionId == id && r.seqNo == seqNo }

  predicate Recorded(runs: seq<RunRecord>, id: Id, seqNo: nat) {
    exists i :: 0 <= i < |runs| && Records(runs[i], id, seqNo)
  }

  predicate HasHistory(runs: seq<RunRecord>, id: Id) { exists i :: 0 <= i < |runs| && runs[i].sessionId == id }

  /** Recording refuses seq 0 and a pair that is already kept, prepends otherwise, and evicts from the oldest end. */
  function RecordRun(runs: seq<RunRecord>, r: RunRecord): seq<RunRecord> {
    if r.seqNo == 0 || Recorded(runs, r.sessionId, r.seqNo) then runs
    else if |runs| >= MAX_RUN_RECORDS then ([r] + runs)[..MAX_RUN_RECORDS]
    else [r] + runs
  }

  function RecordAll(runs: seq<RunRecord>, rs: seq<RunRecord>): seq<RunRecord> {
    if rs == [] then runs else RecordRun(RecordAll(runs, rs[..|rs| - 1]), rs[|rs| - 1])
  }

  /** The first record of the pair that has no stats yet gets them. */
  function AttachStats(runs: seq<RunRecord>, id: Id, seqNo: nat, stats: RunStats): seq<RunRecord> {
    if runs == [] then []
    else if Records(runs[0], id, seqNo) && runs[0].stats.None? then [runs[0].(stats := Some(stats))] + runs[1..]
    else [runs[0]] + AttachStats(runs[1..], id, seqNo, stats)
  }

  // ----- what every history satisfies, and how it may change

  ghost predicate WellFormed(runs: seq<RunRecord>) {
    && |runs| <= MAX_RUN_RECORDS
    && (forall i :: 0 <= i < |runs| ==> runs[i].seqNo >= 1)
    && (forall i, j :: 0 <= i < j < |runs| ==> !Records(runs[i], runs[j].sessionId, runs[j].seqNo))
  }

  predicate SameButStats(a: RunRecord, b: RunRecord) {
    b == a.(stats := b.stats) && (a.stats.Some? ==> b.stats == a.stats)
  }

  /**
   `b` is `a` with `added` records in front. What `a` held keeps its order and its contents, except that absent
   stats may have arrived, and records are missing from the end of `a` only when `b` is full.
   */
  ghost predicate EvolvesBy(a: seq<RunRecord>, b: seq<RunRecord>, added: nat) {
    && added <= |b| && |b| - added <= |a|
    && (forall i :: added <= i < |b| ==> SameButStats(a[i - added], b[i]))
    && (|b| - added < |a| ==> |b| == MAX_RUN_RECORDS)
  }

  ghost predicate Evolves(a: seq<RunRecord>, b: seq<RunRecord>) { exists added: nat :: EvolvesBy(a, b, added) }

  lemma RecordRunKeeps(runs: seq<RunRecord>, r: RunRecord)
    requires WellFormed(runs)
    ensures WellFormed(RecordRun(runs, r)) && Evolves(runs, RecordRun(runs, r))
    ensures r.seqNo >= 1 ==> Recorded(RecordRun(runs, r), r.sessionId, r.seqNo)
  {
    var after := RecordRun(runs, r);
    if r.seqNo == 0 || Recorded(runs, r.sessionId, r.seqNo) {
      assert EvolvesBy(runs, after, 0);
    } else {
      assert EvolvesBy(runs, after, 1);
      assert Records(after[0], r.sessionId, r.seqNo);
    }
  }

  lemma {:induction false} EvolvesTransitive(a: seq<RunRecord>, b: seq<RunRecord>, c: seq<RunRecord>)
    requires Evolves(a, b) && Evolves(b, c) && WellFormed(c)
    ensures Evolves(a, c)
  {
    var k: nat :| EvolvesBy(a, b, k);
    var l: nat :| EvolvesBy(b, c, l);
    var added := if k + l <= |c| then k + l else |c|;
    forall i | added <= i < |c| ensures SameButStats(a[i - added], c[i]) {
      assert SameButStats(b[i - l], c[i]) && SameButStats(a[i - l - k], b[i - l]);
    }
    assert EvolvesBy(a, c, added);
  }

  lemma {:induction false} RecordAllKeeps(runs: seq<RunRecord>, rs: seq<RunRecord>)
    requires WellFormed(runs)
    ensures WellFormed(RecordAll(runs, rs)) && Evolves(runs, RecordAll(runs, rs))
  {
    if rs == [] {
      assert EvolvesBy(runs, runs, 0);
    } else {
      var before := rs[..|rs| - 1];
      RecordAllKeeps(runs, before);
      RecordRunKeeps(RecordAll(runs, before), rs[|rs| - 1]);
      EvolvesTransitive(runs, RecordAll(runs, before), RecordAll(runs, rs));
    }
  }

  lemma {:induction false} AttachStatsAt(runs: seq<RunRecord>, id: Id, seqNo: nat, stats: RunStats)
    ensures |AttachStats(runs, id, seqNo, stats)| == |runs|
    ensures forall i :: 0 <= i < |runs| ==> SameButStats(runs[i], AttachStats(runs, id, seqNo, stats)[i])
    ensures forall i :: 0 <= i < |runs| && !Records(runs[i], id, seqNo) ==>
                          AttachStats(runs, id, seqNo, stats)[i] == runs[i]
  {
    if runs != [] && !(Records(runs[0], id, seqNo) && runs[0].stats.None?) {
      AttachStatsAt(runs[1..], id, seqNo, stats);
      forall i | 0 < i < |runs|
        ensures AttachStats(runs, id, seqNo, stats)[i] == AttachStats(runs[1..], id, seqNo, stats)[i - 1]
      {
      }
    }
  }

  predicate Due(r: RunRecord, id: Id, seqNo: nat) { Records(r, id, seqNo) && r.stats.None? }

  /** The loop's view: the first record that is due is the only one that changes, and none changes if none is due. */
  lemma {:induction false} AttachStatsFirst(runs: seq<RunRecord>, id: Id, seqNo: nat, stats: RunStats, first: nat)
    requires first <= |runs|
    requires forall i :: 0 <= i < first ==> !Due(runs[i], id, seqNo)
    requires first < |runs| ==> Due(runs[first], id, seqNo)
    ensures AttachStats(runs, id, seqNo, stats) ==
            if first < |runs| then runs[first := runs[first].(stats := Some(stats))] else runs
  {
    if first > 0 {
      assert !Due(runs[0], id, seqNo);
      AttachStatsFirst(runs[1..], id, seqNo, stats, first - 1);
      assert runs == [runs[0]] + runs[1..];
    }
  }

  lemma AttachStatsKeeps(runs: seq<RunRecord>, id: Id, seqNo: nat, stats: RunStats)
    requires WellFormed(runs)
    ensures WellFormed(AttachStats(runs, id, seqNo, stats)) && Evolves(runs, AttachStats(runs, id, seqNo, stats))
  {
    var after := AttachStats(runs, id, seqNo, stats);
    AttachStatsAt(runs, id, seqNo, stats);
    assert forall i :: 0 <= i < |runs| ==> SameButStats(runs[i], after[i]);
    assert EvolvesBy(runs, after, 0);
  }
}
