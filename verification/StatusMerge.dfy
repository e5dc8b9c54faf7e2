/**
 Merging the scheduler's queue and accounting listings (internal/slurm/slurm.go): rows are folded into two tables, by
 job id and by job name, and each job is looked up in one of them.
 */
module StatusMerge {
  import opened SessionTypes
  import Reconciliation

  /** A row of either listing whose job id is a number. */
  datatype Row = Row(jobId: string, name: string, state: Reconciliation.JobState, node: string, elapsed: nat)

  datatype Tables = Tables(byId: map<string, Row>, byName: map<string, Row>)

  datatype Job = Job(id: string, name: string, cancel: bool)

  datatype Status = Status(found: Option<Row>, cancelError: string)

  // ----- the rule: which rows take effect, and what each leaves behind

  predicate Mentions(rows: seq<Row>, id: string) { exists i :: 0 <= i < |rows| && rows[i].jobId == id }

  /** The first accounting row of each id. */
  function Firsts(rows: seq<Row>): seq<Row> {
    if rows == [] then []
    else
      var init, last := rows[..|rows| - 1], rows[|rows| - 1];
      if Mentions(init, last.jobId) then Firsts(init) else Firsts(init) + [last]
  }

  /** The rows that take effect: the first accounting row of each id, then every queue row. */
  function Effective(accounting: seq<Row>, queue: seq<Row>): seq<Row> { Firsts(accounting) + queue }

  /** The last elapsed time that a row of this id brought. */
  function Elapsed(rows: seq<Row>, id: string): nat {
    if rows == [] then 0
    else
      var last := rows[|rows| - 1];
      if last.jobId == id && last.elapsed != 0 then last.elapsed else Elapsed(rows[..|rows| - 1], id)
  }

  function Place(t: Tables, r: Row): Tables {
    var elapsed := if r.elapsed == 0 && r.jobId in t.byId then t.byId[r.jobId].elapsed else r.elapsed;
    var o := r.(elapsed := elapsed);
    Tables(t.byId[r.jobId := o], t.byName[r.name := o])
  }

  function PlaceAll(rows: seq<Row>): Tables {
    if rows == [] then Tables(map[], map[]) else Place(PlaceAll(rows[..|rows| - 1]), rows[|rows| - 1])
  }

  // ----- the loops

  lemma PlaceMore(rows: seq<Row>, r: Row)
    ensures PlaceAll(rows + [r]) == Place(PlaceAll(rows), r)
  {
    assert (rows + [r])[..|rows|] == rows;
  }

  /** The accounting listing: a later row of an id is passed over. */
  method MergeAccounting(accounting: seq<Row>) returns (t: Tables)
    ensures t == PlaceAll(Firsts(accounting))
  {
    t := Tables(map[], map[]);
    for i := 0 to |accounting|
      invariant t == PlaceAll(Firsts(accounting[..i]))
      invariant forall id :: id in t.byId <==> Mentions(accounting[..i], id)
    {
      var row := accounting[i];
      var before := accounting[..i];
      assert accounting[..i + 1] == before + [row] && (before + [row])[..i] == before;
      MentionsMore(before, row);
      if row.jobId !in t.byId {
        PlaceMore(Firsts(before), row);
        t := Place(t, row);
      }
    }
    assert accounting[..|accounting|] == accounting;
  }

  /** Then the queue: every row takes effect. */
  method MergeRows(accounting: seq<Row>, queue: seq<Row>) returns (t: Tables)
    ensures t == PlaceAll(Effective(accounting, queue))
  {
    t := MergeAccounting(accounting);
    ghost var firsts := Firsts(accounting);
    assert firsts + queue[..0] == firsts;
    for i := 0 to |queue|
      invariant t == PlaceAll(firsts + queue[..i])
    {
      PlaceMore(firsts + queue[..i], queue[i]);
      assert firsts + queue[..i + 1] == firsts + queue[..i] + [queue[i]];
      t := Place(t, queue[i]);
    }
    assert queue[..|queue|] == queue;
  }

  lemma MentionsMore(rows: seq<Row>, r: Row)
    ensures forall id :: Mentions(rows + [r], id) <==> Mentions(rows, id) || id == r.jobId
  {
    forall id ensures Mentions(rows + [r], id) <==> Mentions(rows, id) || id == r.jobId {
      var more := rows + [r];
      if i :| 0 <= i < |rows| && rows[i].jobId == id { assert more[i].jobId == id; }
      if id == r.jobId { assert more[|rows|].jobId == id; }
      if i :| 0 <= i < |more| && more[i].jobId == id { assert i < |rows| ==> rows[i].jobId == id; }
    }
  }

  function StatusFor(t: Tables, cancelErrors: map<string, string>, job: Job): Status {
    var key := if job.id != "" then "id:" + job.id else "name:" + job.name;
    var row := if job.id != "" then (if job.id in t.byId then Some(t.byId[job.id]) else None)
               else if job.name in t.byName then Some(t.byName[job.name]) else None;
    Status(row, if job.cancel && key in cancelErrors then cancelErrors[key] else "")
  }

  method Statuses(accounting: seq<Row>, queue: seq<Row>, cancelErrors: map<string, string>, jobs: seq<Job>) returns (r: seq<Status>)
    ensures |r| == |jobs|
    ensures forall i :: 0 <= i < |jobs| ==> r[i] == StatusFor(PlaceAll(Effective(accounting, queue)), cancelErrors, jobs[i])
  {
    var t := MergeRows(accounting, queue);
    r := [];
    for i := 0 to |jobs|
      invariant |r| == i && forall j :: 0 <= j < i ==> r[j] == StatusFor(t, cancelErrors, jobs[j])
    {
      r := r + [StatusFor(t, cancelErrors, jobs[i])];
    }
  }

  // ----- what the tables hold

  predicate LastOf(rows: seq<Row>, id: string, k: nat) {
    k < |rows| && rows[k].jobId == id && forall i :: k < i < |rows| ==> rows[i].jobId != id
  }

  predicate LastNamed(rows: seq<Row>, name: string, k: nat) {
    k < |rows| && rows[k].name == name && forall i :: k < i < |rows| ==> rows[i].name != name
  }

  lemma {:induction false} ElapsedById(rows: seq<Row>, id: string)
    ensures id in PlaceAll(rows).byId <==> Mentions(rows, id)
    ensures (if id in PlaceAll(rows).byId then PlaceAll(rows).byId[id].elapsed else 0) == Elapsed(rows, id)
  {
    if rows != [] {
      var init, last := rows[..|rows| - 1], rows[|rows| - 1];
      ElapsedById(init, id);
      MentionsMore(init, last);
      assert rows == init + [last];
    }
  }

  /** By id: the last effective row of the id, with the last elapsed time any of them brought. */
  lemma {:induction false} PlacedById(rows: seq<Row>, id: string, k: nat)
    requires LastOf(rows, id, k)
    ensures id in PlaceAll(rows).byId && PlaceAll(rows).byId[id] == rows[k].(elapsed := Elapsed(rows, id))
  {
    var init, last := rows[..|rows| - 1], rows[|rows| - 1];
    if k == |rows| - 1 {
      ElapsedById(init, id);
    } else {
      assert LastOf(init, id, k);
      PlacedById(init, id, k);
    }
  }

  predicate Names(rows: seq<Row>, name: string) { exists i :: 0 <= i < |rows| && rows[i].name == name }

  lemma {:induction false} NamedExactly(rows: seq<Row>, name: string)
    ensures name in PlaceAll(rows).byName <==> Names(rows, name)
  {
    if rows != [] {
      var init, last := rows[..|rows| - 1], rows[|rows| - 1];
      NamedExactly(init, name);
      if i :| 0 <= i < |init| && init[i].name == name { assert rows[i].name == name; }
      if i :| 0 <= i < |rows| && rows[i].name == name { assert i < |init| ==> init[i].name == name; }
      if last.name == name { assert rows[|rows| - 1].name == name; }
    }
  }

  lemma {:induction false} LastByName(rows: seq<Row>, name: string, k: nat)
    requires LastNamed(rows, name, k)
    ensures name in PlaceAll(rows).byName &&
            PlaceAll(rows).byName[name] == rows[k].(elapsed := Elapsed(rows[..k + 1], rows[k].jobId))
  {
    var init, last := rows[..|rows| - 1], rows[|rows| - 1];
    if k == |rows| - 1 {
      assert rows[..k + 1] == rows;
      ElapsedById(init, last.jobId);
    } else {
      assert LastNamed(init, name, k) && init[..k + 1] == rows[..k + 1];
      LastByName(init, name, k);
    }
  }

  /**
   By name, for a job without an id: nothing exactly when no effective row has the name, and otherwise the last effective
   row of the name, with the elapsed time its id had by then.
   */
  lemma PlacedByName(rows: seq<Row>, name: string)
    ensures name in PlaceAll(rows).byName <==> Names(rows, name)
    ensures forall k: nat :: LastNamed(rows, name, k) ==>
                               name in PlaceAll(rows).byName &&
                               PlaceAll(rows).byName[name] == rows[k].(elapsed := Elapsed(rows[..k + 1], rows[k].jobId))
  {
    NamedExactly(rows, name);
    forall k: nat | LastNamed(rows, name, k)
      ensures name in PlaceAll(rows).byName &&
              PlaceAll(rows).byName[name] == rows[k].(elapsed := Elapsed(rows[..k + 1], rows[k].jobId))
    {
      LastByName(rows, name, k);
    }
  }

  // ----- the rule for jobs

  /** A job with an id gets the last queue row of that id, when there is one. */
  lemma QueueRowWins(accounting: seq<Row>, queue: seq<Row>, id: string, k: nat)
    requires LastOf(queue, id, k)
    ensures var rows := Effective(accounting, queue);
            id in PlaceAll(rows).byId && PlaceAll(rows).byId[id] == queue[k].(elapsed := Elapsed(rows, id))
  {
    var rows := Effective(accounting, queue);
    var n := |Firsts(accounting)|;
    assert rows[n + k] == queue[k];
    forall i | n + k < i < |rows| ensures rows[i].jobId != id { assert rows[i] == queue[i - n]; }
    PlacedById(rows, id, n + k);
  }

  lemma {:induction false} FirstsHolds(rows: seq<Row>, id: string, k: nat) returns (j: nat)
    requires k < |rows| && rows[k].jobId == id && forall i :: 0 <= i < k ==> rows[i].jobId != id
    ensures LastOf(Firsts(rows), id, j) && Firsts(rows)[j] == rows[k]
  {
    var init, last := rows[..|rows| - 1], rows[|rows| - 1];
    if k == |rows| - 1 {
      FirstsLack(init, id);
      assert !Mentions(init, id);
      j := |Firsts(init)|;
    } else {
      j := FirstsHolds(init, id, k);
      assert init[k].jobId == id;
      assert Mentions(init, id);
    }
  }

  lemma {:induction false} FirstsLack(rows: seq<Row>, id: string)
    requires forall i :: 0 <= i < |rows| ==> rows[i].jobId != id
    ensures forall i :: 0 <= i < |Firsts(rows)| ==> Firsts(rows)[i].jobId != id
  {
    if rows != [] { FirstsLack(rows[..|rows| - 1], id); }
  }

  lemma {:induction false} ElapsedOfOne(rows: seq<Row>, id: string, j: nat)
    requires j < |rows| && rows[j].jobId == id && forall i :: 0 <= i < |rows| && i != j ==> rows[i].jobId != id
    ensures Elapsed(rows, id) == rows[j].elapsed
  {
    var init, last := rows[..|rows| - 1], rows[|rows| - 1];
    if j == |rows| - 1 { ElapsedOfNone(init, id); } else { ElapsedOfOne(init, id, j); }
  }

  lemma {:induction false} ElapsedOfNone(rows: seq<Row>, id: string)
    requires forall i :: 0 <= i < |rows| ==> rows[i].jobId != id
    ensures Elapsed(rows, id) == 0
  {
    if rows != [] { ElapsedOfNone(rows[..|rows| - 1], id); }
  }

  /** Rows of the queue that bring no elapsed time leave it as it was. */
  lemma {:induction false} ElapsedKept(rows: seq<Row>, queue: seq<Row>, id: string)
    requires forall i :: 0 <= i < |queue| && queue[i].jobId == id ==> queue[i].elapsed == 0
    ensures Elapsed(rows + queue, id) == Elapsed(rows, id)
  {
    if queue == [] {
      assert rows + queue == rows;
    } else {
      var init := queue[..|queue| - 1];
      ElapsedKept(rows, init, id);
      assert (rows + queue)[..|rows + queue| - 1] == rows + init;
    }
  }

  lemma {:induction false} FirstsUnique(rows: seq<Row>, id: string, j: nat)
    requires j < |Firsts(rows)| && Firsts(rows)[j].jobId == id
    ensures forall i :: 0 <= i < |Firsts(rows)| && i != j ==> Firsts(rows)[i].jobId != id
  {
    var init, last := rows[..|rows| - 1], rows[|rows| - 1];
    if !Mentions(init, last.jobId) {
      if j == |Firsts(init)| {
        assert forall i :: 0 <= i < |init| ==> init[i].jobId != id;
        FirstsLack(init, id);
      } else {
        FirstsUnique(init, id, j);
        FirstsMention(init, j);
      }
    } else {
      FirstsUnique(init, id, j);
    }
  }

  lemma {:induction false} FirstsMention(rows: seq<Row>, j: nat)
    requires j < |Firsts(rows)|
    ensures Mentions(rows, Firsts(rows)[j].jobId)
  {
    var init, last := rows[..|rows| - 1], rows[|rows| - 1];
    MentionsMore(init, last);
    assert rows == init + [last];
    if j < |Firsts(init)| { FirstsMention(init, j); }
  }

  /** Otherwise the first accounting row of the id, as it is. */
  lemma AccountingRowOtherwise(accounting: seq<Row>, queue: seq<Row>, id: string, k: nat)
    requires k < |accounting| && accounting[k].jobId == id && forall i :: 0 <= i < k ==> accounting[i].jobId != id
    requires !Mentions(queue, id)
    ensures var t := PlaceAll(Effective(accounting, queue)); id in t.byId && t.byId[id] == accounting[k]
  {
    var rows := Effective(accounting, queue);
    var j := FirstsHolds(accounting, id, k);
    var n := |Firsts(accounting)|;
    assert forall i :: 0 <= i < |queue| ==> queue[i].jobId != id;
    forall i | j < i < |rows| ensures rows[i].jobId != id { assert i >= n ==> rows[i] == queue[i - n]; }
    PlacedById(rows, id, j);
    FirstsUnique(accounting, id, j);
    ElapsedOfOne(Firsts(accounting), id, j);
    ElapsedKept(Firsts(accounting), queue, id);
  }

  /** A queue row without an elapsed time keeps the one the accounting listing gave. */
  lemma QueueKeepsElapsed(accounting: seq<Row>, queue: seq<Row>, id: string, k: nat)
    requires k < |accounting| && accounting[k].jobId == id && forall i :: 0 <= i < k ==> accounting[i].jobId != id
    requires forall i :: 0 <= i < |queue| && queue[i].jobId == id ==> queue[i].elapsed == 0
    ensures Elapsed(Effective(accounting, queue), id) == accounting[k].elapsed
  {
    var j := FirstsHolds(accounting, id, k);
    FirstsUnique(accounting, id, j);
    ElapsedOfOne(Firsts(accounting), id, j);
    ElapsedKept(Firsts(accounting), queue, id);
  }

  /** An id is found exactly when one of the listings mentions it. */
  lemma FoundExactly(accounting: seq<Row>, queue: seq<Row>, id: string)
    ensures id in PlaceAll(Effective(accounting, queue)).byId <==> Mentions(accounting, id) || Mentions(queue, id)
  {
    var rows := Effective(accounting, queue);
    var n := |Firsts(accounting)|;
    ElapsedById(rows, id);
    FirstsMentionSame(accounting, id);
    if i :| 0 <= i < |queue| && queue[i].jobId == id { assert rows[n + i].jobId == id; }
    if i :| 0 <= i < n && Firsts(accounting)[i].jobId == id { assert rows[i].jobId == id; }
    if i :| 0 <= i < |rows| && rows[i].jobId == id { assert if i < n then Firsts(accounting)[i].jobId == id else queue[i - n].jobId == id; }
  }

  lemma {:induction false} FirstsMentionSame(rows: seq<Row>, id: string)
    ensures Mentions(Firsts(rows), id) <==> Mentions(rows, id)
  {
    if rows != [] {
      var init, last := rows[..|rows| - 1], rows[|rows| - 1];
      FirstsMentionSame(init, id);
      MentionsMore(init, last);
      MentionsMore(Firsts(init), last);
      assert rows == init + [last];
    }
  }

  // ----- what reconciliation hears

  /** What the scheduler's answer about a session is: missing, or seen with the usable part of the node. */
  function AnswerFor(s: Status): Reconciliation.Answer {
    if s.found.None? then Reconciliation.Missing(s.cancelError)
    else
      var row := s.found.value;
      Reconciliation.Seen(Reconciliation.Observation(row.jobId, row.state, Reconciliation.UsableNode(row.node), row.elapsed), s.cancelError)
  }

  /**
   A session is missing exactly when no listing mentions its job id or, before it has one, no effective row its name;
   when it is seen, it is as its own job; and a cancel error is heard only about a job that was to be cancelled.
   */
  lemma AnswersFollowListings(accounting: seq<Row>, queue: seq<Row>, cancelErrors: map<string, string>, job: Job)
    ensures var rows := Effective(accounting, queue);
            var a := AnswerFor(StatusFor(PlaceAll(rows), cancelErrors, job));
            && (a.Missing? || a.Seen?) && (a.cancelError != "" ==> job.cancel)
            && (job.id != "" ==> (a.Missing? <==> !Mentions(accounting, job.id) && !Mentions(queue, job.id)))
            && (job.id == "" ==> (a.Missing? <==> !Names(rows, job.name)))
            && (a.Seen? && job.id != "" ==> a.observation.jobId == job.id)
            && (a.Seen? && job.id == "" ==> exists i :: 0 <= i < |rows| && rows[i].name == job.name && rows[i].jobId == a.observation.jobId)
  {
    var rows := Effective(accounting, queue);
    if job.id != "" {
      FoundExactly(accounting, queue, job.id);
      if job.id in PlaceAll(rows).byId { HeldUnderItsId(rows, job.id); }
    } else {
      NamedExactly(rows, job.name);
      if job.name in PlaceAll(rows).byName { HeldUnderItsName(rows, job.name); }
    }
  }

  /** What is heard of a row: its own id and state, the usable part of its node, and an elapsed time. */
  predicate Hears(a: Reconciliation.Answer, r: Row, elapsed: nat) {
    a.Seen? && a.observation.jobId == r.jobId && a.observation.state == r.state && a.observation.elapsedSeconds == elapsed &&
    a.observation.node == Reconciliation.UsableNode(r.node)
  }

  predicate FirstOf(rows: seq<Row>, id: string, k: nat) {
    k < |rows| && rows[k].jobId == id && forall i :: 0 <= i < k ==> rows[i].jobId != id
  }

  /** The message that cancelling the job left, under its id or, without one, its name. */
  function CancelMessage(cancelErrors: map<string, string>, job: Job): string {
    var key := if job.id == "" then "name:" + job.name else "id:" + job.id;
    if key in cancelErrors then cancelErrors[key] else ""
  }

  /**
   What is heard about a job: with an id, the last queue row of the id or else its first accounting row; without one, the
   last effective row of its name. The elapsed time is the row's own, or the last that an earlier row of the id brought.
   */
  lemma AnswersTellTheirRow(accounting: seq<Row>, queue: seq<Row>, cancelErrors: map<string, string>, job: Job)
    ensures var rows := Effective(accounting, queue);
            var a := AnswerFor(StatusFor(PlaceAll(rows), cancelErrors, job));
            && (forall k: nat :: job.id != "" && LastOf(queue, job.id, k) ==> Hears(a, queue[k], Elapsed(rows, job.id)))
            && (forall k: nat :: job.id != "" && !Mentions(queue, job.id) && FirstOf(accounting, job.id, k) ==>
                  Hears(a, accounting[k], accounting[k].elapsed))
            && (forall k: nat :: job.id == "" && LastNamed(rows, job.name, k) ==> Hears(a, rows[k], Elapsed(rows[..k + 1], rows[k].jobId)))
            && a.cancelError == (if job.cancel then CancelMessage(cancelErrors, job) else "")
  {
    var rows := Effective(accounting, queue);
    forall k: nat | job.id != "" && LastOf(queue, job.id, k)
      ensures Hears(AnswerFor(StatusFor(PlaceAll(rows), cancelErrors, job)), queue[k], Elapsed(rows, job.id))
    {
      QueueRowWins(accounting, queue, job.id, k);
    }
    forall k: nat | job.id != "" && !Mentions(queue, job.id) && FirstOf(accounting, job.id, k)
      ensures Hears(AnswerFor(StatusFor(PlaceAll(rows), cancelErrors, job)), accounting[k], accounting[k].elapsed)
    {
      AccountingRowOtherwise(accounting, queue, job.id, k);
    }
    PlacedByName(rows, job.name);
  }

  lemma {:induction false} HeldUnderItsId(rows: seq<Row>, id: string)
    requires id in PlaceAll(rows).byId
    ensures PlaceAll(rows).byId[id].jobId == id
  {
    if rows[|rows| - 1].jobId != id { HeldUnderItsId(rows[..|rows| - 1], id); }
  }

  lemma {:induction false} HeldUnderItsName(rows: seq<Row>, name: string)
    requires name in PlaceAll(rows).byName
    ensures exists i :: 0 <= i < |rows| && rows[i].name == name && rows[i].jobId == PlaceAll(rows).byName[name].jobId
  {
    var init, last := rows[..|rows| - 1], rows[|rows| - 1];
    if last.name == name {
      assert rows[|rows| - 1] == last;
    } else {
      HeldUnderItsName(init, name);
      var i :| 0 <= i < |init| && init[i].name == name && init[i].jobId == PlaceAll(init).byName[name].jobId;
      assert rows[i] == init[i];
    }
  }
}
