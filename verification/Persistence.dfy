/**
 Saving and loading the session state (subsystems/session/persistence.go, schema.sql, query.sql): a save replaces both
 tables in one transaction, a load decodes every row and refuses one whose payload is not its own.
 */
module Persistence {
  import opened SessionTypes
  import opened RunHistory
  import opened SessionCycles
  import opened SessionProtocol
  import opened SessionTheorems

  /** A JSON column: the value it encodes, or text that does not decode. */
  datatype Payload<T> = Json(value: T) | Unreadable

  datatype SessionRow = SessionRow(id: Id, payload: Payload<Session>)

  /** `position` is the identity column: it grows with every insertion. */
  datatype RunRow = RunRow(position: nat, sessionId: Id, seqNo: nat, payload: Payload<RunRecord>)

  // ----- what is saved and what a listing returns

  ghost predicate DistinctRuns(runs: seq<RunRecord>) {
    forall i, j :: 0 <= i < j < |runs| ==> !Records(runs[i], runs[j].sessionId, runs[j].seqNo)
  }

  ghost predicate DistinctSessions(sessions: map<Id, Session>) {
    forall k, l :: k in sessions && l in sessions && k != l ==> sessions[k].id != sessions[l].id
  }

  /** The state meets the primary keys of both tables. */
  ghost predicate Savable(db: Db) { DistinctSessions(db.sessions) && DistinctRuns(db.runs) }

  predicate HoldsId(rows: set<SessionRow>, id: Id) { exists r :: r in rows && r.id == id }

  predicate HoldsRun(rows: set<RunRow>, id: Id, seqNo: nat) { exists r :: r in rows && r.sessionId == id && r.seqNo == seqNo }

  predicate Increasing(rows: seq<RunRow>) { forall i, j :: 0 <= i < j < |rows| ==> rows[i].position < rows[j].position }

  /** `rows` is the table ordered by position. */
  ghost predicate ListsRuns(rows: seq<RunRow>, table: set<RunRow>) { Increasing(rows) && forall r :: r in table <==> r in rows }

  /** `rows` is the table in some order without repetition; the order by id does not matter to a load. */
  ghost predicate ListsSessions(rows: seq<SessionRow>, table: set<SessionRow>) { forall r :: r in table <==> r in rows }

  /** An ordered listing is unique. */
  lemma {:induction false} ListingIsUnique(a: seq<RunRow>, b: seq<RunRow>)
    requires Increasing(a) && Increasing(b) && forall r :: r in a <==> r in b
    ensures a == b
  {
    assert b != [] ==> b[0] in b;
    if a != [] {
      assert a[0] in b && b != [] && b[0] in a;
      assert a[0] == b[0];
      forall r | r in a[1..] ensures r in b[1..] {
        var i :| 0 < i < |a| && r == a[i];
        assert r in b && r != b[0];
      }
      forall r | r in b[1..] ensures r in a[1..] {
        var i :| 0 < i < |b| && r == b[i];
        assert r in a && r != a[0];
      }
      ListingIsUnique(a[1..], b[1..]);
      assert a == [a[0]] + a[1..] && b == [b[0]] + b[1..];
    }
  }

  // ----- the rows of a state

  function RowOf(s: Session): SessionRow { SessionRow(s.id, Json(s)) }

  function RunRowOf(r: RunRecord, position: nat): RunRow { RunRow(position, r.sessionId, r.seqNo, Json(r)) }

  function RunRows(runs: seq<RunRecord>, first: nat): seq<RunRow> {
    seq(|runs|, i requires 0 <= i < |runs| => RunRowOf(runs[i], first + i))
  }

  ghost predicate StoresSessions(table: set<SessionRow>, sessions: map<Id, Session>) {
    forall r :: r in table <==> exists k :: k in sessions && r == RowOf(sessions[k])
  }

  ghost predicate StoresRuns(table: set<RunRow>, runs: seq<RunRecord>, first: nat) {
    forall r :: r in table <==> r in RunRows(runs, first)
  }

  class Tables {
    var sessionTable: set<SessionRow>
    var runTable: set<RunRow>
    var position: nat

    constructor ()
      ensures sessionTable == {} && runTable == {}
    {
      sessionTable, runTable, position := {}, {}, 0;
    }

    ghost predicate Stores(db: Db)
      reads this
    {
      StoresSessions(sessionTable, db.sessions) && exists first: nat :: StoresRuns(runTable, db.runs, first)
    }

    /** `committed` is the outcome of the commit; whatever fails rolls the transaction back. */
    method Save(db: Db, committed: bool) returns (ok: bool)
      modifies this
      ensures ok <==> Savable(db) && committed
      ensures ok ==> Stores(db)
      ensures !ok ==> sessionTable == old(sessionTable) && runTable == old(runTable)
    {
      var inserted, sessionRows := InsertSessions(db.sessions);
      if !inserted { return false; }
      var first := position;
      var stored, runRows := InsertRuns(db.runs);
      if !stored || !committed { return false; }
      sessionTable, runTable := sessionRows, runRows;
      assert StoresRuns(runTable, db.runs, first);
      return true;
    }

    /** The map is visited in any order. */
    method InsertSessions(sessions: map<Id, Session>) returns (ok: bool, rows: set<SessionRow>)
      ensures ok <==> DistinctSessions(sessions)
      ensures ok ==> StoresSessions(rows, sessions)
    {
      rows := {};
      var todo := sessions.Keys;
      while todo != {}
        invariant todo <= sessions.Keys
        invariant forall r :: r in rows <==> exists k :: k in sessions.Keys - todo && r == RowOf(sessions[k])
        invariant forall k, l :: k in sessions.Keys - todo && l in sessions.Keys - todo && k != l ==> sessions[k].id != sessions[l].id
        decreases |todo|
      {
        var key :| key in todo;
        if HoldsId(rows, sessions[key].id) {
          var r :| r in rows && r.id == sessions[key].id;
          return false, {};
        }
        forall k | k in sessions.Keys - todo ensures sessions[k].id != sessions[key].id { assert RowOf(sessions[k]) in rows; }
        rows, todo := rows + {RowOf(sessions[key])}, todo - {key};
      }
      return true, rows;
    }

    method InsertRuns(runs: seq<RunRecord>) returns (ok: bool, rows: set<RunRow>)
      modifies this`position
      ensures ok <==> DistinctRuns(runs)
      ensures ok ==> StoresRuns(rows, runs, old(position))
    {
      rows := {};
      for i := 0 to |runs|
        invariant position == old(position) + i
        invariant forall r :: r in rows <==> r in RunRows(runs[..i], old(position))
        invariant DistinctRuns(runs[..i])
      {
        ghost var before := RunRows(runs[..i], old(position));
        if HoldsRun(rows, runs[i].sessionId, runs[i].seqNo) {
          var r :| r in rows && r.sessionId == runs[i].sessionId && r.seqNo == runs[i].seqNo;
          assert r in before;
          ghost var j :| 0 <= j < |before| && before[j] == r;
          assert Records(runs[j], runs[i].sessionId, runs[i].seqNo);
          return false, {};
        }
        forall j | 0 <= j < i ensures !Records(runs[j], runs[i].sessionId, runs[i].seqNo) { assert before[j] in rows; }
        rows := rows + {RunRowOf(runs[i], position)};
        position := position + 1;
        assert RunRows(runs[..i + 1], old(position)) == before + [RunRowOf(runs[i], old(position) + i)];
      }
      assert runs[..|runs|] == runs;
      return true, rows;
    }

    /** The listings are what the database answers: any order for the sessions, by position for the runs. */
    method Load(sessionRows: seq<SessionRow>, runRows: seq<RunRow>) returns (r: Option<Db>)
      requires ListsSessions(sessionRows, sessionTable) && ListsRuns(runRows, runTable)
      ensures r.Some? <==> (forall row :: row in sessionTable ==> row.payload.Json? && row.payload.value.id == row.id) &&
                           (forall row :: row in runTable ==> row.payload.Json? && Records(row.payload.value, row.sessionId, row.seqNo))
      ensures forall db: Db :: KeyedById(db.sessions) && Stores(db) ==> r == Some(db)
    {
      var sessions := map[];
      for i := 0 to |sessionRows|
        invariant forall j :: 0 <= j < i ==> sessionRows[j].payload.Json? && sessionRows[j].payload.value.id == sessionRows[j].id
        invariant forall k :: k in sessions ==> SessionRow(k, Json(sessions[k])) in sessionRows
        invariant forall j :: 0 <= j < i ==> sessionRows[j].id in sessions
      {
        var row := sessionRows[i];
        assert row in sessionTable;
        assert forall db: Db :: StoresSessions(sessionTable, db.sessions) ==> row.payload.Json? && row.payload.value.id == row.id;
        if row.payload.Unreadable? || row.payload.value.id != row.id {
          return None;
        }
        sessions := sessions[row.payload.value.id := row.payload.value];
      }
      var runs := [];
      for i := 0 to |runRows|
        invariant |runs| == i
        invariant forall j :: 0 <= j < i ==> runRows[j].payload == Json(runs[j]) && Records(runs[j], runRows[j].sessionId, runRows[j].seqNo)
      {
        var row := runRows[i];
        forall db: Db, first: nat | StoresRuns(runTable, db.runs, first)
          ensures row.payload.Json? && Records(row.payload.value, row.sessionId, row.seqNo)
        {
          assert row in runTable && row in RunRows(db.runs, first);
        }
        if row.payload.Unreadable? || !Records(row.payload.value, row.sessionId, row.seqNo) {
          return None;
        }
        runs := runs + [row.payload.value];
      }
      forall db: Db | KeyedById(db.sessions) && Stores(db) ensures Db(sessions, runs) == db {
        SessionsReadBack(sessionTable, db.sessions, sessions, sessionRows);
        var first: nat :| StoresRuns(runTable, db.runs, first);
        ListingIsUnique(runRows, RunRows(db.runs, first));
      }
      return Some(Db(sessions, runs));
    }
  }

  predicate KeyedById(sessions: map<Id, Session>) { forall k :: k in sessions ==> sessions[k].id == k }

  lemma SessionsReadBack(table: set<SessionRow>, sessions: map<Id, Session>, read: map<Id, Session>, rows: seq<SessionRow>)
    requires StoresSessions(table, sessions) && KeyedById(sessions) && ListsSessions(rows, table)
    requires forall k :: k in read ==> SessionRow(k, Json(read[k])) in rows
    requires forall j :: 0 <= j < |rows| ==> rows[j].id in read
    ensures read == sessions
  {
    forall k | k in read ensures k in sessions && sessions[k] == read[k] {
      assert SessionRow(k, Json(read[k])) in table;
    }
    forall k | k in sessions ensures k in read {
      assert RowOf(sessions[k]) in table && RowOf(sessions[k]) in rows;
    }
  }

  /** Whatever state the protocol reaches meets both primary keys and comes back from a load. */
  lemma ReachableStatesAreSavable(steps: seq<Step>)
    ensures Savable(Db(Run(steps).core.sessions, Run(steps).runs)) && KeyedById(Run(steps).core.sessions)
  {
    RunsAreSafe(steps);
    HistoryOverRuns(steps, 0);
  }
}
