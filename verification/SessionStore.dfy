/**
 The session store in the source's own form: one object whose locked cycles load, change and save its state
 (subsystems/session/lifecycle.go, reconcile.go, telemetry.go, link.go). `saved` is the outcome of the save that
 ends a cycle, if the cycle comes to saving; a failed save rolls the cycle back.
 */
module SessionStore {
  import opened SessionTypes
  import opened Reconciliation
  import opened RunHistory
  import opened SessionCycles

  datatype Error = NotFound | OwnerMismatch | StillRunning | AlreadyRan | InvalidRuns | Conflict | NotStopped | CleanupPending | SaveFailed

  datatype Result<+T> = Ok(value: T) | Err(error: Error)

  class Store {
    var sessions: map<Id, Session>
    var runs: seq<RunRecord>

    ghost predicate Valid()
      reads this
    {
      (forall id :: id in sessions ==> sessions[id].id == id) && WellFormed(runs)
    }

    ghost function Value(): Db
      reads this
    {
      Db(sessions, runs)
    }

    constructor ()
      ensures Valid() && Value() == Db(map[], [])
    {
      sessions, runs := map[], [];
    }

    method ClaimLaunch(id: Id, principal: Principal) returns (r: Result<Session>)
      ensures r.Ok? <==> id in sessions && sessions[id].owner == principal && Terminal(sessions[id].phase)
      ensures r.Ok? ==> r.value == sessions[id]
      ensures r.Err? ==> r.error == if id !in sessions then NotFound
                                    else if sessions[id].owner != principal then OwnerMismatch else StillRunning
    {
      if id !in sessions { return Err(NotFound); }
      var existing := sessions[id];
      if existing.owner != principal { return Err(OwnerMismatch); }
      if !Terminal(existing.phase) { return Err(StillRunning); }
      return Ok(existing);
    }

    method PersistSubmitIntent(previous: Session, intent: Session, saved: bool) returns (r: Result<()>)
      requires Valid()
      modifies this
      ensures Valid() && runs == old(runs)
      ensures r.Ok? <==> intent.id in old(sessions) && IntentApplies(old(sessions)[intent.id], previous) && saved
      ensures sessions == if r.Ok? then old(sessions)[intent.id := intent] else old(sessions)
    {
      if intent.id !in sessions { return Err(NotFound); }
      var existing := sessions[intent.id];
      if existing.updatedAt != previous.updatedAt || existing.phase != previous.phase || existing.owner != previous.owner {
        return Err(StillRunning);
      }
      if !saved { return Err(SaveFailed); }
      sessions := sessions[intent.id := intent];
      return Ok(());
    }

    /** The flag of the result says whether the job was superseded, so that the caller must cancel it. */
    method RecordSubmittedJob(id: Id, jobId: string, now: int, saved: bool) returns (r: Result<(Session, bool)>)
      requires Valid()
      modifies this
      ensures Valid() && runs == old(runs)
      ensures r.Ok? <==> id in old(sessions) && saved
      ensures r.Err? ==> sessions == old(sessions)
      ensures r.Ok? ==> var s := SubmittedJob(old(sessions)[id], jobId, now);
                        r.value == (s, Superseded(s)) && sessions == old(sessions)[id := s]
    {
      if id !in sessions { return Err(NotFound); }
      var session := sessions[id];
      session := session.(jobId := jobId);
      if session.phase == Submitting {
        session := session.(phase := Queued);
      }
      var superseded := session.phase != Queued;
      session := session.(updatedAt := now);
      if !saved { return Err(SaveFailed); }
      sessions := sessions[id := session];
      return Ok((session, superseded));
    }

    method NoteSupersededCancel(id: Id, jobId: string, diagnostic: string, now: int, saved: bool) returns (r: Result<Option<Session>>)
      requires Valid()
      modifies this
      ensures Valid() && runs == old(runs)
      ensures r.Err? <==> id in old(sessions) && CancelNoteApplies(old(sessions)[id], jobId) && !saved
      ensures sessions == if r.Ok? && id in old(sessions) && CancelNoteApplies(old(sessions)[id], jobId)
                          then old(sessions)[id := CancelNoted(old(sessions)[id], diagnostic, now)] else old(sessions)
      ensures r.Ok? ==> r.value == if id in sessions then Some(sessions[id]) else None
    {
      if id !in sessions { return Ok(None); }
      var session := sessions[id];
      if session.jobId == jobId && session.phase != Queued {
        session := session.(error := diagnostic, updatedAt := now);
        if !saved { return Err(SaveFailed); }
        sessions := sessions[id := session];
      }
      return Ok(Some(session));
    }

    method AbandonSubmitIntent(intent: Session, fault: string, now: int, saved: bool) returns (ok: bool)
      requires Valid()
      modifies this
      ensures Valid() && runs == old(runs)
      ensures !ok <==> intent.id in old(sessions) && AbandonApplies(old(sessions)[intent.id], intent) && !saved
      ensures sessions == if ok && intent.id in old(sessions) && AbandonApplies(old(sessions)[intent.id], intent)
                          then old(sessions)[intent.id := AbandonedIntent(old(sessions)[intent.id], fault, now)]
                          else old(sessions)
    {
      if intent.id !in sessions { return true; }
      var session := sessions[intent.id];
      if session.seqNo != intent.seqNo || session.jobName != intent.jobName || session.jobId != "" { return true; }
      if session.phase == Submitting {
        session := session.(phase := Failed);
      } else if session.phase == Stopping {
        session := session.(phase := Stopped);
      } else {
        return true;
      }
      session := session.(tunnel := "", error := fault, updatedAt := now);
      if !saved { return false; }
      sessions := sessions[intent.id := session];
      return true;
    }

    method BeginStop(id: Id, principal: Principal, now: int, saved: bool) returns (r: Result<Session>)
      requires Valid()
      modifies this
      ensures Valid() && runs == old(runs)
      ensures r.Ok? <==> id in old(sessions) && old(sessions)[id].owner == principal && (Terminal(old(sessions)[id].phase) || saved)
      ensures r.Err? ==> sessions == old(sessions)
      ensures r.Ok? ==> var s := old(sessions)[id];
                        r.value == (if Terminal(s.phase) then s else StopStored(s, now)) &&
                        sessions == old(sessions)[id := r.value]
    {
      if id !in sessions { return Err(NotFound); }
      var session := sessions[id];
      if session.owner != principal { return Err(OwnerMismatch); }
      if !Terminal(session.phase) {
        session := session.(phase := Stopping, error := "", updatedAt := now);
        if !saved { return Err(SaveFailed); }
        sessions := sessions[id := session];
      }
      assert sessions == old(sessions)[id := session];
      return Ok(session);
    }

    /** What a cycle does to the record and the history it has loaded; `changed` says whether there is something to save. */
    method FreezeIfTerminal(history: seq<RunRecord>, session: Session, removed: bool, fault: string, trace: string)
      returns (after: Session, kept: seq<RunRecord>, changed: bool)
      requires WellFormed(history)
      ensures after == Frozen(session, removed, fault) && kept == FrozenRuns(history, session, removed, trace)
      ensures changed <==> after != session || kept != history
      ensures WellFormed(kept)
    {
      FreezeKeepsHistory(history, session, removed, trace);
      FreezeChangesExactly(history, session, removed, fault, trace);
      if !Terminal(session.phase) { return session, history, false; }
      if session.seqNo != 0 && !removed {
        return session.(phase := Stopping, error := "session cleanup pending: " + fault), history, true;
      }
      kept := RecordRun(history, RunOf(session, trace));
      return session, kept, session.seqNo != 0 && !Recorded(history, session.id, session.seqNo);
    }

    /** The cycle that freezes a finished run before its session is launched again. The record itself is not stored. */
    method FreezeRun(session: Session, removed: bool, fault: string, trace: string, saved: bool) returns (r: Result<()>)
      requires Valid()
      modifies this`runs
      ensures Valid()
      ensures var kept := FrozenRuns(old(runs), session, removed, trace);
              var frozen := Frozen(session, removed, fault);
              var changed := frozen != session || kept != old(runs);
              && runs == (if changed && !saved then old(runs) else kept)
              && (r == Ok(()) <==> frozen == session && (saved || !changed))
              && (r.Err? ==> r.error == if !saved then SaveFailed else CleanupPending)
    {
      var after, kept, changed := FreezeIfTerminal(runs, session, removed, fault, trace);
      if !changed { return Ok(()); }
      if !saved { return Err(SaveFailed); }
      runs := kept;
      return if after == session then Ok(()) else Err(CleanupPending);
    }

    method FinishStop(snapshot: Session, candidate: Session, fault: string, now: int, removed: bool, cleanup: string,
                      trace: string, saved: bool) returns (r: Result<Session>)
      requires Valid()
      modifies this
      ensures Valid()
      ensures r.Err? ==> Value() == old(Value())
      ensures snapshot.id !in old(sessions) ==> r == Err(NotFound)
      ensures snapshot.id in old(sessions) ==>
                var found := old(sessions)[snapshot.id];
                var s := StopMerged(found, snapshot, candidate, fault, now);
                && (r.Err? <==> !saved && (StopStamps(found, snapshot, candidate, fault) || FreezeChanges(old(runs), s, removed)))
                && (r.Ok? ==> r.value == Frozen(s, removed, cleanup) &&
                              Value() == Db(old(sessions)[snapshot.id := r.value], FrozenRuns(old(runs), s, removed, trace)))
    {
      if snapshot.id !in sessions { return Err(NotFound); }
      var session := sessions[snapshot.id];
      var changed := MergeApplies(session, snapshot, candidate);
      session := Merge(session, snapshot, candidate, now);
      if session.seqNo == snapshot.seqNo && session.tunnel == snapshot.tunnel {
        if fault != "" {
          session, changed := session.(error := fault, updatedAt := now), true;
        } else if snapshot.tunnel != "" {
          session, changed := session.(tunnel := "", updatedAt := now), true;
        }
      }
      FreezeChangesExactly(runs, session, removed, cleanup, trace);
      var after, kept, frozen := FreezeIfTerminal(runs, session, removed, cleanup, trace);
      if changed || frozen {
        if !saved { return Err(SaveFailed); }
        runs := kept;
        sessions := sessions[snapshot.id := after];
      }
      assert sessions == old(sessions)[snapshot.id := after] && runs == kept;
      return Ok(after);
    }

    method Delete(id: Id, principal: Principal, saved: bool) returns (r: Result<Session>)
      requires Valid()
      modifies this
      ensures Valid() && runs == old(runs)
      ensures r.Ok? <==> id in old(sessions) && old(sessions)[id].owner == principal && Terminal(old(sessions)[id].phase) && saved
      ensures r.Ok? ==> r.value == old(sessions)[id] && sessions == old(sessions) - {id}
      ensures r.Err? ==> sessions == old(sessions)
    {
      if id !in sessions { return Err(NotFound); }
      if sessions[id].owner != principal { return Err(OwnerMismatch); }
      if !Terminal(sessions[id].phase) { return Err(NotStopped); }
      var deleted := sessions[id];
      if !saved { return Err(SaveFailed); }
      sessions := sessions - {id};
      return Ok(deleted);
    }

    method Define(id: Id, life: nat, principal: Principal, spec: Spec, createdAt: int, now: int, saved: bool)
      returns (r: Result<(Session, bool)>)
      requires Valid()
      modifies this
      ensures Valid() && runs == old(runs)
      ensures id !in old(sessions) && saved ==> var s := Defined(id, life, principal, spec, createdAt, now);
                                                r == Ok((s, true)) && sessions == old(sessions)[id := s]
      ensures id !in old(sessions) && !saved ==> r == Err(SaveFailed)
      ensures id in old(sessions) || !saved ==> sessions == old(sessions)
      ensures id in old(sessions) ==>
                r == if old(sessions)[id].owner != principal then Err(OwnerMismatch)
                     else if old(sessions)[id].spec != spec then Err(Conflict)
                     else Ok((old(sessions)[id], false))
    {
      if id in sessions {
        var existing := sessions[id];
        if existing.owner != principal { return Err(OwnerMismatch); }
        if existing.spec != spec { return Err(Conflict); }
        return Ok((existing, false));
      }
      var session := Defined(id, life, principal, spec, createdAt, now);
      if !saved { return Err(SaveFailed); }
      sessions := sessions[id := session];
      return Ok((session, true));
    }

    method AdoptRuns(id: Id, principal: Principal, history: seq<FinishedRun>, createdAt: Option<int>, now: int, saved: bool)
      returns (r: Result<Session>)
      requires Valid()
      modifies this
      ensures Valid()
      ensures r.Ok? <==> AdoptableRuns(history) && id in old(sessions) && old(sessions)[id].owner == principal &&
                         old(sessions)[id].seqNo == 0 && !HasHistory(old(runs), id) && saved
      ensures r.Err? ==> Value() == old(Value())
      ensures r.Ok? ==> r.value == Adopted(old(sessions)[id], history, createdAt, now) &&
                        Value() == Db(old(sessions)[id := r.value], RecordAll(old(runs), AdoptedRuns(r.value, history)))
    {
      if !AdoptableRuns(history) { return Err(InvalidRuns); }
      if id !in sessions { return Err(NotFound); }
      var session := sessions[id];
      if session.owner != principal { return Err(OwnerMismatch); }
      if session.seqNo != 0 || HasHistory(runs, id) { return Err(AlreadyRan); }
      session := Adopted(session, history, createdAt, now);
      var kept := runs;
      ghost var records := AdoptedRuns(session, history);
      for index := 0 to |history|
        invariant Value() == old(Value())
        invariant kept == RecordAll(runs, records[..index])
        invariant WellFormed(kept)
      {
        assert records[..index + 1][..index] == records[..index];
        RecordRunKeeps(kept, records[index]);
        kept := RecordRun(kept, AdoptedRun(session, history[index], index + 1));
      }
      assert records[..|history|] == records;
      if !saved { return Err(SaveFailed); }
      sessions, runs := sessions[id := session], kept;
      return Ok(session);
    }

    method LinkReady(id: Id, seqNo: nat, now: int, saved: bool) returns (ok: bool)
      requires Valid()
      modifies this
      ensures Valid() && runs == old(runs)
      ensures !ok <==> id in old(sessions) && LinkApplies(old(sessions)[id], seqNo) && !saved
      ensures sessions == if ok && id in old(sessions) && LinkApplies(old(sessions)[id], seqNo)
                          then old(sessions)[id := LinkedReady(old(sessions)[id], now)] else old(sessions)
    {
      if id !in sessions { return true; }
      var linked := sessions[id];
      if linked.seqNo != seqNo || (linked.phase != Queued && linked.phase != Starting) { return true; }
      linked := linked.(phase := Ready, error := "", updatedAt := now);
      linked := linked.(startedAt := OrTime(linked.startedAt, linked.updatedAt));
      if !saved { return false; }
      sessions := sessions[id := linked];
      return true;
    }

    /** The locked cycle of a reconciliation pass over every session it read. */
    method MergePass(watches: seq<Watch>, saved: bool) returns (ok: bool)
      requires Valid()
      modifies this
      ensures Valid()
      ensures !ok <==> MergesSome(old(Value()), watches) && !saved
      ensures Value() == if ok then MergeAll(old(Value()), watches) else old(Value())
    {
      var merged, kept, changed := sessions, runs, false;
      for i := 0 to |watches|
        invariant Value() == old(Value())
        invariant Db(merged, kept) == MergeAll(old(Value()), watches[..i])
        invariant changed == MergesSome(old(Value()), watches[..i])
        invariant (forall id :: id in merged ==> merged[id].id == id) && WellFormed(kept)
      {
        assert watches[..i + 1][..i] == watches[..i];
        var w := watches[i];
        if w.snapshot.id in merged {
          var session := merged[w.snapshot.id];
          if MergeApplies(session, w.snapshot, w.candidate) {
            changed := true;
            session := Merge(session, w.snapshot, w.candidate, w.now);
            var frozen;
            session, kept, frozen := FreezeIfTerminal(kept, session, w.removed, w.fault, w.trace);
            merged := merged[w.snapshot.id := session];
          }
        }
      }
      assert watches[..|watches|] == watches;
      if !changed { NothingMerged(Value(), watches); return true; }
      if !saved { return false; }
      sessions, runs := merged, kept;
      return true;
    }

    method AttachRunStats(id: Id, seqNo: nat, stats: RunStats, saved: bool) returns (ok: bool)
      requires Valid()
      modifies this`runs
      ensures Valid()
      ensures !ok <==> !saved && exists i :: 0 <= i < |old(runs)| && Due(old(runs)[i], id, seqNo)
      ensures runs == if ok then AttachStats(old(runs), id, seqNo, stats) else old(runs)
    {
      AttachStatsKeeps(runs, id, seqNo, stats);
      var index := 0;
      while index < |runs|
        invariant 0 <= index <= |runs| && runs == old(runs)
        invariant forall i :: 0 <= i < index ==> !Due(runs[i], id, seqNo)
      {
        if Records(runs[index], id, seqNo) && runs[index].stats.None? {
          AttachStatsFirst(runs, id, seqNo, stats, index);
          assert Due(runs[index], id, seqNo);
          if !saved { return false; }
          runs := runs[index := runs[index].(stats := Some(stats))];
          return true;
        }
        index := index + 1;
      }
      AttachStatsFirst(runs, id, seqNo, stats, index);
      return true;
    }
  }
}
