/**
 What the device-code broker does for its callers (subsystems/tunnel/tunnel.go), over every run: how long an
 authorization lives, when it is polled, how often one may be started, and what credential ends up linked.
 */
module DeviceLaws {
  import opened SessionTypes
  import opened DeviceBroker

  lemma RunOne(steps: seq<Step>, step: Step)
    ensures Run(steps + [step]) == Apply(Run(steps), step)
  {
    assert (steps + [step])[..|steps|] == steps;
  }

  function RunOn(w: World, steps: seq<Step>): World
    decreases |steps|
  {
    if steps == [] then w else RunOn(Apply(w, steps[0]), steps[1..])
  }

  lemma {:induction false} RunMore(before: seq<Step>, steps: seq<Step>)
    ensures Run(before + steps) == RunOn(Run(before), steps)
    decreases |steps|
  {
    if steps == [] {
      assert before + steps == before;
    } else {
      RunOne(before, steps[0]);
      MovedOver(before, steps);
      RunMore(before + [steps[0]], steps[1..]);
    }
  }

  lemma MovedOver(before: seq<Step>, steps: seq<Step>)
    requires steps != []
    ensures before + steps == before + [steps[0]] + steps[1..]
  {
  }

  lemma RunThree(steps: seq<Step>, a: Step, b: Step, c: Step)
    ensures Run(steps + [a, b, c]) == Apply(Apply(Apply(Run(steps), a), b), c)
  {
    RunMore(steps, [a, b, c]);
    assert [a, b, c][1..] == [b, c] && [b, c][1..] == [c];
    var w := Run(steps);
    calc {
      RunOn(w, [a, b, c]);
      RunOn(Apply(w, a), [b, c]);
      RunOn(Apply(Apply(w, a), b), [c]);
      RunOn(Apply(Apply(Apply(w, a), b), c), []);
    }
  }

  // ----- how long an authorization lives

  /** A start cleans up, at a time at which the authorization has expired. */
  predicate CleansUp(w: World, step: Step, h: Handle) {
    step.StartLink? && step.call !in w.starts && step.now >= w.clock && h in w.entries && step.now >= w.entries[h].expiresAt
  }

  /** A poll of its principal finds it expired. */
  predicate FindsExpired(w: World, step: Step, h: Handle) {
    && step.CheckPoll? && step.principal in w.polls && w.polls[step.principal].Checking? && w.polls[step.principal].handle == h
    && h in w.entries && w.entries[h].principal == step.principal && w.polls[step.principal].now >= w.entries[h].expiresAt
  }

  /** A poll of it is granted or fails. */
  predicate Decides(w: World, step: Step, h: Handle) { Answers(w, step, h) && !step.answer.Pending? }

  lemma AnswerTakes(w: World, principal: Principal, answer: Answer, now: int, h: Handle)
    requires h in w.entries
    ensures h !in DoAnswer(w, principal, answer, now).entries <==> Decides(w, AnswerPoll(principal, answer, now), h)
  {
    if principal in w.polls && w.polls[principal].Upstream? && now >= w.clock {
      var handle := w.polls[principal].handle;
      if handle == h { if answer.Pending? {} else {} } else {}
    }
  }

  lemma InsertKeepsEntry(w: World, call: CallId, handle: Handle, h: Handle)
    requires h in w.entries
    ensures h in DoInsert(w, call, handle).entries
  {
  }

  lemma CheckTakes(w: World, principal: Principal, h: Handle)
    requires h in w.entries
    ensures h !in DoCheck(w, principal).entries <==> FindsExpired(w, CheckPoll(principal), h)
  {
    if principal in w.polls && w.polls[principal].Checking? {
      var q := w.polls[principal];
      if Due(w, principal, q.handle, q.now) {} else if Expired(w, principal, q.handle, q.now) {} else {}
    }
  }

  lemma StartTakes(w: World, call: CallId, principal: Principal, now: int, h: Handle)
    requires h in w.entries
    ensures h !in DoStart(w, call, principal, now).entries <==> CleansUp(w, StartLink(call, principal, now), h)
  {
    if call !in w.starts && now >= w.clock {
      assert h in Live(w.entries, now) <==> now < w.entries[h].expiresAt;
      if principal in LiveStarts(w.nextStart, now) && now < LiveStarts(w.nextStart, now)[principal] {
      } else if |Live(w.entries, now)| >= MAX_ENTRIES {
      } else {
      }
    }
  }

  lemma StepTakes(w: World, step: Step, h: Handle)
    requires h in w.entries
    ensures h !in Apply(w, step).entries <==> CleansUp(w, step, h) || FindsExpired(w, step, h) || Decides(w, step, h) || step.CloseBroker?
  {
    match step
    case StartLink(call, principal, now) => StartTakes(w, call, principal, now, h);
    case InsertLink(call, handle) => InsertKeepsEntry(w, call, handle, h);
    case CheckPoll(principal) => CheckTakes(w, principal, h);
    case AnswerPoll(principal, answer, now) => AnswerTakes(w, principal, answer, now, h);
    case _ => assert step.CloseBroker? || Apply(w, step).entries == w.entries;
  }

  /** Over every run: an authorization is dropped exactly when it has expired, is decided, or the broker is closed. */
  lemma AuthorizationsLiveExactly(steps: seq<Step>, step: Step, h: Handle)
    requires h in Run(steps).entries
    ensures var w := Run(steps);
            h !in Run(steps + [step]).entries <==> CleansUp(w, step, h) || FindsExpired(w, step, h) || Decides(w, step, h) || step.CloseBroker?
  {
    RunOne(steps, step);
    StepTakes(Run(steps), step, h);
  }

  // ----- polling

  /**
   In every reachable state, a poll asks the provider exactly when its handle is its principal's, has not expired by the
   time the poll read, and its next poll is due by that time; otherwise it ends, and drops a handle of its own that has
   expired.
   */
  lemma PollsGoUpstreamExactly(steps: seq<Step>, principal: Principal)
    requires principal in Run(steps).polls && Run(steps).polls[principal].Checking?
    ensures var w, d := Run(steps), Run(steps + [CheckPoll(principal)]);
            var q := w.polls[principal];
            var own := q.handle in w.entries && w.entries[q.handle].principal == principal;
            if own && w.entries[q.handle].nextPoll <= q.now < w.entries[q.handle].expiresAt then
              d == w.(polls := w.polls[principal := Upstream(q.handle)])
            else if own && w.entries[q.handle].expiresAt <= q.now then
              d == w.(polls := w.polls - {principal}, entries := w.entries - {q.handle})
            else d == w.(polls := w.polls - {principal})
  {
    RunOne(steps, CheckPoll(principal));
  }

  // ----- starting

  function StartSteps(call: CallId, principal: Principal, t: int, interval: nat, expiresIn: nat, u: int, handle: Handle): seq<Step> {
    [StartLink(call, principal, t), StampLink(call, true, interval, expiresIn, u), InsertLink(call, handle)]
  }

  predicate MayStart(w: World, principal: Principal, t: int) {
    !(principal in w.nextStart && t < w.nextStart[principal]) && |Live(w.entries, t)| < 256
  }

  predicate StartLeaves(w: World, d: World, principal: Principal, t: int, interval: nat, expiresIn: nat, u: int, handle: Handle) {
    && d.starts == w.starts
    && (if MayStart(w, principal, t) then
          && d.entries == Live(w.entries, t)[handle := Entry(principal, u + expiresIn * SECOND, interval * SECOND, u + interval * SECOND)]
          && principal in d.nextStart && d.nextStart[principal] == t + SECOND
        else d.entries == Live(w.entries, t))
  }

  lemma StartGranted(w: World, call: CallId, principal: Principal, t: int)
    requires call !in w.starts && w.clock <= t && MayStart(w, principal, t)
    ensures var d := DoStart(w, call, principal, t);
            && d.starts == w.starts[call := Asking(principal)] && d.entries == Live(w.entries, t) && d.used == w.used && d.clock == t
            && principal in d.nextStart && d.nextStart[principal] == t + SECOND
  {
    assert principal !in LiveStarts(w.nextStart, t);
  }

  lemma StartRefused(w: World, call: CallId, principal: Principal, t: int)
    requires call !in w.starts && w.clock <= t && !MayStart(w, principal, t)
    ensures var d := DoStart(w, call, principal, t); d.starts == w.starts && d.entries == Live(w.entries, t)
  {
    if principal in w.nextStart && t < w.nextStart[principal] { assert principal in LiveStarts(w.nextStart, t); }
  }

  lemma Stamps(w: World, call: CallId, principal: Principal, interval: nat, expiresIn: nat, u: int)
    requires call in w.starts && w.starts[call] == Asking(principal) && w.clock <= u && 1 <= interval <= 60 && 1 <= expiresIn <= 3600
    ensures DoStamp(w, call, true, interval, expiresIn, u) ==
            w.(starts := w.starts[call := Stamped(principal, u, interval * SECOND, expiresIn * SECOND)], clock := u)
  {
  }

  lemma Inserts(w: World, call: CallId, handle: Handle)
    requires call in w.starts && w.starts[call].Stamped? && handle !in w.used && |w.entries| < MAX_ENTRIES
    ensures DoInsert(w, call, handle) == Inserted(w, call, handle, w.starts[call])
  {
  }

  lemma StampsAndInserts(w: World, call: CallId, principal: Principal, interval: nat, expiresIn: nat, u: int, handle: Handle)
    requires call in w.starts && w.starts[call] == Asking(principal) && w.clock <= u && 1 <= interval <= 60 && 1 <= expiresIn <= 3600
    requires handle !in w.used && |w.entries| < MAX_ENTRIES
    ensures var d := DoInsert(DoStamp(w, call, true, interval, expiresIn, u), call, handle);
            && d.entries == w.entries[handle := Entry(principal, u + expiresIn * SECOND, interval * SECOND, u + interval * SECOND)]
            && d.starts == w.starts[call := Stamped(principal, u, interval * SECOND, expiresIn * SECOND)] - {call} && d.nextStart == w.nextStart
  {
    Stamps(w, call, principal, interval, expiresIn, u);
    Inserts(DoStamp(w, call, true, interval, expiresIn, u), call, handle);
  }

  lemma Taken(starts: map<CallId, Start>, call: CallId, a: Start, b: Start)
    requires call !in starts
    ensures starts[call := a][call := b] - {call} == starts
  {
  }

  lemma NothingToInsert(w: World, call: CallId, interval: nat, expiresIn: nat, u: int, handle: Handle)
    requires call !in w.starts
    ensures DoInsert(DoStamp(w, call, true, interval, expiresIn, u), call, handle) == w
  {
  }

  lemma StartUndisturbed(w: World, call: CallId, principal: Principal, t: int, interval: nat, expiresIn: nat, u: int, handle: Handle)
    requires call !in w.starts && w.clock <= t <= u && 1 <= interval <= 60 && 1 <= expiresIn <= 3600 && handle !in w.used
    ensures StartLeaves(w, DoInsert(DoStamp(DoStart(w, call, principal, t), call, true, interval, expiresIn, u), call, handle),
                        principal, t, interval, expiresIn, u, handle)
  {
    var a := DoStart(w, call, principal, t);
    if MayStart(w, principal, t) {
      StartGranted(w, call, principal, t);
      StampsAndInserts(a, call, principal, interval, expiresIn, u, handle);
      Taken(w.starts, call, Asking(principal), Stamped(principal, u, interval * SECOND, expiresIn * SECOND));
    } else {
      StartRefused(w, call, principal, t);
      NothingToInsert(a, call, interval, expiresIn, u, handle);
    }
  }

  /**
   A start that nothing disturbs is granted exactly when the principal's last one is a second ago and fewer than 256
   authorizations live; the new one expires, and may first be polled, as the provider said, counted from its answer.
   */
  lemma UndisturbedStart(steps: seq<Step>, call: CallId, principal: Principal, t: int, interval: nat, expiresIn: nat, u: int, handle: Handle)
    requires var w := Run(steps); call !in w.starts && w.clock <= t <= u && handle !in w.used
    requires 1 <= interval <= 60 && 1 <= expiresIn <= 3600
    ensures StartLeaves(Run(steps), Run(steps + StartSteps(call, principal, t, interval, expiresIn, u, handle)),
                        principal, t, interval, expiresIn, u, handle)
  {
    RunStart(steps, call, principal, t, interval, expiresIn, u, handle);
    StartUndisturbed(Run(steps), call, principal, t, interval, expiresIn, u, handle);
  }

  lemma RunStart(steps: seq<Step>, call: CallId, principal: Principal, t: int, interval: nat, expiresIn: nat, u: int, handle: Handle)
    ensures Run(steps + StartSteps(call, principal, t, interval, expiresIn, u, handle)) ==
            DoInsert(DoStamp(DoStart(Run(steps), call, principal, t), call, true, interval, expiresIn, u), call, handle)
  {
    RunThree(steps, StartLink(call, principal, t), StampLink(call, true, interval, expiresIn, u), InsertLink(call, handle));
  }

  /** Step `i` of the run is a start that was granted. */
  predicate Starts(steps: seq<Step>, i: nat, principal: Principal) {
    && i < |steps| && steps[i].StartLink? && steps[i].principal == principal
    && var w := Run(steps[..i]);
       steps[i].call !in w.starts && steps[i].now >= w.clock && MayStart(w, principal, steps[i].now)
  }

  predicate NoCloseSince(steps: seq<Step>, i: nat) { forall k :: i <= k < |steps| ==> !steps[k].CloseBroker? }

  /** The broker remembers the start until a second has passed. */
  predicate Remembers(w: World, principal: Principal, t: int) {
    w.clock >= t && (w.clock < t + SECOND ==> principal in w.nextStart && w.nextStart[principal] >= t + SECOND)
  }

  lemma RememberStep(w: World, step: Step, principal: Principal, t: int)
    requires Remembers(w, principal, t) && !step.CloseBroker?
    ensures Remembers(Apply(w, step), principal, t)
  {
    match step
    case StartLink(call, p, now) => RememberStart(w, call, p, now, principal, t);
    case StampLink(call, ok, interval, expiresIn, now) => StampRemembers(w, call, ok, interval, expiresIn, now);
    case LockPoll(p, h, now) =>
    case AnswerPoll(p, a, now) => AnswerRemembers(w, p, a, now);
    case CheckPoll(p) => CheckRemembers(w, p);
    case InsertLink(call, handle) => InsertRemembers(w, call, handle);
    case SavePoll(p, ok) => SaveRemembers(w, p, ok);
    case Unlink(p) =>
    case CloseBroker =>
  }

  lemma InsertRemembers(w: World, call: CallId, handle: Handle)
    ensures var d := DoInsert(w, call, handle); d.nextStart == w.nextStart && d.clock == w.clock
  {
  }

  lemma SaveRemembers(w: World, p: Principal, ok: bool)
    ensures var d := DoSave(w, p, ok); d.nextStart == w.nextStart && d.clock == w.clock
  {
  }

  lemma StampRemembers(w: World, call: CallId, ok: bool, interval: nat, expiresIn: nat, now: int)
    ensures var d := DoStamp(w, call, ok, interval, expiresIn, now); d.nextStart == w.nextStart && d.clock >= w.clock
  {
  }

  lemma AnswerRemembers(w: World, p: Principal, a: Answer, now: int)
    ensures var d := DoAnswer(w, p, a, now); d.nextStart == w.nextStart && d.clock >= w.clock
  {
  }

  lemma CheckRemembers(w: World, p: Principal)
    ensures var d := DoCheck(w, p); d.nextStart == w.nextStart && d.clock == w.clock
  {
    if p in w.polls && w.polls[p].Checking? {
      var q := w.polls[p];
      if Due(w, p, q.handle, q.now) {} else if Expired(w, p, q.handle, q.now) {} else {}
    }
  }

  lemma RememberStart(w: World, call: CallId, p: Principal, now: int, principal: Principal, t: int)
    requires Remembers(w, principal, t)
    ensures Remembers(DoStart(w, call, p, now), principal, t)
  {
    if call !in w.starts && now >= w.clock {
      assert principal in w.nextStart && now < w.nextStart[principal] ==> principal in LiveStarts(w.nextStart, now);
      if p in LiveStarts(w.nextStart, now) && now < LiveStarts(w.nextStart, now)[p] {
      } else if |Live(w.entries, now)| >= MAX_ENTRIES {
      } else {
      }
    }
  }

  lemma {:induction false} StaysRemembered(steps: seq<Step>, i: nat, principal: Principal, t: int)
    requires i <= |steps| && Remembers(Run(steps[..i]), principal, t) && NoCloseSince(steps, i)
    ensures Remembers(Run(steps), principal, t)
  {
    if i == |steps| {
      assert steps[..i] == steps;
    } else {
      var n := |steps| - 1;
      RunLast(steps);
      assert steps[..n][..i] == steps[..i];
      StaysRemembered(steps[..n], i, principal, t);
      RememberStep(Run(steps[..n]), steps[n], principal, t);
    }
  }

  lemma StartIsRemembered(steps: seq<Step>, i: nat, principal: Principal)
    requires Starts(steps, i, principal) && NoCloseSince(steps, i)
    ensures Remembers(Run(steps), principal, steps[i].now)
  {
    StartsBefore(steps, i, principal, i + 1);
    GrantedStartRemembers(steps[..i + 1], principal);
    StaysRemembered(steps, i + 1, principal, steps[i].now);
  }

  lemma RunLast(steps: seq<Step>)
    requires steps != []
    ensures Run(steps) == Apply(Run(steps[..|steps| - 1]), steps[|steps| - 1])
  {
  }

  lemma GrantedStartRemembers(steps: seq<Step>, principal: Principal)
    requires steps != [] && Starts(steps, |steps| - 1, principal)
    ensures Remembers(Run(steps), principal, steps[|steps| - 1].now)
  {
    var step := steps[|steps| - 1];
    GrantedRemembers(Run(steps[..|steps| - 1]), step.call, principal, step.now);
  }

  lemma StartsBefore(steps: seq<Step>, i: nat, principal: Principal, n: nat)
    requires Starts(steps, i, principal) && i < n <= |steps|
    ensures Starts(steps[..n], i, principal) && steps[..n][i] == steps[i]
  {
    assert steps[..n][..i] == steps[..i];
  }

  lemma GrantedRemembers(w: World, call: CallId, principal: Principal, now: int)
    requires call !in w.starts && now >= w.clock && MayStart(w, principal, now)
    ensures Remembers(DoStart(w, call, principal, now), principal, now)
  {
    assert principal !in LiveStarts(w.nextStart, now);
  }

  /** Over every run: two starts of a principal are granted at least a second apart, unless the broker was closed between. */
  lemma StartsAreSpaced(steps: seq<Step>, i: nat, j: nat, principal: Principal)
    requires i < j && Starts(steps, i, principal) && Starts(steps, j, principal) && forall k :: i <= k < j ==> !steps[k].CloseBroker?
    ensures steps[j].now >= steps[i].now + SECOND
  {
    StartsBefore(steps, i, principal, j);
    StartIsRemembered(steps[..j], i, principal);
  }

  // ----- the credential

  predicate Grants(step: Step, principal: Principal, token: string) {
    step.AnswerPoll? && step.principal == principal && step.answer == Granted(token)
  }

  ghost predicate WasGranted(steps: seq<Step>, principal: Principal, token: string) {
    exists i :: 0 <= i < |steps| && Grants(steps[i], principal, token)
  }

  lemma GrantedStays(steps: seq<Step>, principal: Principal, token: string)
    requires steps != [] && WasGranted(steps[..|steps| - 1], principal, token)
    ensures WasGranted(steps, principal, token)
  {
    var i :| 0 <= i < |steps| - 1 && Grants(steps[..|steps| - 1][i], principal, token);
    assert Grants(steps[i], principal, token);
  }

  /** What a principal is linked with, and what is about to be saved for it, was granted to that principal. */
  ghost predicate TokensOk(steps: seq<Step>, w: World) {
    && (forall p :: p in w.links ==> WasGranted(steps, p, w.links[p]))
    && (forall p :: p in w.polls && w.polls[p].Saving? ==> WasGranted(steps, p, w.polls[p].token))
  }

  /** Where a token of a step comes from: it was there, or the step granted it. */
  lemma TokensMove(w: World, step: Step, p: Principal)
    ensures var d := Apply(w, step);
            && (p in d.links ==> (p in w.links && d.links[p] == w.links[p]) || (p in w.polls && w.polls[p].Saving? && d.links[p] == w.polls[p].token))
            && (p in d.polls && d.polls[p].Saving? ==> (p in w.polls && d.polls[p] == w.polls[p]) || Grants(step, p, d.polls[p].token))
  {
    match step
    case StartLink(call, principal, now) => StartTokens(w, call, principal, now);
    case CheckPoll(principal) => CheckTokens(w, principal, p);
    case AnswerPoll(principal, answer, now) => AnswerTokens(w, principal, answer, now, p);
    case SavePoll(principal, ok) => SaveTokens(w, principal, ok, p);
    case _ => OtherTokens(w, step, p);
  }

  lemma OtherTokens(w: World, step: Step, p: Principal)
    requires step.StampLink? || step.InsertLink? || step.LockPoll? || step.Unlink? || step.CloseBroker?
    ensures var d := Apply(w, step);
            && (p in d.links ==> p in w.links && d.links[p] == w.links[p])
            && (p in d.polls && d.polls[p].Saving? ==> p in w.polls && d.polls[p] == w.polls[p])
  {
    match step
    case StampLink(call, ok, interval, expiresIn, now) => StampTokens(w, call, ok, interval, expiresIn, now);
    case InsertLink(call, handle) => InsertTokens(w, call, handle);
    case LockPoll(principal, handle, now) => LockTokens(w, principal, handle, now, p);
    case Unlink(principal) =>
    case CloseBroker =>
    case _ =>
  }

  lemma StampTokens(w: World, call: CallId, ok: bool, interval: nat, expiresIn: nat, now: int)
    ensures var d := DoStamp(w, call, ok, interval, expiresIn, now); d.links == w.links && d.polls == w.polls
  {
  }

  lemma InsertTokens(w: World, call: CallId, handle: Handle)
    ensures var d := DoInsert(w, call, handle); d.links == w.links && d.polls == w.polls
  {
  }

  lemma LockTokens(w: World, principal: Principal, handle: Handle, now: int, p: Principal)
    ensures var d := DoLock(w, principal, handle, now);
            d.links == w.links && (p in d.polls && d.polls[p].Saving? ==> p in w.polls && d.polls[p] == w.polls[p])
  {
  }

  lemma StartTokens(w: World, call: CallId, principal: Principal, now: int)
    ensures var d := DoStart(w, call, principal, now); d.links == w.links && d.polls == w.polls
  {
    if call in w.starts || now < w.clock {
    } else if principal in LiveStarts(w.nextStart, now) && now < LiveStarts(w.nextStart, now)[principal] {
    } else if |Live(w.entries, now)| >= MAX_ENTRIES {
    } else {
    }
  }

  lemma CheckTokens(w: World, principal: Principal, p: Principal)
    ensures var d := DoCheck(w, principal);
            d.links == w.links && (p in d.polls && d.polls[p].Saving? ==> p in w.polls && d.polls[p] == w.polls[p])
  {
    if principal in w.polls && w.polls[principal].Checking? {
      var q := w.polls[principal];
      if Due(w, principal, q.handle, q.now) {} else if Expired(w, principal, q.handle, q.now) {} else {}
    }
  }

  lemma AnswerTokens(w: World, principal: Principal, answer: Answer, now: int, p: Principal)
    ensures var d := DoAnswer(w, principal, answer, now);
            && d.links == w.links
            && (p in d.polls && d.polls[p].Saving? ==> (p in w.polls && d.polls[p] == w.polls[p]) || Grants(AnswerPoll(principal, answer, now), p, d.polls[p].token))
  {
    if principal in w.polls && w.polls[principal].Upstream? && now >= w.clock { if answer.Granted? {} else {} }
  }

  lemma SaveTokens(w: World, principal: Principal, ok: bool, p: Principal)
    ensures var d := DoSave(w, principal, ok);
            && (p in d.links ==> (p in w.links && d.links[p] == w.links[p]) || (p in w.polls && w.polls[p].Saving? && d.links[p] == w.polls[p].token))
            && (p in d.polls ==> p in w.polls && d.polls[p] == w.polls[p])
  {
    if principal in w.polls && w.polls[principal].Saving? { if ok {} else {} }
  }

  lemma {:induction false} TokensAreGranted(steps: seq<Step>)
    ensures TokensOk(steps, Run(steps))
  {
    if steps != [] {
      var before, step := steps[..|steps| - 1], steps[|steps| - 1];
      TokensAreGranted(before);
      forall p ensures p in Run(steps).links ==> WasGranted(steps, p, Run(steps).links[p]) {
        TokensMove(Run(before), step, p);
        if p in Run(steps).links { GrantedStays(steps, p, Run(steps).links[p]); }
      }
      forall p | p in Run(steps).polls && Run(steps).polls[p].Saving? ensures WasGranted(steps, p, Run(steps).polls[p].token) {
        TokensMove(Run(before), step, p);
        if Grants(step, p, Run(steps).polls[p].token) {
          assert Grants(steps[|steps| - 1], p, Run(steps).polls[p].token);
        } else {
          GrantedStays(steps, p, Run(steps).polls[p].token);
        }
      }
    }
  }

  /** Over every run: the credential a principal is linked with is one that the provider granted to a poll of that principal. */
  lemma LinkedCredentialsWereGranted(steps: seq<Step>, principal: Principal)
    requires principal in Run(steps).links
    ensures WasGranted(steps, principal, Run(steps).links[principal])
  {
    TokensAreGranted(steps);
  }

  /** A poll that is granted and saved links exactly that credential, and uses the authorization up. */
  lemma GrantedPollLinks(steps: seq<Step>, principal: Principal, token: string, now: int)
    requires principal in Run(steps).polls && Run(steps).polls[principal].Upstream? && now >= Run(steps).clock
    ensures var w := Run(steps);
            var d := Run(steps + [AnswerPoll(principal, Granted(token), now), SavePoll(principal, true)]);
            var h := w.polls[principal].handle;
            && d.links == w.links[principal := token] && d.linked == w.linked + [h] && d.entries == w.entries - {h}
            && d.polls == w.polls - {principal}
  {
    RunGrant(steps, principal, token, now);
    PollLinks(Run(steps), principal, token, now);
  }

  lemma RunGrant(steps: seq<Step>, principal: Principal, token: string, now: int)
    ensures Run(steps + [AnswerPoll(principal, Granted(token), now), SavePoll(principal, true)]) ==
            DoSave(DoAnswer(Run(steps), principal, Granted(token), now), principal, true)
  {
    var a, b := AnswerPoll(principal, Granted(token), now), SavePoll(principal, true);
    RunOne(steps, a);
    RunOne(steps + [a], b);
    assert steps + [a] + [b] == steps + [a, b];
  }

  lemma PollLinks(w: World, principal: Principal, token: string, now: int)
    requires principal in w.polls && w.polls[principal].Upstream? && now >= w.clock
    ensures var d := DoSave(DoAnswer(w, principal, Granted(token), now), principal, true);
            var h := w.polls[principal].handle;
            && d.links == w.links[principal := token] && d.linked == w.linked + [h] && d.entries == w.entries - {h}
            && d.polls == w.polls - {principal}
  {
    var h := w.polls[principal].handle;
    var a := DoAnswer(w, principal, Granted(token), now);
    assert a.polls == w.polls[principal := Saving(h, token)] && a.entries == w.entries - {h} && a.links == w.links && a.linked == w.linked;
  }

  /** Unlinking forgets the credential, but waits for a poll of the principal to end. */
  lemma UnlinkForgets(steps: seq<Step>, principal: Principal)
    ensures var w, d := Run(steps), Run(steps + [Unlink(principal)]);
            d == if principal in w.polls then w else w.(links := w.links - {principal})
  {
    RunOne(steps, Unlink(principal));
  }
}
