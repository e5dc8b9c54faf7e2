/**
 The OIDC signing-key cache (internal/identity/oidc.go): callers share one refresh at a time, unknown key ids may start
 one only after a cooldown. Each section under the mutex is one step; the clock never runs backwards.
 */
module OidcCache {
  import opened SessionTypes

  type CallId = nat
  type RefreshId = nat

  const TTL := 5 * MINUTE
  const COOLDOWN := 30 * SECOND

  /** The keys of one successful refresh; `origin` is its number. */
  datatype Keys = Keys(kids: set<string>, expires: int, origin: RefreshId)

  /** The mutable fields of the cache. Refreshes are numbered as they start; `next` is the next number. */
  datatype Cache = Cache(keys: Option<Keys>, refresh: Option<RefreshId>, nextUnknown: int, next: RefreshId)

  predicate Holds(c: Cache, kid: string) { c.keys.Some? && kid in c.keys.value.kids }

  /** Whether a call is answered from the cache. */
  predicate Hit(c: Cache, kid: string, now: int) {
    if kid == "" then c.keys.Some? && now < c.keys.value.expires
    else Holds(c, kid) || (c.refresh.None? && now < c.nextUnknown)
  }

  predicate Starts(c: Cache, kid: string, now: int) { !Hit(c, kid, now) && c.refresh.None? }

  /** The first section of `keys`, for a call that is not answered at once. */
  function Joined(c: Cache, kid: string, now: int): Cache {
    if c.refresh.Some? then c
    else c.(refresh := Some(c.next), next := c.next + 1, nextUnknown := if kid != "" then now + COOLDOWN else c.nextUnknown)
  }

  /** The end of a refresh: `fetched` is None when it failed. */
  function Refreshed(c: Cache, id: RefreshId, fetched: Option<set<string>>, now: int): Cache {
    c.(keys := if fetched.Some? then Some(Keys(fetched.value, now + TTL, id)) else c.keys,
       refresh := if c.refresh == Some(id) then None else c.refresh)
  }

  /** The object, with the sections of its methods that run under the mutex. */
  class Oidc {
    var keys: Option<Keys>
    var refresh: Option<RefreshId>
    var nextUnknown: int
    var next: RefreshId

    constructor ()
      ensures Value() == Cache(None, None, 0, 0)
    {
      keys, refresh, nextUnknown, next := None, None, 0, 0;
    }

    ghost function Value(): Cache
      reads this
    {
      Cache(keys, refresh, nextUnknown, next)
    }

    /** The call is answered at once, or it waits for `call`, which `started` says it has to run. */
    method Enter(kid: string, now: int) returns (hit: bool, call: RefreshId, started: bool)
      modifies this
      ensures hit <==> Hit(old(Value()), kid, now)
      ensures started <==> Starts(old(Value()), kid, now)
      ensures Value() == if hit then old(Value()) else Joined(old(Value()), kid, now)
      ensures !hit ==> refresh == Some(call)
    {
      hit := keys.Some? && now < keys.value.expires;
      if kid != "" {
        hit := (keys.Some? && kid in keys.value.kids) || (refresh.None? && now < nextUnknown);
      }
      call, started := 0, false;
      if hit { return; }
      if refresh.None? {
        refresh, next, started := Some(next), next + 1, true;
        if kid != "" { nextUnknown := now + COOLDOWN; }
      }
      call := refresh.value;
    }

    method EndRefresh(id: RefreshId, fetched: Option<set<string>>, now: int)
      modifies this
      ensures Value() == Refreshed(old(Value()), id, fetched, now)
    {
      if fetched.Some? { keys := Some(Keys(fetched.value, now + TTL, id)); }
      if refresh == Some(id) { refresh := None; }
    }
  }

  // ----- the protocol

  datatype Answer = Answered(keys: Option<Keys>, joined: Option<RefreshId>) | Refused

  /**
   `running` are the refreshes under way, `done` how the others ended, `waiting` the calls and the refresh they joined.
   Bookkeeping: `unknownStarts` are the times at which refreshes were started for unknown key ids.
   */
  datatype World = World(
    cache: Cache, running: set<RefreshId>, done: map<RefreshId, bool>, waiting: map<CallId, RefreshId>,
    answers: map<CallId, Answer>, unknownStarts: seq<int>, clock: int)

  const INITIAL := World(Cache(None, None, 0, 0), {}, map[], map[], map[], [], 0)

  function DoAsk(w: World, call: CallId, kid: string, now: int): World {
    if call in w.waiting || call in w.answers || now < w.clock then w
    else if Hit(w.cache, kid, now) then w.(answers := w.answers[call := Answered(w.cache.keys, None)], clock := now)
    else
      var joined := Joined(w.cache, kid, now);
      w.(cache := joined, clock := now, waiting := w.waiting[call := joined.refresh.value],
         running := if w.cache.refresh.None? then w.running + {w.cache.next} else w.running,
         unknownStarts := if w.cache.refresh.None? && kid != "" then w.unknownStarts + [now] else w.unknownStarts)
  }

  function DoFinish(w: World, id: RefreshId, fetched: Option<set<string>>, now: int): World {
    if id !in w.running || now < w.clock then w
    else w.(cache := Refreshed(w.cache, id, fetched, now), running := w.running - {id}, done := w.done[id := fetched.Some?], clock := now)
  }

  function DoWake(w: World, call: CallId): World {
    if call !in w.waiting || w.waiting[call] !in w.done then w
    else
      var id := w.waiting[call];
      w.(waiting := w.waiting - {call},
         answers := w.answers[call := if w.done[id] then Answered(w.cache.keys, Some(id)) else Refused])
  }

  function DoAbandon(w: World, call: CallId): World {
    if call !in w.waiting then w else w.(waiting := w.waiting - {call}, answers := w.answers[call := Refused])
  }

  datatype Step =
    | Ask(call: CallId, kid: string, now: int)
    | Finish(id: RefreshId, fetched: Option<set<string>>, now: int)
    | Wake(call: CallId)
    | Abandon(call: CallId)

  function Apply(w: World, step: Step): World {
    match step
    case Ask(call, kid, now) => DoAsk(w, call, kid, now)
    case Finish(id, fetched, now) => DoFinish(w, id, fetched, now)
    case Wake(call) => DoWake(w, call)
    case Abandon(call) => DoAbandon(w, call)
  }

  function Run(steps: seq<Step>): World {
    if steps == [] then INITIAL else Apply(Run(steps[..|steps| - 1]), steps[|steps| - 1])
  }

  // ----- the invariant

  predicate AnswerOk(a: Answer) { a.Answered? && a.joined.Some? ==> a.keys.Some? && a.keys.value.origin >= a.joined.value }

  predicate Spaced(ts: seq<int>) { forall i, j :: 0 <= i < j < |ts| ==> ts[j] - ts[i] >= COOLDOWN }

  predicate DoneOk(w: World, id: RefreshId) {
    id in w.done && id < w.cache.next && (w.done[id] ==> w.cache.keys.Some? && w.cache.keys.value.origin >= id)
  }

  predicate Inv(w: World) {
    && w.running == (if w.cache.refresh.Some? then {w.cache.refresh.value} else {})
    && (w.cache.refresh.Some? ==> w.cache.refresh.value + 1 == w.cache.next && w.cache.refresh.value !in w.done)
    && (forall id :: id in w.done ==> DoneOk(w, id))
    && (w.cache.keys.Some? ==> w.cache.keys.value.origin in w.done)
    && (forall c :: c in w.answers ==> AnswerOk(w.answers[c]))
    && Spaced(w.unknownStarts)
    && w.cache.nextUnknown == (if w.unknownStarts == [] then 0 else w.unknownStarts[|w.unknownStarts| - 1] + COOLDOWN)
    && w.clock >= 0 && (forall c :: c in w.answers ==> c !in w.waiting)
  }

  lemma AskKeeps(w: World, call: CallId, kid: string, now: int)
    requires Inv(w)
    ensures Inv(DoAsk(w, call, kid, now))
  {
    if call !in w.waiting && call !in w.answers && now >= w.clock {
      if Hit(w.cache, kid, now) {
        var d := w.(answers := w.answers[call := Answered(w.cache.keys, None)], clock := now);
        forall id | id in d.done ensures DoneOk(d, id) { assert DoneOk(w, id); }
      } else if w.cache.refresh.Some? {
        var d := w.(clock := now, waiting := w.waiting[call := w.cache.refresh.value]);
        forall id | id in d.done ensures DoneOk(d, id) { assert DoneOk(w, id); }
      } else {
        StartKeeps(w, call, kid, now);
      }
    }
  }

  lemma StartKeeps(w: World, call: CallId, kid: string, now: int)
    requires Inv(w) && call !in w.waiting && call !in w.answers && now >= w.clock && Starts(w.cache, kid, now)
    ensures Inv(DoAsk(w, call, kid, now))
  {
    var d := DoAsk(w, call, kid, now);
    assert w.cache.next in w.done ==> DoneOk(w, w.cache.next);
    forall id | id in d.done ensures DoneOk(d, id) { assert DoneOk(w, id); }
    if kid != "" { SpacedMore(w.unknownStarts, now); }
  }

  lemma SpacedMore(ts: seq<int>, now: int)
    requires Spaced(ts) && (ts != [] ==> now >= ts[|ts| - 1] + COOLDOWN)
    ensures Spaced(ts + [now])
  {
    var more := ts + [now];
    forall i, j | 0 <= i < j < |more| ensures more[j] - more[i] >= COOLDOWN {
      if j == |ts| && i < |ts| - 1 { assert ts[|ts| - 1] - ts[i] >= COOLDOWN; }
    }
  }

  lemma FinishKeeps(w: World, id: RefreshId, fetched: Option<set<string>>, now: int)
    requires Inv(w)
    ensures Inv(DoFinish(w, id, fetched, now))
  {
    if id in w.running && now >= w.clock {
      var d := DoFinish(w, id, fetched, now);
      assert w.cache.refresh == Some(id);
      forall i | i in d.done ensures DoneOk(d, i) { assert i in w.done ==> DoneOk(w, i); }
    }
  }

  lemma WakeKeeps(w: World, call: CallId)
    requires Inv(w)
    ensures Inv(DoWake(w, call)) && Inv(DoAbandon(w, call))
  {
    if call in w.waiting {
      if w.waiting[call] in w.done {
        assert DoneOk(w, w.waiting[call]);
        forall i | i in w.done ensures DoneOk(DoWake(w, call), i) { assert DoneOk(w, i); }
      }
      forall i | i in w.done ensures DoneOk(DoAbandon(w, call), i) { assert DoneOk(w, i); }
    }
  }

  lemma {:induction false} RunKeeps(steps: seq<Step>)
    ensures Inv(Run(steps))
  {
    if steps != [] {
      var w := Run(steps[..|steps| - 1]);
      RunKeeps(steps[..|steps| - 1]);
      match steps[|steps| - 1]
      case Ask(call, kid, now) => AskKeeps(w, call, kid, now);
      case Finish(id, fetched, now) => FinishKeeps(w, id, fetched, now);
      case Wake(call) => WakeKeeps(w, call);
      case Abandon(call) => WakeKeeps(w, call);
    }
  }

  // ----- what follows

  /**
   Over every run: at most one refresh is under way; refreshes for unknown key ids are started at least 30 seconds
   apart; and a caller that waited and was answered without error has the keys of the refresh it joined or of a later one.
   */
  lemma CacheIsDisciplined(steps: seq<Step>, call: CallId)
    ensures var w := Run(steps);
            && |w.running| <= 1 && Spaced(w.unknownStarts)
            && (call in w.answers && w.answers[call].Answered? && w.answers[call].joined.Some? ==>
                  w.answers[call].keys.Some? && w.answers[call].keys.value.origin >= w.answers[call].joined.value)
  {
    RunKeeps(steps);
    assert call in Run(steps).answers ==> AnswerOk(Run(steps).answers[call]);
  }

  /** Only a successful refresh changes the keys, and it does so at its end. */
  lemma OnlySuccessChangesKeys(w: World, step: Step)
    requires Inv(w) && Apply(w, step).cache.keys != w.cache.keys
    ensures step.Finish? && step.fetched.Some? && step.id in w.running && step.now >= w.clock
    ensures Apply(w, step).cache.keys == Some(Keys(step.fetched.value, step.now + TTL, step.id))
  {
  }

  /** The step ends a refresh that succeeded. */
  predicate Fetches(w: World, step: Step) { step.Finish? && step.fetched.Some? && step.id in w.running && step.now >= w.clock }

  predicate NoneSince(steps: seq<Step>, i: nat) {
    forall k :: i <= k < |steps| ==> !Fetches(Run(steps[..k]), steps[k])
  }

  lemma FetchSetsKeys(w: World, step: Step)
    requires Fetches(w, step)
    ensures Apply(w, step).cache.keys == Some(Keys(step.fetched.value, step.now + TTL, step.id))
  {
  }

  lemma {:induction false} KeysStay(steps: seq<Step>, i: nat)
    requires i <= |steps| && NoneSince(steps, i)
    ensures Run(steps).cache.keys == Run(steps[..i]).cache.keys
  {
    if i == |steps| {
      assert steps[..i] == steps;
    } else {
      var n := |steps| - 1;
      var before := steps[..n];
      assert before[..i] == steps[..i];
      forall k | i <= k < n ensures !Fetches(Run(before[..k]), before[k]) { assert before[..k] == steps[..k] && !Fetches(Run(steps[..k]), steps[k]); }
      KeysStay(before, i);
      RunKeeps(before);
      assert !Fetches(Run(steps[..n]), steps[n]);
      if Apply(Run(before), steps[n]).cache.keys != Run(before).cache.keys { OnlySuccessChangesKeys(Run(before), steps[n]); }
    }
  }

  lemma KeysAfterFetch(steps: seq<Step>, i: nat)
    requires i < |steps| && Fetches(Run(steps[..i]), steps[i]) && NoneSince(steps, i + 1)
    ensures Run(steps).cache.keys == Some(Keys(steps[i].fetched.value, steps[i].now + TTL, steps[i].id))
  {
    KeysStay(steps, i + 1);
    assert steps[..i + 1][..i] == steps[..i];
    FetchSetsKeys(Run(steps[..i]), steps[i]);
  }

  lemma KeysBeforeFetch(steps: seq<Step>)
    requires NoneSince(steps, 0)
    ensures Run(steps).cache.keys == None
  {
    KeysStay(steps, 0);
    assert steps[..0] == [];
  }

  predicate LastFetch(steps: seq<Step>, i: nat) { i < |steps| && Fetches(Run(steps[..i]), steps[i]) && NoneSince(steps, i + 1) }

  /** Over every run, the keys are exactly those of the last refresh that succeeded, and there are none before the first. */
  lemma KeysAreTheLastFetched(steps: seq<Step>)
    ensures NoneSince(steps, 0) ==> Run(steps).cache.keys == None
    ensures forall i: nat :: LastFetch(steps, i) ==>
                               Run(steps).cache.keys == Some(Keys(steps[i].fetched.value, steps[i].now + TTL, steps[i].id))
  {
    if NoneSince(steps, 0) { KeysBeforeFetch(steps); }
    forall i: nat | LastFetch(steps, i)
      ensures Run(steps).cache.keys == Some(Keys(steps[i].fetched.value, steps[i].now + TTL, steps[i].id))
    {
      KeysAfterFetch(steps, i);
    }
  }

  // ----- answers from the cache

  lemma {:induction false} LastFetchExists(steps: seq<Step>) returns (last: Option<nat>)
    ensures last.None? ==> NoneSince(steps, 0)
    ensures last.Some? ==> LastFetch(steps, last.value)
  {
    if steps == [] { return None; }
    var n := |steps| - 1;
    var before := steps[..n];
    last := LastFetchExists(before);
    forall k | 0 <= k < n ensures before[..k] == steps[..k] && before[k] == steps[k] {}
    if Fetches(Run(before), steps[n]) { return Some(n); }
    if last.Some? {
      assert before[..last.value] == steps[..last.value];
      forall k | last.value + 1 <= k < |steps| ensures !Fetches(Run(steps[..k]), steps[k]) {
        assert k < n ==> !Fetches(Run(before[..k]), before[k]);
      }
    } else {
      forall k | 0 <= k < |steps| ensures !Fetches(Run(steps[..k]), steps[k]) {
        assert k < n ==> !Fetches(Run(before[..k]), before[k]);
      }
    }
  }

  /** The keys of the last refresh that succeeded are less than five minutes old. */
  ghost predicate FetchedLately(steps: seq<Step>, now: int) { exists i: nat :: LastFetch(steps, i) && now < steps[i].now + 5 * MINUTE }

  /** The last refresh that succeeded brought this key. */
  ghost predicate Fetched(steps: seq<Step>, kid: string) { exists i: nat :: LastFetch(steps, i) && kid in steps[i].fetched.value }

  /** No refresh is under way, and the last one for an unknown key id was started less than 30 seconds ago. */
  predicate CoolingDown(w: World, now: int) {
    w.running == {} && w.unknownStarts != [] && now < w.unknownStarts[|w.unknownStarts| - 1] + 30 * SECOND
  }

  /** What a call must meet to be answered at once. */
  ghost predicate Answerable(steps: seq<Step>, kid: string, now: int) {
    if kid == "" then FetchedLately(steps, now) else Fetched(steps, kid) || CoolingDown(Run(steps), now)
  }

  lemma KeysAreKnown(steps: seq<Step>, kid: string, now: int)
    ensures var keys := Run(steps).cache.keys;
            && (FetchedLately(steps, now) <==> keys.Some? && now < keys.value.expires)
            && (Fetched(steps, kid) <==> keys.Some? && kid in keys.value.kids)
  {
    KeysAreTheLastFetched(steps);
    var last := LastFetchExists(steps);
    if last.Some? {
      assert LastFetch(steps, last.value);
    } else {
      forall i: nat ensures !LastFetch(steps, i) {
        if i < |steps| { assert !Fetches(Run(steps[..i]), steps[i]); }
      }
    }
  }

  lemma HitExactly(steps: seq<Step>, kid: string, now: int)
    requires now >= Run(steps).clock
    ensures Hit(Run(steps).cache, kid, now) <==> Answerable(steps, kid, now)
  {
    RunKeeps(steps);
    KeysAreKnown(steps, kid, now);
  }

  /**
   In every reachable state, a call is answered at once exactly when it asks for no key in particular and the keys are
   less than five minutes old, or when its key is among them, or when a refresh for an unknown key was started less than
   30 seconds ago and none is under way. It gets the keys of the last refresh. Every other call waits for a refresh that
   is under way.
   */
  lemma AnsweredAtOnceExactly(steps: seq<Step>, call: CallId, kid: string, now: int)
    requires var w := Run(steps); call !in w.waiting && call !in w.answers && now >= w.clock
    ensures var w, d := Run(steps), Run(steps + [Ask(call, kid, now)]);
            if Answerable(steps, kid, now) then
              call !in d.waiting && call in d.answers && d.answers[call] == Answered(w.cache.keys, None)
            else
              call !in d.answers && call in d.waiting && d.running == {d.waiting[call]}
  {
    HitExactly(steps, kid, now);
    RunKeeps(steps);
    assert (steps + [Ask(call, kid, now)])[..|steps|] == steps;
  }

  /** An answer is final. */
  lemma {:induction false} AnswersStay(steps: seq<Step>, i: nat, call: CallId)
    requires i <= |steps| && call in Run(steps[..i]).answers
    ensures call in Run(steps).answers && Run(steps).answers[call] == Run(steps[..i]).answers[call]
  {
    if i == |steps| {
      assert steps[..i] == steps;
    } else {
      var before := steps[..|steps| - 1];
      assert before[..i] == steps[..i];
      AnswersStay(before, i, call);
      RunKeeps(before);
    }
  }

  // ----- answers after waiting

  /** Step `i` of the run ends the refresh. */
  predicate EndsRefresh(steps: seq<Step>, i: nat, id: RefreshId) {
    i < |steps| && steps[i].Finish? && steps[i].id == id && id in Run(steps[..i]).running && steps[i].now >= Run(steps[..i]).clock
  }

  ghost predicate DoneAs(steps: seq<Step>, id: RefreshId, done: map<RefreshId, bool>) {
    && (id in done ==> exists i: nat :: EndsRefresh(steps, i, id))
    && (forall i: nat :: EndsRefresh(steps, i, id) ==> id in done && (done[id] <==> steps[i].fetched.Some?))
  }

  lemma EndsBefore(steps: seq<Step>, step: Step, i: nat, id: RefreshId)
    requires i < |steps|
    ensures EndsRefresh(steps + [step], i, id) <==> EndsRefresh(steps, i, id)
  {
    assert (steps + [step])[..i] == steps[..i];
  }

  lemma DoneMore(steps: seq<Step>, step: Step, id: RefreshId)
    requires DoneAs(steps, id, Run(steps).done)
    ensures DoneAs(steps + [step], id, Run(steps + [step]).done)
  {
    var more, n := steps + [step], |steps|;
    RunKeeps(steps);
    assert more[..n] == steps;
    forall i: nat | EndsRefresh(more, i, id)
      ensures id in Run(more).done && (Run(more).done[id] <==> more[i].fetched.Some?)
    {
      if i < n { EndsBefore(steps, step, i, id); }
    }
    if id in Run(more).done {
      if id in Run(steps).done {
        var i: nat :| EndsRefresh(steps, i, id);
        EndsBefore(steps, step, i, id);
      } else {
        assert EndsRefresh(more, n, id);
      }
    }
  }

  lemma {:induction false} DoneExactly(steps: seq<Step>, id: RefreshId)
    ensures DoneAs(steps, id, Run(steps).done)
  {
    if steps != [] {
      var before := steps[..|steps| - 1];
      DoneExactly(before, id);
      DoneMore(before, steps[|steps| - 1], id);
      assert steps == before + [steps[|steps| - 1]];
    }
  }

  /**
   A call that waited is answered when, and as, the refresh it joined ended: with the keys of that refresh or a later one
   if it succeeded, with an error if it failed; and not before.
   */
  lemma WokenExactly(steps: seq<Step>, call: CallId)
    requires call in Run(steps).waiting
    ensures var w, d := Run(steps), Run(steps + [Wake(call)]);
            var id := w.waiting[call];
            && (forall i: nat :: EndsRefresh(steps, i, id) ==>
                  call !in d.waiting && call in d.answers &&
                  (if steps[i].fetched.Some? then d.answers[call].Answered? && d.answers[call].keys.Some? && d.answers[call].keys.value.origin >= id
                   else d.answers[call] == Refused))
            && ((forall i: nat :: !EndsRefresh(steps, i, id)) ==> d == w)
  {
    var id := Run(steps).waiting[call];
    RunKeeps(steps);
    DoneExactly(steps, id);
    assert (steps + [Wake(call)])[..|steps|] == steps;
    assert id in Run(steps).done ==> DoneOk(Run(steps), id);
  }
}
