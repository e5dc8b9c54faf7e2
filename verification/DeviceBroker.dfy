/**
 The Dev Tunnels device-code broker (subsystems/tunnel/tunnel.go; section 3.5 of RFC 8628). Starts and polls are
 processes; a poll holds the credential lock of its principal from before it reads the clock until it ends. The clock
 never runs backwards. Handles are random and never repeat.
 */
module DeviceBroker {
  import opened SessionTypes

  type Handle = string
  type CallId = nat

  const MAX_ENTRIES := 256
  const START_INTERVAL := SECOND
  const MAX_INTERVAL := 60 * SECOND
  const SLOW_DOWN := 5 * SECOND

  datatype Entry = Entry(principal: Principal, expiresAt: int, interval: int, nextPoll: int)

  /** What the provider answers to a poll. */
  datatype Answer = Failed | Pending(slowDown: bool) | Granted(token: string)

  datatype Poll =
    | Checking(handle: Handle, now: int)
    | Upstream(handle: Handle)                 // the provider is being asked
    | Saving(handle: Handle, token: string)

  datatype Origin = Origin(principal: Principal, interval: int)

  /** A start that passed its first check, and one whose provider answered. */
  datatype Start = Asking(principal: Principal) | Stamped(principal: Principal, now: int, interval: int, expiresIn: int)

  /**
   `polls` holds the poll of each principal that has the credential lock. Bookkeeping: `used` are all handles given out,
   with their principal and first interval; `slowDowns` counts slow_down answers; `ended` is when the last poll of a handle
   was answered; `linked` lists the handles whose credentials were saved.
   */
  datatype World = World(
    entries: map<Handle, Entry>, nextStart: map<Principal, int>, starts: map<CallId, Start>, polls: map<Principal, Poll>,
    links: map<Principal, string>, clock: int,
    used: map<Handle, Origin>, slowDowns: map<Handle, nat>, ended: map<Handle, int>, linked: seq<Handle>)

  const INITIAL := World(map[], map[], map[], map[], map[], 0, map[], map[], map[], [])

  function Min(a: int, b: int): int { if a <= b then a else b }

  /** What cleanup leaves. */
  function Live(entries: map<Handle, Entry>, now: int): map<Handle, Entry> {
    map h | h in entries && now < entries[h].expiresAt :: entries[h]
  }

  function LiveStarts(nextStart: map<Principal, int>, now: int): map<Principal, int> {
    map p | p in nextStart && now < nextStart[p] :: nextStart[p]
  }

  /** finishPoll: the entry, if it still exists, is removed or has its interval and next poll time set. */
  function Finished(entries: map<Handle, Entry>, handle: Handle, remove: bool, slowDown: int, now: int): map<Handle, Entry> {
    if handle !in entries then entries
    else if remove then entries - {handle}
    else
      var interval := Min(entries[handle].interval + slowDown, MAX_INTERVAL);
      entries[handle := entries[handle].(interval := interval, nextPoll := now + interval)]
  }

  function DoStart(w: World, call: CallId, principal: Principal, now: int): World {
    if call in w.starts || now < w.clock then w
    else
      var cleaned := w.(entries := Live(w.entries, now), nextStart := LiveStarts(w.nextStart, now), clock := now);
      if (principal in cleaned.nextStart && now < cleaned.nextStart[principal]) || |cleaned.entries| >= MAX_ENTRIES then cleaned
      else cleaned.(nextStart := cleaned.nextStart[principal := now + START_INTERVAL], starts := w.starts[call := Asking(principal)])
  }

  /** The provider answered with an interval of 1 to 60 seconds and a lifetime of up to an hour, or failed. */
  function DoStamp(w: World, call: CallId, ok: bool, interval: nat, expiresIn: nat, now: int): World {
    if call !in w.starts || !w.starts[call].Asking? || now < w.clock || !(1 <= interval <= 60) || !(1 <= expiresIn <= 3600) then w
    else if !ok then w.(starts := w.starts - {call}, clock := now)
    else w.(starts := w.starts[call := Stamped(w.starts[call].principal, now, interval * SECOND, expiresIn * SECOND)], clock := now)
  }

  function Inserted(w: World, call: CallId, handle: Handle, s: Start): World
    requires s.Stamped?
  {
    w.(starts := w.starts - {call},
       entries := w.entries[handle := Entry(s.principal, s.now + s.expiresIn, s.interval, s.now + s.interval)],
       used := w.used[handle := Origin(s.principal, s.interval)], slowDowns := w.slowDowns[handle := 0])
  }

  function DoInsert(w: World, call: CallId, handle: Handle): World {
    if call !in w.starts || !w.starts[call].Stamped? || handle in w.used then w
    else if |w.entries| >= MAX_ENTRIES then w.(starts := w.starts - {call})
    else Inserted(w, call, handle, w.starts[call])
  }

  /** A poll takes the credential lock, then reads the clock. */
  function DoLock(w: World, principal: Principal, handle: Handle, now: int): World {
    if principal in w.polls || now < w.clock then w
    else w.(polls := w.polls[principal := Checking(handle, now)], clock := now)
  }

  predicate Due(w: World, principal: Principal, handle: Handle, now: int) {
    handle in w.entries && w.entries[handle].principal == principal && now < w.entries[handle].expiresAt && now >= w.entries[handle].nextPoll
  }

  predicate Expired(w: World, principal: Principal, handle: Handle, now: int) {
    handle in w.entries && w.entries[handle].principal == principal && now >= w.entries[handle].expiresAt
  }

  function DoCheck(w: World, principal: Principal): World {
    if principal !in w.polls || !w.polls[principal].Checking? then w
    else
      var q := w.polls[principal];
      if Due(w, principal, q.handle, q.now) then w.(polls := w.polls[principal := Upstream(q.handle)])
      else if Expired(w, principal, q.handle, q.now) then w.(polls := w.polls - {principal}, entries := w.entries - {q.handle})
      else w.(polls := w.polls - {principal})
  }

  function DoAnswer(w: World, principal: Principal, answer: Answer, now: int): World {
    if principal !in w.polls || !w.polls[principal].Upstream? || now < w.clock then w
    else
      var handle := w.polls[principal].handle;
      var slow := answer == Pending(true);
      w.(entries := Finished(w.entries, handle, !answer.Pending?, if slow then SLOW_DOWN else 0, now), clock := now,
         polls := if answer.Granted? then w.polls[principal := Saving(handle, answer.token)] else w.polls - {principal},
         ended := w.ended[handle := now],
         slowDowns := if slow && handle in w.slowDowns then w.slowDowns[handle := w.slowDowns[handle] + 1] else w.slowDowns)
  }

  function DoSave(w: World, principal: Principal, ok: bool): World {
    if principal !in w.polls || !w.polls[principal].Saving? then w
    else
      var q := w.polls[principal];
      var done := w.(polls := w.polls - {principal});
      if ok then done.(links := w.links[principal := q.token], linked := w.linked + [q.handle]) else done
  }

  function DoUnlink(w: World, principal: Principal): World { if principal in w.polls then w else w.(links := w.links - {principal}) }

  function DoClose(w: World): World { w.(entries := map[], nextStart := map[]) }

  datatype Step =
    | StartLink(call: CallId, principal: Principal, now: int)
    | StampLink(call: CallId, ok: bool, interval: nat, expiresIn: nat, now: int)
    | InsertLink(call: CallId, handle: Handle)
    | LockPoll(principal: Principal, handle: Handle, now: int)
    | CheckPoll(principal: Principal)
    | AnswerPoll(principal: Principal, answer: Answer, now: int)
    | SavePoll(principal: Principal, ok: bool)
    | Unlink(principal: Principal)
    | CloseBroker

  function Apply(w: World, step: Step): World {
    match step
    case StartLink(call, principal, now) => DoStart(w, call, principal, now)
    case StampLink(call, ok, interval, expiresIn, now) => DoStamp(w, call, ok, interval, expiresIn, now)
    case InsertLink(call, handle) => DoInsert(w, call, handle)
    case LockPoll(principal, handle, now) => DoLock(w, principal, handle, now)
    case CheckPoll(principal) => DoCheck(w, principal)
    case AnswerPoll(principal, answer, now) => DoAnswer(w, principal, answer, now)
    case SavePoll(principal, ok) => DoSave(w, principal, ok)
    case Unlink(principal) => DoUnlink(w, principal)
    case CloseBroker => DoClose(w)
  }

  function Run(steps: seq<Step>): World {
    if steps == [] then INITIAL else Apply(Run(steps[..|steps| - 1]), steps[|steps| - 1])
  }

  // ----- the invariant

  predicate StartOk(w: World, s: Start) { s.Stamped? ==> SECOND <= s.interval <= MAX_INTERVAL && s.now <= w.clock }

  predicate EntryOk(w: World, h: Handle) {
    && h in w.entries && h in w.used && h in w.slowDowns && h !in w.linked
    && SECOND <= w.used[h].interval <= MAX_INTERVAL && w.entries[h].principal == w.used[h].principal
    && w.entries[h].interval == Min(w.used[h].interval + w.slowDowns[h] * SLOW_DOWN, MAX_INTERVAL)
    && (h in w.ended ==> w.entries[h].nextPoll >= w.ended[h] + w.entries[h].interval)
  }

  predicate PollOk(w: World, p: Principal) {
    p in w.polls &&
    match w.polls[p]
    case Checking(_, now) => now <= w.clock
    case Upstream(h) => h in w.used && w.used[h].principal == p && h !in w.linked
    case Saving(h, _) => h in w.used && w.used[h].principal == p && h !in w.linked && h !in w.entries
  }

  predicate Distinct(s: seq<Handle>) { forall i, j :: 0 <= i < j < |s| ==> s[i] != s[j] }

  predicate Inv(w: World) {
    && |w.entries| <= MAX_ENTRIES && Distinct(w.linked)
    && (forall c :: c in w.starts ==> StartOk(w, w.starts[c]))
    && (forall h :: h in w.entries ==> EntryOk(w, h))
    && (forall p :: p in w.polls ==> PollOk(w, p))
    && (forall h :: h in w.linked ==> h in w.used)
    && (forall h :: h in w.ended ==> h in w.used)
  }

  // ----- every step keeps it

  lemma FewerEntries(a: map<Handle, Entry>, b: map<Handle, Entry>)
    requires a.Keys <= b.Keys
    ensures |a| <= |b|
  {
    assert b.Keys == a.Keys + (b.Keys - a.Keys);
    assert |a| == |a.Keys| && |b| == |b.Keys|;
  }

  /** Entries go, the clock advances, polls end. */
  lemma ShrinkKeeps(w: World, d: World)
    requires Inv(w) && d == w.(entries := d.entries, nextStart := d.nextStart, polls := d.polls, links := d.links, clock := d.clock)
    requires d.clock >= w.clock && d.entries.Keys <= w.entries.Keys && forall h :: h in d.entries ==> d.entries[h] == w.entries[h]
    requires d.polls.Keys <= w.polls.Keys && forall p :: p in d.polls ==> d.polls[p] == w.polls[p]
    ensures Inv(d)
  {
    FewerEntries(d.entries, w.entries);
    forall h | h in d.entries ensures EntryOk(d, h) { assert EntryOk(w, h); }
    forall p | p in d.polls ensures PollOk(d, p) { assert PollOk(w, p); }
    forall c | c in d.starts ensures StartOk(d, d.starts[c]) { assert StartOk(w, w.starts[c]); }
  }

  /** Only the starts, and the clock, move. */
  lemma StartsKeep(w: World, d: World)
    requires Inv(w) && d == w.(starts := d.starts, nextStart := d.nextStart, clock := d.clock) && d.clock >= w.clock
    requires forall c :: c in d.starts && (c !in w.starts || d.starts[c] != w.starts[c]) ==> StartOk(d, d.starts[c])
    ensures Inv(d)
  {
    forall h | h in d.entries ensures EntryOk(d, h) { assert EntryOk(w, h); }
    forall p | p in d.polls ensures PollOk(d, p) { assert PollOk(w, p); }
    forall c | c in d.starts ensures StartOk(d, d.starts[c]) { assert c in w.starts ==> StartOk(w, w.starts[c]); }
  }

  lemma CleanKeeps(w: World, now: int)
    requires Inv(w) && now >= w.clock
    ensures Inv(w.(entries := Live(w.entries, now), nextStart := LiveStarts(w.nextStart, now), clock := now))
  {
    ShrinkKeeps(w, w.(entries := Live(w.entries, now), nextStart := LiveStarts(w.nextStart, now), clock := now));
  }

  lemma StartKeeps(w: World, call: CallId, principal: Principal, now: int)
    requires Inv(w)
    ensures Inv(DoStart(w, call, principal, now))
  {
    if call !in w.starts && now >= w.clock {
      CleanKeeps(w, now);
      var cleaned := w.(entries := Live(w.entries, now), nextStart := LiveStarts(w.nextStart, now), clock := now);
      var d := DoStart(w, call, principal, now);
      if d != cleaned {
        assert d == cleaned.(nextStart := d.nextStart, starts := w.starts[call := Asking(principal)]);
        StartsKeep(cleaned, d);
      }
    }
  }

  lemma StampKeeps(w: World, call: CallId, ok: bool, interval: nat, expiresIn: nat, now: int)
    requires Inv(w)
    ensures Inv(DoStamp(w, call, ok, interval, expiresIn, now))
  {
    StartsKeep(w, DoStamp(w, call, ok, interval, expiresIn, now));
  }

  /** An entry that a step does not touch. */
  lemma EntryStays(w: World, d: World, h: Handle)
    requires EntryOk(w, h) && h in d.entries && d.entries[h] == w.entries[h] && h in d.used && d.used[h] == w.used[h]
    requires h in d.slowDowns && d.slowDowns[h] == w.slowDowns[h] && d.linked == w.linked
    requires h in d.ended ==> h in w.ended && d.ended[h] == w.ended[h]
    ensures EntryOk(d, h)
  {
  }

  lemma EntryIsNew(w: World, d: World, handle: Handle, s: Start)
    requires s.Stamped? && StartOk(w, s) && handle !in w.linked && handle !in w.ended && d.linked == w.linked && d.ended == w.ended
    requires handle in d.entries && d.entries[handle] == Entry(s.principal, s.now + s.expiresIn, s.interval, s.now + s.interval)
    requires handle in d.used && d.used[handle] == Origin(s.principal, s.interval) && handle in d.slowDowns && d.slowDowns[handle] == 0
    ensures EntryOk(d, handle)
  {
  }

  lemma OneMore(entries: map<Handle, Entry>, handle: Handle, e: Entry)
    requires |entries| < MAX_ENTRIES
    ensures |entries[handle := e]| <= MAX_ENTRIES
  {
    assert entries[handle := e].Keys == entries.Keys + {handle};
    assert |entries.Keys + {handle}| <= |entries.Keys| + 1;
    assert |entries[handle := e]| == |entries[handle := e].Keys| && |entries| == |entries.Keys|;
  }

  lemma InsertedEntries(w: World, d: World, handle: Handle, s: Start)
    requires Inv(w) && s.Stamped? && StartOk(w, s) && handle !in w.used && |w.entries| < MAX_ENTRIES
    requires d.entries == w.entries[handle := Entry(s.principal, s.now + s.expiresIn, s.interval, s.now + s.interval)]
    requires d.used == w.used[handle := Origin(s.principal, s.interval)] && d.slowDowns == w.slowDowns[handle := 0]
    requires d.linked == w.linked && d.ended == w.ended
    ensures |d.entries| <= MAX_ENTRIES && forall h :: h in d.entries ==> EntryOk(d, h)
  {
    OneMore(w.entries, handle, Entry(s.principal, s.now + s.expiresIn, s.interval, s.now + s.interval));
    EntryIsNew(w, d, handle, s);
    forall h | h in d.entries && h != handle ensures EntryOk(d, h) {
      assert EntryOk(w, h);
      EntryStays(w, d, h);
    }
  }

  lemma InsertedKeeps(w: World, call: CallId, handle: Handle, s: Start)
    requires Inv(w) && s.Stamped? && StartOk(w, s) && handle !in w.used && |w.entries| < MAX_ENTRIES
    ensures Inv(Inserted(w, call, handle, s))
  {
    var d := Inserted(w, call, handle, s);
    InsertedEntries(w, d, handle, s);
    InsertedPolls(w, d, call, handle);
  }

  lemma InsertedPolls(w: World, d: World, call: CallId, handle: Handle)
    requires Inv(w) && handle !in w.used && d.polls == w.polls && d.clock == w.clock && d.linked == w.linked && d.starts == w.starts - {call}
    requires forall h :: h in d.entries ==> h in w.entries || h == handle
    requires forall h :: h in w.used ==> h in d.used && d.used[h] == w.used[h]
    ensures (forall p :: p in d.polls ==> PollOk(d, p)) && forall c :: c in d.starts ==> StartOk(d, d.starts[c])
  {
    forall p | p in d.polls ensures PollOk(d, p) { assert PollOk(w, p); }
    forall c | c in d.starts ensures StartOk(d, d.starts[c]) { assert StartOk(w, w.starts[c]); }
  }

  lemma InsertKeeps(w: World, call: CallId, handle: Handle)
    requires Inv(w)
    ensures Inv(DoInsert(w, call, handle))
  {
    if call in w.starts && w.starts[call].Stamped? && handle !in w.used {
      assert StartOk(w, w.starts[call]);
      if |w.entries| < MAX_ENTRIES {
        InsertedKeeps(w, call, handle, w.starts[call]);
      } else {
        StartsKeep(w, w.(starts := w.starts - {call}));
      }
    }
  }

  lemma LockKeeps(w: World, principal: Principal, handle: Handle, now: int)
    requires Inv(w)
    ensures Inv(DoLock(w, principal, handle, now))
  {
    if principal !in w.polls && now >= w.clock {
      PollsKeep(w, w.(polls := w.polls[principal := Checking(handle, now)], clock := now), principal);
    }
  }

  /** One principal's poll goes on. */
  lemma PollsKeep(w: World, d: World, principal: Principal)
    requires Inv(w) && d == w.(polls := d.polls, clock := d.clock) && d.clock >= w.clock
    requires forall p :: p in d.polls && p != principal ==> p in w.polls && d.polls[p] == w.polls[p]
    requires principal in d.polls && PollOk(d, principal)
    ensures Inv(d)
  {
    forall h | h in d.entries ensures EntryOk(d, h) { assert EntryOk(w, h); }
    forall p | p in d.polls ensures PollOk(d, p) {
      if p != principal { assert PollOk(w, p); }
    }
    forall c | c in d.starts ensures StartOk(d, d.starts[c]) { assert StartOk(w, w.starts[c]); }
  }

  lemma AskKeeps(w: World, principal: Principal, handle: Handle)
    requires Inv(w) && principal in w.polls && handle in w.entries && w.entries[handle].principal == principal
    ensures Inv(w.(polls := w.polls[principal := Upstream(handle)]))
  {
    assert EntryOk(w, handle);
    PollsKeep(w, w.(polls := w.polls[principal := Upstream(handle)]), principal);
  }

  lemma DropKeeps(w: World, principal: Principal, handle: Handle)
    requires Inv(w)
    ensures Inv(w.(polls := w.polls - {principal}, entries := w.entries - {handle})) && Inv(w.(polls := w.polls - {principal}))
  {
    ShrinkKeeps(w, w.(polls := w.polls - {principal}, entries := w.entries - {handle}));
    ShrinkKeeps(w, w.(polls := w.polls - {principal}));
  }

  lemma CheckKeeps(w: World, principal: Principal)
    requires Inv(w)
    ensures Inv(DoCheck(w, principal))
  {
    if principal in w.polls && w.polls[principal].Checking? {
      var q := w.polls[principal];
      if Due(w, principal, q.handle, q.now) {
        AskKeeps(w, principal, q.handle);
      } else if Expired(w, principal, q.handle, q.now) {
        DropKeeps(w, principal, q.handle);
      } else {
        DropKeeps(w, principal, q.handle);
      }
    }
  }

  /** The interval after one more answer. */
  lemma IntervalAfter(first: int, slow: nat, more: bool)
    requires 0 <= first
    ensures Min(Min(first + slow * SLOW_DOWN, MAX_INTERVAL) + (if more then SLOW_DOWN else 0), MAX_INTERVAL) ==
            Min(first + (slow + if more then 1 else 0) * SLOW_DOWN, MAX_INTERVAL)
  {
  }

  lemma AnsweredEntry(w: World, d: World, principal: Principal, h: Handle, slow: bool, now: int)
    requires EntryOk(w, h) && d == w.(entries := Finished(w.entries, h, false, if slow then SLOW_DOWN else 0, now), clock := now,
                                      polls := d.polls, ended := w.ended[h := now],
                                      slowDowns := if slow then w.slowDowns[h := w.slowDowns[h] + 1] else w.slowDowns)
    ensures EntryOk(d, h)
  {
    IntervalAfter(w.used[h].interval, w.slowDowns[h], slow);
  }

  lemma OtherEntry(w: World, d: World, principal: Principal, answer: Answer, now: int, h: Handle)
    requires principal in w.polls && w.polls[principal].Upstream? && now >= w.clock && d == DoAnswer(w, principal, answer, now)
    requires EntryOk(w, h) && h in d.entries && h != w.polls[principal].handle
    ensures EntryOk(d, h)
  {
    var handle := w.polls[principal].handle;
    if handle !in w.entries {
      EntryStays(w, d, h);
    } else if answer.Pending? {
      EntryStays(w, d, h);
    } else {
      EntryStays(w, d, h);
    }
  }

  lemma OwnEntry(w: World, d: World, principal: Principal, answer: Answer, now: int)
    requires principal in w.polls && w.polls[principal].Upstream? && now >= w.clock && d == DoAnswer(w, principal, answer, now)
    requires EntryOk(w, w.polls[principal].handle) && w.polls[principal].handle in d.entries
    ensures EntryOk(d, w.polls[principal].handle)
  {
    var h := w.polls[principal].handle;
    if answer == Pending(true) {
      AnsweredEntry(w, d, principal, h, true, now);
    } else {
      AnsweredEntry(w, d, principal, h, false, now);
    }
  }

  lemma AnsweredEntries(w: World, d: World, principal: Principal, answer: Answer, now: int)
    requires Inv(w) && principal in w.polls && w.polls[principal].Upstream? && now >= w.clock && d == DoAnswer(w, principal, answer, now)
    ensures |d.entries| <= MAX_ENTRIES && forall h :: h in d.entries ==> EntryOk(d, h)
  {
    assert d.entries.Keys <= w.entries.Keys;
    FewerEntries(d.entries, w.entries);
    forall h | h in d.entries ensures EntryOk(d, h) {
      assert EntryOk(w, h);
      if h == w.polls[principal].handle { OwnEntry(w, d, principal, answer, now); } else { OtherEntry(w, d, principal, answer, now, h); }
    }
  }

  lemma AnsweredPolls(w: World, d: World, principal: Principal, answer: Answer, now: int)
    requires Inv(w) && principal in w.polls && w.polls[principal].Upstream? && now >= w.clock && d == DoAnswer(w, principal, answer, now)
    ensures forall p :: p in d.polls ==> PollOk(d, p)
    ensures w.polls[principal].handle in w.used
  {
    assert PollOk(w, principal);
    forall p | p in d.polls ensures PollOk(d, p) { assert PollOk(w, p); }
  }

  lemma AnswerKeeps(w: World, principal: Principal, answer: Answer, now: int)
    requires Inv(w)
    ensures Inv(DoAnswer(w, principal, answer, now))
  {
    if principal in w.polls && w.polls[principal].Upstream? && now >= w.clock {
      var d := DoAnswer(w, principal, answer, now);
      AnsweredEntries(w, d, principal, answer, now);
      AnsweredPolls(w, d, principal, answer, now);
      forall c | c in d.starts ensures StartOk(d, d.starts[c]) { assert StartOk(w, w.starts[c]); }
    }
  }

  lemma LinkOnce(w: World, principal: Principal, handle: Handle)
    requires Inv(w) && principal in w.polls && w.polls[principal].Saving? && w.polls[principal].handle == handle
    ensures Distinct(w.linked + [handle]) && handle in w.used
    ensures forall p :: p in w.polls && p != principal && !w.polls[p].Checking? ==> w.polls[p].handle != handle
  {
    assert PollOk(w, principal);
    forall p | p in w.polls && p != principal && !w.polls[p].Checking? ensures w.polls[p].handle != handle { assert PollOk(w, p); }
  }

  lemma SavedKeeps(w: World, d: World, principal: Principal, handle: Handle)
    requires Inv(w) && principal in w.polls && w.polls[principal].Saving? && w.polls[principal].handle == handle
    requires d == w.(polls := w.polls - {principal}, links := d.links, linked := w.linked + [handle])
    ensures Inv(d)
  {
    LinkOnce(w, principal, handle);
    assert PollOk(w, principal);
    forall h | h in d.entries ensures EntryOk(d, h) { assert EntryOk(w, h) && h != handle; }
    forall p | p in d.polls ensures PollOk(d, p) { assert PollOk(w, p); }
    forall c | c in d.starts ensures StartOk(d, d.starts[c]) { assert StartOk(w, w.starts[c]); }
  }

  lemma SaveKeeps(w: World, principal: Principal, ok: bool)
    requires Inv(w)
    ensures Inv(DoSave(w, principal, ok))
  {
    if principal in w.polls && w.polls[principal].Saving? {
      var q := w.polls[principal];
      if ok {
        SavedKeeps(w, w.(polls := w.polls - {principal}, links := w.links[principal := q.token], linked := w.linked + [q.handle]),
                   principal, q.handle);
      } else {
        ShrinkKeeps(w, w.(polls := w.polls - {principal}));
      }
    }
  }

  lemma UnlinkKeeps(w: World, principal: Principal)
    requires Inv(w)
    ensures Inv(DoUnlink(w, principal))
  {
    if principal !in w.polls { ShrinkKeeps(w, w.(links := w.links - {principal})); }
  }

  lemma CloseKeeps(w: World)
    requires Inv(w)
    ensures Inv(DoClose(w))
  {
    ShrinkKeeps(w, DoClose(w));
  }

  lemma StepKeeps(w: World, step: Step)
    requires Inv(w)
    ensures Inv(Apply(w, step))
  {
    match step
    case StartLink(call, principal, now) => StartKeeps(w, call, principal, now);
    case StampLink(call, ok, interval, expiresIn, now) => StampKeeps(w, call, ok, interval, expiresIn, now);
    case InsertLink(call, handle) => InsertKeeps(w, call, handle);
    case LockPoll(principal, handle, now) => LockKeeps(w, principal, handle, now);
    case CheckPoll(principal) => CheckKeeps(w, principal);
    case AnswerPoll(principal, answer, now) => AnswerKeeps(w, principal, answer, now);
    case SavePoll(principal, ok) => SaveKeeps(w, principal, ok);
    case Unlink(principal) => UnlinkKeeps(w, principal);
    case CloseBroker => CloseKeeps(w);
  }

  lemma {:induction false} RunKeeps(steps: seq<Step>)
    ensures Inv(Run(steps))
  {
    if steps != [] {
      RunKeeps(steps[..|steps| - 1]);
      StepKeeps(Run(steps[..|steps| - 1]), steps[|steps| - 1]);
    }
  }

  // ----- what follows

  /**
   At most 256 entries; the interval of a handle is its first one plus five seconds for each slow_down answer it got, up
   to a minute; and no handle is linked twice.
   */
  predicate Bounded(w: World, h: Handle) {
    && |w.entries| <= 256 && Distinct(w.linked)
    && (h in w.entries ==> h in w.used && h in w.slowDowns)
    && (h in w.entries ==> w.entries[h].interval == Min(w.used[h].interval + w.slowDowns[h] * (5 * SECOND), 60 * SECOND))
  }

  lemma InvIsBounded(w: World, h: Handle)
    requires Inv(w)
    ensures Bounded(w, h)
  {
    assert h in w.entries ==> EntryOk(w, h);
  }

  lemma BrokerIsBounded(steps: seq<Step>, h: Handle)
    ensures Bounded(Run(steps), h)
  {
    RunKeeps(steps);
    InvIsBounded(Run(steps), h);
  }

  /**
   A poll goes upstream only for the principal its handle was given to, and the time it read itself is at least the
   current interval after the previous poll of that handle was answered.
   */
  predicate Spaced(w: World, principal: Principal, h: Handle, now: int) {
    && h in w.entries && h in w.used && w.used[h].principal == principal && now <= w.clock
    && (h in w.ended ==> now >= w.ended[h] + w.entries[h].interval)
  }

  lemma DueIsSpaced(w: World, principal: Principal)
    requires Inv(w) && principal in w.polls && w.polls[principal].Checking?
    requires Due(w, principal, w.polls[principal].handle, w.polls[principal].now)
    ensures Spaced(w, principal, w.polls[principal].handle, w.polls[principal].now)
  {
    assert PollOk(w, principal) && EntryOk(w, w.polls[principal].handle);
  }

  lemma OnlyDueGoesUpstream(w: World, principal: Principal)
    requires principal in w.polls && w.polls[principal].Checking?
    ensures principal in DoCheck(w, principal).polls ==> Due(w, principal, w.polls[principal].handle, w.polls[principal].now)
  {
  }

  lemma PollsAreSpaced(steps: seq<Step>, principal: Principal)
    requires principal in Run(steps).polls && Run(steps).polls[principal].Checking?
    requires var d := DoCheck(Run(steps), principal); principal in d.polls && d.polls[principal].Upstream?
    ensures var q := Run(steps).polls[principal]; Spaced(Run(steps), principal, q.handle, q.now)
  {
    RunKeeps(steps);
    OnlyDueGoesUpstream(Run(steps), principal);
    DueIsSpaced(Run(steps), principal);
  }

  predicate Answers(w: World, step: Step, h: Handle) {
    step.AnswerPoll? && step.now >= w.clock && step.principal in w.polls && w.polls[step.principal] == Upstream(h)
  }

  predicate SameCounts(w: World, d: World) { d.ended == w.ended && d.slowDowns == w.slowDowns && d.used == w.used }

  lemma StartCounts(w: World, call: CallId, principal: Principal, now: int)
    ensures SameCounts(w, DoStart(w, call, principal, now))
  {
    if call in w.starts || now < w.clock {
    } else if principal in LiveStarts(w.nextStart, now) && now < LiveStarts(w.nextStart, now)[principal] {
    } else if |Live(w.entries, now)| >= MAX_ENTRIES {
    } else {
    }
  }

  lemma LockCounts(w: World, principal: Principal, handle: Handle, now: int)
    ensures SameCounts(w, DoLock(w, principal, handle, now))
  {
    if principal in w.polls || now < w.clock {} else {}
  }

  lemma CheckCounts(w: World, principal: Principal)
    ensures SameCounts(w, DoCheck(w, principal))
  {
    if principal !in w.polls || !w.polls[principal].Checking? {
    } else if Due(w, principal, w.polls[principal].handle, w.polls[principal].now) {
    } else if Expired(w, principal, w.polls[principal].handle, w.polls[principal].now) {
    } else {
    }
  }

  lemma SaveCounts(w: World, principal: Principal, ok: bool)
    ensures SameCounts(w, DoSave(w, principal, ok))
  {
    if principal !in w.polls || !w.polls[principal].Saving? {} else if ok {} else {}
  }

  lemma StampCounts(w: World, call: CallId, ok: bool, interval: nat, expiresIn: nat, now: int)
    ensures SameCounts(w, DoStamp(w, call, ok, interval, expiresIn, now))
  {
    if call !in w.starts || !w.starts[call].Asking? || now < w.clock || !(1 <= interval <= 60) || !(1 <= expiresIn <= 3600) {
    } else if ok {
    } else {
    }
  }

  lemma OtherStepsCountNothing(w: World, step: Step)
    requires !step.AnswerPoll? && !step.InsertLink?
    ensures SameCounts(w, Apply(w, step))
  {
    match step
    case StartLink(call, principal, now) => StartCounts(w, call, principal, now);
    case LockPoll(principal, handle, now) => LockCounts(w, principal, handle, now);
    case CheckPoll(principal) => CheckCounts(w, principal);
    case SavePoll(principal, ok) => SaveCounts(w, principal, ok);
    case StampLink(call, ok, interval, expiresIn, now) => StampCounts(w, call, ok, interval, expiresIn, now);
    case Unlink(principal) => assert SameCounts(w, DoUnlink(w, principal));
    case CloseBroker => assert SameCounts(w, DoClose(w));
  }

  /** The bookkeeping counts what happens: a poll's answer is timed, a slow_down is counted, and nothing else is. */
  lemma AnswersAreCounted(w: World, step: Step, h: Handle)
    requires h in w.used && h in w.slowDowns
    ensures var d := Apply(w, step);
            && (Answers(w, step, h) ==> h in d.ended && d.ended[h] == step.now)
            && (!Answers(w, step, h) ==> (h in d.ended <==> h in w.ended) && (h in w.ended ==> d.ended[h] == w.ended[h]))
            && h in d.used && d.used[h] == w.used[h] && h in d.slowDowns
            && d.slowDowns[h] == w.slowDowns[h] + (if Answers(w, step, h) && step.answer == Pending(true) then 1 else 0)
  {
    if step.AnswerPoll? {
      if step.principal in w.polls && w.polls[step.principal].Upstream? && step.now >= w.clock {}
    } else if step.InsertLink? {
      if step.call in w.starts && w.starts[step.call].Stamped? && step.handle !in w.used {}
    } else {
      OtherStepsCountNothing(w, step);
    }
  }
}
