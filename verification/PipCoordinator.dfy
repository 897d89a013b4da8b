/**
 * The PiP session coordinator (lcode-cua/pip-session-coordinator.js). Its operations are serialized by
 * a promise tail, so each method below is one operation: it works on a copy of the state, reconciles the
 * copy with the presenter and only then commits it.
 */
module PipCoordinator {
  import opened Common
  import opened PipState
  import opened PipInvariants

  /******* Loops over the copied state *******/

  method PurgeExpiredPending(state: State, now: int) returns (next: State)
    ensures next == PurgeExpired(state, now)
  {
    next := state;
    var ids := state.pendingCaptures.Keys;
    while ids != {}
      invariant ids <= state.pendingCaptures.Keys
      invariant next == state.(pendingCaptures := next.pendingCaptures)
      invariant forall id :: id in next.pendingCaptures <==>
        id in state.pendingCaptures && (id in ids || state.pendingCaptures[id].expiresAt > now)
      invariant forall id :: id in next.pendingCaptures ==> next.pendingCaptures[id] == state.pendingCaptures[id]
      decreases ids
    {
      var id :| id in ids;
      if state.pendingCaptures[id].expiresAt <= now {
        next := next.(pendingCaptures := next.pendingCaptures - {id});
      }
      ids := ids - {id};
    }
    assert next.pendingCaptures == PurgeExpired(state, now).pendingCaptures;
  }

  method RetainedCaptureBytes(state: State) returns (total: nat)
    ensures total == RetainedBytes(state)
  {
    hide Bytes;
    total := 0;
    var remaining := state.sessions.Keys + state.pendingCaptures.Keys;
    while remaining != {}
      invariant remaining <= state.sessions.Keys + state.pendingCaptures.Keys
      invariant total + SumWeights(state, remaining) == RetainedBytes(state)
      decreases remaining
    {
      var id :| id in remaining;
      SumWithout(state, remaining, id);
      if id in state.sessions {
        total := total + Bytes(state.sessions[id].capture);
      }
      if id in state.pendingCaptures {
        total := total + Bytes(Some(state.pendingCaptures[id].capture));
      }
      remaining := remaining - {id};
    }
  }

  method RememberId(ids: set<Id>, order: seq<Id>, id: Option<Id>, maximum: nat)
    returns (newIds: set<Id>, newOrder: seq<Id>)
    ensures (newIds, newOrder) == AddBoundedId(ids, order, id, maximum)
  {
    newIds, newOrder := ids, order;
    if id.None? || id.value in ids {
      return;
    }
    newIds := newIds + {id.value};
    newOrder := newOrder + [id.value];
    ghost var added := newOrder;
    ghost var dropped: nat := 0;
    while |newOrder| > maximum
      invariant dropped <= |added| && newOrder == added[dropped..]
      invariant dropped == 0 || |newOrder| >= maximum
      invariant newIds == ids + {id.value} - Elements(added[..dropped])
    {
      var removed := newOrder[0];
      newOrder := newOrder[1..];
      newIds := newIds - {removed};
      assert added[..dropped + 1] == added[..dropped] + [removed];
      dropped := dropped + 1;
    }
  }

  method EvictIdle(state: State) returns (r: Option<State>)
    requires Stamped(state)
    ensures r == EvictIdleSession(state)
  {
    var candidate: Option<Id> := None;
    var ids := state.sessions.Keys;
    while ids != {}
      invariant ids <= state.sessions.Keys
      invariant candidate.None? ==> forall id :: Idle(state, id) ==> id in ids
      invariant candidate.Some? ==> Idle(state, candidate.value)
      invariant candidate.Some? ==> forall id :: Idle(state, id) && id !in ids ==>
        state.sessions[candidate.value].touchedAt <= state.sessions[id].touchedAt
      decreases ids
    {
      var id :| id in ids;
      var session := state.sessions[id];
      if session.turnId.None? {
        if candidate.None? || session.touchedAt < state.sessions[candidate.value].touchedAt {
          candidate := Some(id);
        }
      }
      ids := ids - {id};
    }
    EvictionIsIdle(state);
    if candidate.None? {
      assert forall id :: !OldestIdle(state, id);
      return None;
    }
    assert OldestIdle(state, candidate.value);
    r := Some(state.(
      sessions := state.sessions - {candidate.value},
      pendingCaptures := state.pendingCaptures - {candidate.value}));
  }

  method FindSession(state: State, id: Id) returns (r: Option<State>)
    requires Stamped(state)
    ensures r == GetSession(state, id)
  {
    if id in state.sessions {
      return Some(state);
    }
    var next := state;
    if |next.sessions| >= MAX_SESSIONS {
      var evicted := EvictIdle(next);
      if evicted.None? {
        return None;
      }
      next := evicted.value;
    }
    next := next.(clock := next.clock + 1);
    next := next.(sessions := next.sessions[id := Session(None, None, None, {}, [], next.clock)]);
    r := Some(next);
  }

  lemma OldestPendingUnique(s: State, a: Id)
    requires Stamped(s) && OldestPending(s, a) && |s.pendingCaptures| > MAX_PENDING_CAPTURES
    ensures TrimPending(s) == TrimPending(s.(pendingCaptures := s.pendingCaptures - {a}))
    ensures Stamped(s.(pendingCaptures := s.pendingCaptures - {a}))
    ensures |s.pendingCaptures - {a}| < |s.pendingCaptures|
  {
    assert forall b :: OldestPending(s, b) ==> b == a;
    RemoveKeySize(s.pendingCaptures, a);
  }

  lemma StoringStamped(s: State, c: Capture, expiresAt: int)
    requires Stamped(s)
    ensures Stamped(WithPending(s, c, expiresAt))
  {
  }

  method StorePending(state: State, capture: Capture, expiresAt: int) returns (next: State)
    requires Stamped(state)
    ensures next == TrimPending(WithPending(state, capture, expiresAt))
  {
    hide TrimPending, Stamped, OldestPending;
    StoringStamped(state, capture, expiresAt);
    next := state.(clock := state.clock + 1);
    next := next.(pendingCaptures :=
      next.pendingCaptures[capture.sessionId := Pending(capture, expiresAt, next.clock)]);
    ghost var whole := next;
    while |next.pendingCaptures| > MAX_PENDING_CAPTURES
      invariant Stamped(next) && TrimPending(next) == TrimPending(whole)
      decreases |next.pendingCaptures|
    {
      var oldest := FindOldestPending(next);
      OldestPendingUnique(next, oldest);
      next := next.(pendingCaptures := next.pendingCaptures - {oldest});
    }
    SmallIsTrimmed(next);
  }

  lemma SmallIsTrimmed(s: State)
    requires |s.pendingCaptures| <= MAX_PENDING_CAPTURES
    ensures TrimPending(s) == s
  {
  }

  method FindOldestPending(state: State) returns (oldest: Id)
    requires |state.pendingCaptures| > 0
    ensures OldestPending(state, oldest)
  {
    var ids := state.pendingCaptures.Keys;
    oldest :| oldest in ids;
    ids := ids - {oldest};
    while ids != {}
      invariant ids <= state.pendingCaptures.Keys && oldest in state.pendingCaptures
      invariant forall id :: id in state.pendingCaptures && id !in ids ==>
        state.pendingCaptures[oldest].insertedAt <= state.pendingCaptures[id].insertedAt
      decreases ids
    {
      var id :| id in ids;
      if state.pendingCaptures[id].insertedAt < state.pendingCaptures[oldest].insertedAt {
        oldest := id;
      }
      ids := ids - {id};
    }
  }

  /******* Mutations of the copied state *******/

  method MutateByLifecycle(state: State, event: Lifecycle) returns (m: Mutation)
    requires Stamped(state)
    ensures m == MutateLifecycle(state, event)
  {
    hide AddBoundedId;
    var id := event.sessionId;
    var found := FindSession(state, id);
    if found.None? {
      return Mutation(false, state, NotApplied(Capacity));
    }
    FoundHasSession(state, id);
    var next := found.value;
    var session := next.sessions[id];
    if event.eventId.Some? && event.eventId.value in session.eventIds {
      return Mutation(false, next, NotApplied(DuplicateEvent));
    }
    if event.sequenceNumber.Some? && session.lastSequence.Some?
      && event.sequenceNumber.value <= session.lastSequence.value {
      return Mutation(false, next, NotApplied(StaleSequence));
    }
    if event.sequenceNumber.Some? {
      session := session.(lastSequence := event.sequenceNumber);
    }
    var ids, order :=
      RememberId(session.eventIds, session.eventIdOrder, event.eventId, MAX_EVENT_IDS_PER_SESSION);
    next := next.(clock := next.clock + 1);
    session := session.(eventIds := ids, eventIdOrder := order, touchedAt := next.clock);
    if event.kind == TurnStarted {
      var existingCapture := if session.turnId == event.turnId then session.capture else None;
      session := session.(turnId := event.turnId, capture := existingCapture);
      if id in next.pendingCaptures && Some(next.pendingCaptures[id].capture.turnId) == event.turnId {
        session := session.(capture := Some(next.pendingCaptures[id].capture));
        next := next.(pendingCaptures := next.pendingCaptures - {id});
      }
      return Mutation(true, next.(sessions := next.sessions[id := session]), Applied);
    }
    if event.kind == SessionClosed {
      session := session.(turnId := None, capture := None);
      next := next.(sessions := next.sessions[id := session], pendingCaptures := next.pendingCaptures - {id});
      return Mutation(true, next, Applied);
    }
    if session.turnId != event.turnId {
      return Mutation(true, next.(sessions := next.sessions[id := session]), NotApplied(TurnMismatch));
    }
    if event.kind == TurnEnded {
      session := session.(turnId := None, capture := None);
      next := next.(pendingCaptures := next.pendingCaptures - {id});
    }
    return Mutation(true, next.(sessions := next.sessions[id := session]), Applied);
  }

  lemma FoundHasSession(s: State, id: Id)
    ensures GetSession(s, id).Some? ==> id in GetSession(s, id).value.sessions
  {
  }

  /** The pending captures that no restored session has taken over. */
  ghost function Unclaimed(s: State, sessions: map<Id, Session>): map<Id, Pending> {
    map id | id in s.pendingCaptures && !(id in sessions
      && sessions[id].turnId == Some(s.pendingCaptures[id].capture.turnId)) :: s.pendingCaptures[id]
  }

  lemma UnclaimedStep(s: State, sessions: map<Id, Session>, turn: Turn, session: Session)
    requires turn.sessionId !in sessions && session.turnId == Some(turn.turnId)
    ensures Unclaimed(s, sessions[turn.sessionId := session]) ==
      if ClaimedByTurn(s, turn) then Unclaimed(s, sessions) - {turn.sessionId} else Unclaimed(s, sessions)
  {
  }

  method RestoreTurns(state: State, turns: seq<Turn>) returns (next: State, replacement: map<Id, Session>)
    requires forall i, j :: 0 <= i < j < |turns| ==> turns[i].sessionId != turns[j].sessionId
    ensures replacement == RestoredSessions(state, turns, |turns|)
    ensures next == state.(pendingCaptures := Unclaimed(state, replacement), clock := state.clock + |turns|)
  {
    hide RestoredSession, Unclaimed, ClaimedByTurn;
    next := state;
    replacement := map[];
    NothingRestored(state);
    for n := 0 to |turns|
      invariant replacement == RestoredSessions(state, turns, n)
      invariant next == state.(pendingCaptures := Unclaimed(state, replacement), clock := state.clock + n)
    {
      var turn := turns[n];
      if turn.sessionId in replacement {
        var i := RestoredFrom(state, turns, n, turn.sessionId);
        assert false;
      }
      RestoredTurn(state, turn, next.clock + 1);
      UnclaimedAt(state, replacement, turn.sessionId);
      var session;
      next, session := RestoreTurn(state, next, turn);
      UnclaimedStep(state, replacement, turn, session);
      replacement := replacement[turn.sessionId := session];
    }
  }

  lemma NothingRestored(s: State)
    ensures Unclaimed(s, map[]) == s.pendingCaptures
  {
  }

  lemma UnclaimedAt(s: State, sessions: map<Id, Session>, id: Id)
    requires id !in sessions
    ensures id in Unclaimed(s, sessions) <==> id in s.pendingCaptures
    ensures id in s.pendingCaptures ==> Unclaimed(s, sessions)[id] == s.pendingCaptures[id]
  {
  }

  lemma RestoredTurn(s: State, t: Turn, touchedAt: nat)
    ensures RestoredSession(s, t, touchedAt).turnId == Some(t.turnId)
  {
  }

  /** One turn: its session takes over a matching pending capture, or keeps the one it had for the same turn. */
  method RestoreTurn(state: State, before: State, turn: Turn) returns (next: State, session: Session)
    requires before.sessions == state.sessions
    requires turn.sessionId in before.pendingCaptures <==> turn.sessionId in state.pendingCaptures
    requires turn.sessionId in before.pendingCaptures ==>
      before.pendingCaptures[turn.sessionId] == state.pendingCaptures[turn.sessionId]
    ensures session == RestoredSession(state, turn, before.clock + 1)
    ensures next == before.(clock := before.clock + 1, pendingCaptures :=
      if ClaimedByTurn(state, turn) then before.pendingCaptures - {turn.sessionId} else before.pendingCaptures)
  {
    var id := turn.sessionId;
    next := before;
    var capture := None;
    if id in next.pendingCaptures && next.pendingCaptures[id].capture.turnId == turn.turnId {
      capture := Some(next.pendingCaptures[id].capture);
      next := next.(pendingCaptures := next.pendingCaptures - {id});
    } else if id in next.sessions && next.sessions[id].turnId == Some(turn.turnId) {
      capture := next.sessions[id].capture;
    }
    next := next.(clock := next.clock + 1);
    var ids := if turn.eventId.Some? then {turn.eventId.value} else {};
    var order := if turn.eventId.Some? then [turn.eventId.value] else [];
    SingleElements(turn.eventId);
    session := Session(Some(turn.turnId), turn.sequenceNumber, capture, ids, order, next.clock);
  }

  method DropUnnamed(pending: map<Id, Pending>, replacement: map<Id, Session>) returns (kept: map<Id, Pending>)
    ensures kept == map id | id in pending && id in replacement :: pending[id]
  {
    kept := pending;
    var ids := kept.Keys;
    while ids != {}
      invariant ids <= pending.Keys
      invariant forall id :: id in kept <==> id in pending && (id in ids || id in replacement)
      invariant forall id :: id in kept ==> kept[id] == pending[id]
      decreases ids
    {
      var id :| id in ids;
      if id !in replacement {
        kept := kept - {id};
      }
      ids := ids - {id};
    }
  }

  method MutateBySnapshot(state: State, snapshot: Snapshot) returns (m: Mutation)
    requires ValidSnapshot(snapshot)
    ensures m == MutateSnapshot(state, snapshot)
  {
    hide RestoredSessions;
    var next, replacement := RestoreTurns(state, snapshot.turns);
    var focusId := if snapshot.focus.Some? then snapshot.focus.value.eventId else None;
    next := next.(
      sessions := replacement,
      focus := snapshot.focus,
      focusEventIds := if focusId.Some? then {focusId.value} else {},
      focusEventIdOrder := if focusId.Some? then [focusId.value] else []);
    var kept := DropUnnamed(next.pendingCaptures, replacement);
    SingleElements(focusId);
    assert kept == MutateSnapshot(state, snapshot).next.pendingCaptures;
    m := Mutation(true, next.(pendingCaptures := kept), Applied);
  }

  lemma SingleElements(id: Option<Id>)
    ensures Elements(Single(id)) == if id.Some? then {id.value} else {}
  {
  }

  method MutateByCapture(state: State, capture: Capture, now: int, cfg: Config) returns (m: Mutation)
    requires Stamped(state)
    ensures m == MutateCapture(state, capture, now, cfg)
  {
    hide TrimPending, RetainedBytes, WithPending;
    var id := capture.sessionId;
    if id !in state.sessions || state.sessions[id].turnId.None? {
      var stored := StorePending(state, capture, now + cfg.pendingCaptureTtlMs);
      var retained := RetainedCaptureBytes(stored);
      if retained > cfg.maxRetainedCaptureBytes {
        return Mutation(false, state, NotAccepted(CaptureCapacity));
      }
      return Mutation(true, stored, Accepted(true));
    }
    var session := state.sessions[id];
    if session.turnId != Some(capture.turnId) {
      return Mutation(false, state, NotAccepted(TurnMismatch));
    }
    session := session.(capture := Some(capture));
    var next := state.(sessions := state.sessions[id := session]);
    var retained := RetainedCaptureBytes(next);
    if retained > cfg.maxRetainedCaptureBytes {
      return Mutation(false, state, NotAccepted(CaptureCapacity));
    }
    next := next.(clock := next.clock + 1);
    session := session.(touchedAt := next.clock);
    next := next.(sessions := next.sessions[id := session], pendingCaptures := next.pendingCaptures - {id});
    m := Mutation(true, next, Accepted(false));
  }

  /******* The coordinator *******/

  class PipSessionCoordinator {
    const cfg: Config
    var state: State
    var disposed: bool
    /** What the last successful presenter command put on screen. */
    ghost var shown: Option<FrameKey>

    ghost predicate Valid()
      reads this
    {
      !disposed ==> shown == state.visible && Inv(state, cfg)
    }

    constructor (ttl: Option<nat>, budget: Option<nat>)
      ensures Valid() && !disposed && state == EMPTY_STATE
      ensures cfg.pendingCaptureTtlMs > 0 && 0 < cfg.maxRetainedCaptureBytes <= MAX_RETAINED_CAPTURE_BYTES
      ensures ttl.Some? && ttl.value > 0 ==> cfg.pendingCaptureTtlMs == ttl.value
      ensures budget.Some? && 0 < budget.value <= MAX_RETAINED_CAPTURE_BYTES ==>
        cfg.maxRetainedCaptureBytes == budget.value
    {
      cfg := Config(
        if ttl.Some? && ttl.value > 0 then ttl.value else DEFAULT_PENDING_CAPTURE_TTL_MS,
        if budget.Some? && 0 < budget.value < MAX_RETAINED_CAPTURE_BYTES then budget.value
        else MAX_RETAINED_CAPTURE_BYTES);
      state, disposed, shown := EMPTY_STATE, false, None;
      new;
      InvInitially(cfg);
    }

    /** Shows or hides what `next` wants, unless it is on screen already. */
    method Reconcile(next: State, presenterOk: bool) returns (r: Option<State>)
      requires shown == state.visible
      modifies this`shown
      ensures r.None? <==> DesiredKey(next) != state.visible && !presenterOk
      ensures r.Some? ==> r.value == next.(visible := DesiredKey(next))
      ensures shown == if r.Some? then DesiredKey(next) else old(shown)
    {
      var desired := DesiredPresentation(next);
      if desired.None? {
        if state.visible.Some? {
          if !presenterOk {
            return None;
          }
          shown := None;
        }
        return Some(next.(visible := None));
      }
      if state.visible == KeyOf(desired) {
        return Some(next.(visible := state.visible));
      }
      if !presenterOk {
        return None;
      }
      shown := KeyOf(desired);
      return Some(next.(visible := KeyOf(desired)));
    }

    /** Copy, mutate, reconcile, commit. */
    method Commit(op: Operation, now: int, presenterOk: bool) returns (outcome: Outcome)
      requires Valid() && ValidOperation(op)
      modifies this`state, this`shown
      ensures Valid()
      ensures old(disposed) ==> outcome == Disposed && state == old(state)
      ensures !old(disposed) ==> (state, outcome) == Step(old(state), op, now, presenterOk, cfg)
    {
      hide Mutate, Sound, Stamped, PurgeExpired, ValidOperation;
      if disposed {
        return Disposed;
      }
      PurgeKeeps(state, now, cfg);
      InvStep(state, op, now, presenterOk, cfg);
      var next := PurgeExpiredPending(state, now);
      assert Stamped(next) by {
        SoundIsStamped(next, cfg);
      }
      var m := MutateBy(next, op, now);
      if !m.commit {
        return m.outcome;
      }
      var committed := Reconcile(m.next, presenterOk);
      if committed.None? {
        return PresenterFailed;
      }
      state := committed.value;
      outcome := m.outcome;
    }

    method MutateBy(next: State, op: Operation, now: int) returns (m: Mutation)
      requires Stamped(next) && ValidOperation(op)
      ensures m == Mutate(next, op, now, cfg)
    {
      hide MutateSnapshot, MutateCapture, MutateLifecycle, MutateFocus;
      match op {
        case ApplySnapshot(snapshot) => m := MutateBySnapshot(next, snapshot);
        case ApplyEvent(LifecycleEvent(e)) => m := MutateByLifecycle(next, e);
        case ApplyEvent(FocusChanged(f)) => m := MutateByFocus(next, f);
        case BindCapture(c) => m := MutateByCapture(next, c, now, cfg);
      }
    }

    method ApplySnapshotInput(snapshot: Snapshot, now: int, presenterOk: bool) returns (outcome: Outcome)
      requires Valid()
      modifies this`state, this`shown
      ensures Valid()
      ensures !ValidSnapshot(snapshot) ==> outcome == InvalidRequest && state == old(state)
      ensures ValidSnapshot(snapshot) && !old(disposed) ==>
        (state, outcome) == Step(old(state), ApplySnapshot(snapshot), now, presenterOk, cfg)
    {
      hide Step, Inv;
      if !ValidSnapshot(snapshot) {
        return InvalidRequest;
      }
      outcome := Commit(ApplySnapshot(snapshot), now, presenterOk);
    }

    method ApplyEventInput(event: Event, now: int, presenterOk: bool) returns (outcome: Outcome)
      requires Valid()
      modifies this`state, this`shown
      ensures Valid()
      ensures !ValidEvent(event) ==> outcome == InvalidRequest && state == old(state)
      ensures ValidEvent(event) && !old(disposed) ==>
        (state, outcome) == Step(old(state), ApplyEvent(event), now, presenterOk, cfg)
    {
      hide Step, Inv;
      if !ValidEvent(event) {
        return InvalidRequest;
      }
      outcome := Commit(ApplyEvent(event), now, presenterOk);
    }

    method BindCaptureInput(capture: Capture, now: int, presenterOk: bool) returns (outcome: Outcome)
      requires Valid()
      modifies this`state, this`shown
      ensures Valid()
      ensures !ValidCapture(capture) ==> outcome == NotAccepted(InvalidCapture) && state == old(state)
      ensures ValidCapture(capture) && !old(disposed) ==>
        (state, outcome) == Step(old(state), BindCapture(capture), now, presenterOk, cfg)
    {
      hide Step, Inv;
      if !ValidCapture(capture) {
        return NotAccepted(InvalidCapture);
      }
      outcome := Commit(BindCapture(capture), now, presenterOk);
    }

    /**
     * Disposing hides the picture, disposes of the presenter and forgets everything. It fails when either
     * presenter call fails; only a presenter that cannot be disposed of leaves the stores as they are.
     */
    method Dispose(hideOk: bool, disposeOk: bool) returns (ok: bool)
      requires Valid()
      modifies this
      ensures Valid() && disposed
      ensures old(disposed) ==> ok && state == old(state) && shown == old(shown)
      ensures !old(disposed) ==> (ok <==> disposeOk && (hideOk || old(state).visible.None?))
      ensures !old(disposed) ==> shown == if hideOk then None else old(shown)
      ensures !old(disposed) ==> state == if disposeOk
        then old(state).(sessions := map[], pendingCaptures := map[], visible := None, focus := None)
        else old(state)
    {
      if disposed {
        return true;
      }
      disposed := true;
      ok := true;
      if state.visible.Some? {
        if hideOk {
          shown := None;
        } else {
          ok := false;
        }
      }
      if !disposeOk {
        return false;
      }
      state := state.(sessions := map[], pendingCaptures := map[], visible := None, focus := None);
    }
  }

  lemma SoundIsStamped(s: State, cfg: Config)
    requires Sound(s, cfg)
    ensures Stamped(s)
  {
  }

  method MutateByFocus(state: State, focus: Focus) returns (m: Mutation)
    ensures m == MutateFocus(state, focus)
  {
    hide AddBoundedId;
    if focus.eventId.Some? && focus.eventId.value in state.focusEventIds {
      return Mutation(false, state, NotApplied(DuplicateEvent));
    }
    if state.focus.Some? && focus.revision <= state.focus.value.revision {
      return Mutation(false, state, NotApplied(StaleRevision));
    }
    var next := state.(focus := Some(focus));
    var ids, order :=
      RememberId(next.focusEventIds, next.focusEventIdOrder, focus.eventId, MAX_FOCUS_EVENT_IDS);
    m := Mutation(true, next.(focusEventIds := ids, focusEventIdOrder := order), Applied);
  }
}
