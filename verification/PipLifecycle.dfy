/**
 * What each operation of the PiP session coordinator means to its client: which events are accepted, which
 * of them open and end turns, and what is on the screen in between.
 */
module PipLifecycle {
  import opened Common
  import opened PipState
  import opened PipInvariants

  function OpenTurn(s: State, id: Id): Option<Id> {
    if id in s.sessions then s.sessions[id].turnId else None
  }

  function CaptureOf(s: State, id: Id): Option<Capture> {
    if id in s.sessions then s.sessions[id].capture else None
  }

  function LastSequence(s: State, id: Id): Option<nat> {
    if id in s.sessions then s.sessions[id].lastSequence else None
  }

  /** A pending capture that has not expired. */
  predicate Alive(s: State, id: Id, now: int) {
    id in s.pendingCaptures && now < s.pendingCaptures[id].expiresAt
  }

  /******* Which lifecycle events are accepted *******/

  ghost predicate HasRoom(s: State, id: Id) {
    id in s.sessions || |s.sessions| < MAX_SESSIONS || exists other :: other in s.sessions && OpenTurn(s, other).None?
  }

  predicate Known(s: State, e: Lifecycle) {
    e.sessionId in s.sessions && e.eventId.Some? && e.eventId.value in s.sessions[e.sessionId].eventIds
  }

  predicate Stale(s: State, e: Lifecycle) {
    && e.sequenceNumber.Some? && LastSequence(s, e.sessionId).Some?
    && e.sequenceNumber.value <= LastSequence(s, e.sessionId).value
  }

  predicate OfOtherTurn(s: State, e: Lifecycle) {
    (e.kind.TurnEnded? || e.kind.ToolActivity?) && OpenTurn(s, e.sessionId) != e.turnId
  }

  /** Exactly what a valid lifecycle event is answered, from its own fields and those of its session. */
  lemma LifecycleAnswer(s: State, e: Lifecycle, now: int, cfg: Config)
    requires Inv(s, cfg) && ValidLifecycle(e)
    ensures Step(s, ApplyEvent(LifecycleEvent(e)), now, true, cfg).1 ==
      if !HasRoom(s, e.sessionId) then NotApplied(Capacity)
      else if Known(s, e) then NotApplied(DuplicateEvent)
      else if Stale(s, e) then NotApplied(StaleSequence)
      else if OfOtherTurn(s, e) then NotApplied(TurnMismatch)
      else Applied
  {
    hide DesiredKey, AddBoundedId, Sound, GetSession, OthersStay, PendingStay;
    var p := PurgeExpired(s, now);
    PurgeKeeps(s, now, cfg);
    SoundIsStamped(p, cfg);
    FoundSession(p, e.sessionId);
  }

  lemma SoundIsStamped(s: State, cfg: Config)
    requires Sound(s, cfg)
    ensures Stamped(s) && |s.sessions| <= MAX_SESSIONS
  {
  }

  /** Sessions other than `id` stay as they are; one idle session may have made room for `id`. */
  ghost predicate OthersStay(s: State, t: State, id: Id) {
    && (forall k :: k in t.sessions && k != id ==> k in s.sessions && t.sessions[k] == s.sessions[k])
    && (forall k :: k in s.sessions && k !in t.sessions ==>
          && id !in s.sessions && |s.sessions| == MAX_SESSIONS && OpenTurn(s, k).None?
          && forall other :: other in s.sessions && OpenTurn(s, other).None? ==>
               s.sessions[k].touchedAt <= s.sessions[other].touchedAt)
    && (id in s.sessions || |s.sessions| < MAX_SESSIONS ==> s.sessions.Keys <= t.sessions.Keys)
  }

  /** Pending captures, other than that of `id`, that are alive and not of a session that made room. */
  ghost predicate OtherCapturesStay(s: State, t: State, id: Id, now: int) {
    forall k :: k != id ==>
      && (k in t.pendingCaptures <==> Alive(s, k, now) && (k in s.sessions ==> k in t.sessions))
      && (k in t.pendingCaptures ==> t.pendingCaptures[k] == s.pendingCaptures[k])
  }

  ghost predicate PendingStay(s: State, t: State) {
    forall k :: k in t.pendingCaptures <==> k in s.pendingCaptures && (k in s.sessions ==> k in t.sessions)
  }

  /** `g` is `s` with a session `id`, made and made room for where there was none. */
  ghost predicate Found(s: State, g: State, id: Id) {
    && id in g.sessions && OthersStay(s, g, id)
    && g.sessions[id] == (if id in s.sessions then s.sessions[id] else Session(None, None, None, {}, [], g.clock))
    && g == s.(sessions := g.sessions, pendingCaptures := g.pendingCaptures, clock := g.clock)
    && PendingStay(s, g)
    && forall k :: k in g.pendingCaptures ==> g.pendingCaptures[k] == s.pendingCaptures[k]
  }

  lemma FoundSession(s: State, id: Id)
    requires Stamped(s) && |s.sessions| <= MAX_SESSIONS
    ensures GetSession(s, id).Some? <==> HasRoom(s, id)
    ensures GetSession(s, id).Some? ==> Found(s, GetSession(s, id).value, id)
  {
    EvictionIsIdle(s);
    if id !in s.sessions && |s.sessions| == MAX_SESSIONS {
      if other :| other in s.sessions && OpenTurn(s, other).None? {
        assert Idle(s, other);
        var idle :| OldestIdle(s, idle) && EvictIdleSession(s).value == Without(s, idle);
        OldestMakesRoom(s, id, idle);
      }
    }
  }

  lemma OldestMakesRoom(s: State, id: Id, idle: Id)
    requires OldestIdle(s, idle) && id !in s.sessions && |s.sessions| == MAX_SESSIONS
    ensures OthersStay(s, WithNewSession(Without(s, idle), id), id)
    ensures PendingStay(s, WithNewSession(Without(s, idle), id))
  {
    var t := WithNewSession(Without(s, idle), id);
    forall other | other in s.sessions && OpenTurn(s, other).None?
      ensures s.sessions[idle].touchedAt <= s.sessions[other].touchedAt
    {
      assert Idle(s, other);
    }
  }

  /******* What an accepted lifecycle event does *******/

  /** The capture that an event starting turn `turn` finds waiting. */
  predicate Waiting(s: State, id: Id, turn: Option<Id>, now: int) {
    Alive(s, id, now) && turn == Some(s.pendingCaptures[id].capture.turnId)
  }

  /** The session of the event is touched: its number and id are remembered, and it is now the newest. */
  ghost predicate Remembers(s: State, t: State, e: Lifecycle) {
    && e.sessionId in t.sessions
    && LastSequence(t, e.sessionId)
       == (if e.sequenceNumber.Some? then e.sequenceNumber else LastSequence(s, e.sessionId))
    && (e.eventId.Some? ==> e.eventId.value in t.sessions[e.sessionId].eventIds)
    && (forall x :: x in t.sessions[e.sessionId].eventIds ==>
          Some(x) == e.eventId || (e.sessionId in s.sessions && x in s.sessions[e.sessionId].eventIds))
    && (forall k :: k in t.sessions && k != e.sessionId ==>
          t.sessions[k].touchedAt < t.sessions[e.sessionId].touchedAt)
    && t.focus == s.focus && t.focusEventIds == s.focusEventIds && t.focusEventIdOrder == s.focusEventIdOrder
  }

  /** A start opens its turn, with the capture that waited for it, or that of the same turn. */
  predicate Starts(s: State, t: State, e: Lifecycle, now: int) {
    var id := e.sessionId;
    && OpenTurn(t, id) == e.turnId
    && CaptureOf(t, id)
       == (if Waiting(s, id, e.turnId, now) then Some(s.pendingCaptures[id].capture)
           else if OpenTurn(s, id) == e.turnId then CaptureOf(s, id)
           else None)
    && (id in t.pendingCaptures <==> Alive(s, id, now) && !Waiting(s, id, e.turnId, now))
    && (id in t.pendingCaptures ==> t.pendingCaptures[id] == s.pendingCaptures[id])
  }

  /** An end leaves no open turn, no capture and no pending capture of the session. */
  predicate Ends(t: State, id: Id) {
    OpenTurn(t, id).None? && CaptureOf(t, id).None? && id !in t.pendingCaptures
  }

  /** Anything else leaves the turn and its captures alone. */
  predicate Continues(s: State, t: State, id: Id, now: int) {
    && OpenTurn(t, id) == OpenTurn(s, id) && CaptureOf(t, id) == CaptureOf(s, id)
    && (id in t.pendingCaptures <==> Alive(s, id, now))
    && (id in t.pendingCaptures ==> t.pendingCaptures[id] == s.pendingCaptures[id])
  }

  /** What each kind of event does when it is applied; an event of another turn is only remembered. */
  lemma LifecycleMeaning(s: State, e: Lifecycle, now: int, presenterOk: bool, cfg: Config)
    requires Inv(s, cfg) && ValidLifecycle(e)
    requires
      var outcome := Step(s, ApplyEvent(LifecycleEvent(e)), now, presenterOk, cfg).1;
      outcome == Applied || outcome == NotApplied(TurnMismatch)
    ensures
      var (t, outcome) := Step(s, ApplyEvent(LifecycleEvent(e)), now, presenterOk, cfg);
      && Remembers(s, t, e)
      && OthersStay(s, t, e.sessionId) && OtherCapturesStay(s, t, e.sessionId, now)
      && (outcome == Applied && e.kind.TurnStarted? ==> Starts(s, t, e, now))
      && (outcome == Applied && (e.kind.TurnEnded? || e.kind.SessionClosed?) ==> Ends(t, e.sessionId))
      && (e.kind.ToolActivity? || outcome != Applied ==> Continues(s, t, e.sessionId, now))
      && (outcome == Applied && (e.kind.TurnEnded? || e.kind.ToolActivity?) ==> OpenTurn(s, e.sessionId) == e.turnId)
  {
    hide DesiredKey, Sound, GetSession, LifecycleOn;
    var p := PurgeExpired(s, now);
    PurgeKeeps(s, now, cfg);
    SoundIsStamped(p, cfg);
    FoundSession(p, e.sessionId);
    GetSessionKeeps(p, e.sessionId, cfg);
    var g := GetSession(p, e.sessionId).value;
    var m := LifecycleOn(g, e);
    var t := m.next.(visible := DesiredKey(m.next));
    StepOnSession(s, e, now, presenterOk, cfg);
    OnSession(g, e, cfg);
    hide Found, Meant, Remembers, OthersStay, OtherCapturesStay, Starts, Ends, Continues;
    OthersAfter(s, g, t, e, now, m.outcome);
    RememberedAfter(s, g, t, e, now, m.outcome);
    OwnAfter(s, g, t, e, now, m.outcome);
  }

  lemma StepOnSession(s: State, e: Lifecycle, now: int, presenterOk: bool, cfg: Config)
    requires
      var outcome := Step(s, ApplyEvent(LifecycleEvent(e)), now, presenterOk, cfg).1;
      outcome == Applied || outcome == NotApplied(TurnMismatch)
    ensures
      var found := GetSession(PurgeExpired(s, now), e.sessionId);
      && found.Some? && LifecycleOn(found.value, e).commit
      && var m := LifecycleOn(found.value, e);
         Step(s, ApplyEvent(LifecycleEvent(e)), now, presenterOk, cfg)
           == (m.next.(visible := DesiredKey(m.next)), m.outcome)
  {
    hide DesiredKey, GetSession, AddBoundedId, PurgeExpired;
  }

  /** Only the session `id` of `g` differs in `t`, and captures only go. */
  ghost predicate OnlySession(g: State, t: State, id: Id) {
    && t.sessions.Keys == g.sessions.Keys
    && (forall k :: k in g.sessions && k != id ==> t.sessions[k] == g.sessions[k])
    && (forall k :: k != id ==> (k in t.pendingCaptures <==> k in g.pendingCaptures))
    && (forall k :: k in t.pendingCaptures ==> k in g.pendingCaptures && t.pendingCaptures[k] == g.pendingCaptures[k])
  }

  predicate MeansStart(g: State, t: State, e: Lifecycle) {
    var id := e.sessionId;
    var waits := id in g.pendingCaptures && e.turnId == Some(g.pendingCaptures[id].capture.turnId);
    && OpenTurn(t, id) == e.turnId
    && CaptureOf(t, id) == (if waits then Some(g.pendingCaptures[id].capture)
                            else if OpenTurn(g, id) == e.turnId then CaptureOf(g, id)
                            else None)
    && (id in t.pendingCaptures <==> id in g.pendingCaptures && !waits)
  }

  predicate MeansNothing(g: State, t: State, id: Id) {
    && OpenTurn(t, id) == OpenTurn(g, id) && CaptureOf(t, id) == CaptureOf(g, id)
    && (id in t.pendingCaptures <==> id in g.pendingCaptures)
  }

  /** The meaning of an event on the session that was found or made for it. */
  ghost predicate Meant(g: State, t: State, e: Lifecycle, outcome: Outcome) {
    && Remembers(g, t, e) && OnlySession(g, t, e.sessionId)
    && (outcome == Applied && e.kind.TurnStarted? ==> MeansStart(g, t, e))
    && (outcome == Applied && (e.kind.TurnEnded? || e.kind.SessionClosed?) ==> Ends(t, e.sessionId))
    && (e.kind.ToolActivity? || outcome != Applied ==> MeansNothing(g, t, e.sessionId))
    && (outcome == Applied && (e.kind.TurnEnded? || e.kind.ToolActivity?) ==> OpenTurn(g, e.sessionId) == e.turnId)
  }

  lemma OnSession(g: State, e: Lifecycle, cfg: Config)
    requires Sound(g, cfg) && e.sessionId in g.sessions && LifecycleOn(g, e).commit
    ensures var m := LifecycleOn(g, e); Meant(g, m.next.(visible := DesiredKey(m.next)), e, m.outcome)
  {
    hide AddBoundedId, DesiredKey, Sound, Bounded, Meant, LifecycleEffect;
    var session := g.sessions[e.sessionId];
    SoundParts(g, e.sessionId, cfg);
    SoundIsStamped(g, cfg);
    AddBoundedKeeps(session.eventIds, session.eventIdOrder, e.eventId, MAX_EVENT_IDS_PER_SESSION);
    assert e.eventId.Some? ==> Elements(Single(e.eventId)) == {e.eventId.value};
    OnTouched(g, e, Touched(session, e, g.clock + 1));
  }

  lemma OnTouched(g: State, e: Lifecycle, touched: Session)
    requires Stamped(g) && e.sessionId in g.sessions
    requires touched == g.sessions[e.sessionId].(
      lastSequence := if e.sequenceNumber.Some? then e.sequenceNumber else g.sessions[e.sessionId].lastSequence,
      eventIds := touched.eventIds, eventIdOrder := touched.eventIdOrder, touchedAt := g.clock + 1)
    requires e.eventId.Some? ==> e.eventId.value in touched.eventIds
    requires forall x :: x in touched.eventIds ==> Some(x) == e.eventId || x in g.sessions[e.sessionId].eventIds
    ensures
      var m := LifecycleEffect(g.(clock := g.clock + 1), e, touched);
      Meant(g, m.next.(visible := DesiredKey(m.next)), e, m.outcome)
  {
    hide DesiredKey, Remembers, OnlySession, Stamped;
    TouchedRemembers(g, e, touched);
    TouchedOnly(g, e, touched);
  }

  lemma TouchedOnly(g: State, e: Lifecycle, touched: Session)
    requires e.sessionId in g.sessions
    ensures
      var m := LifecycleEffect(g.(clock := g.clock + 1), e, touched);
      OnlySession(g, m.next.(visible := DesiredKey(m.next)), e.sessionId)
  {
    hide DesiredKey;
  }

  lemma TouchedRemembers(g: State, e: Lifecycle, touched: Session)
    requires Stamped(g) && e.sessionId in g.sessions
    requires touched == g.sessions[e.sessionId].(
      lastSequence := if e.sequenceNumber.Some? then e.sequenceNumber else g.sessions[e.sessionId].lastSequence,
      eventIds := touched.eventIds, eventIdOrder := touched.eventIdOrder, touchedAt := g.clock + 1)
    requires e.eventId.Some? ==> e.eventId.value in touched.eventIds
    requires forall x :: x in touched.eventIds ==> Some(x) == e.eventId || x in g.sessions[e.sessionId].eventIds
    ensures
      var m := LifecycleEffect(g.(clock := g.clock + 1), e, touched);
      Remembers(g, m.next.(visible := DesiredKey(m.next)), e)
  {
    hide DesiredKey;
  }

  lemma OthersAfter(s: State, g: State, t: State, e: Lifecycle, now: int, outcome: Outcome)
    requires Meant(g, t, e, outcome) && Found(PurgeExpired(s, now), g, e.sessionId)
    ensures OthersStay(s, t, e.sessionId) && OtherCapturesStay(s, t, e.sessionId, now)
  {
    hide Starts, Ends, Remembers, MeansStart, MeansNothing;
  }

  lemma RememberedAfter(s: State, g: State, t: State, e: Lifecycle, now: int, outcome: Outcome)
    requires Meant(g, t, e, outcome) && Found(PurgeExpired(s, now), g, e.sessionId)
    ensures Remembers(s, t, e)
  {
    hide OthersStay, PendingStay, Ends, MeansStart, MeansNothing;
  }

  lemma OwnAfter(s: State, g: State, t: State, e: Lifecycle, now: int, outcome: Outcome)
    requires Meant(g, t, e, outcome) && Found(PurgeExpired(s, now), g, e.sessionId)
    ensures outcome == Applied && e.kind.TurnStarted? ==> Starts(s, t, e, now)
    ensures outcome == Applied && (e.kind.TurnEnded? || e.kind.SessionClosed?) ==> Ends(t, e.sessionId)
    ensures e.kind.ToolActivity? || outcome != Applied ==> Continues(s, t, e.sessionId, now)
    ensures outcome == Applied && (e.kind.TurnEnded? || e.kind.ToolActivity?) ==> OpenTurn(s, e.sessionId) == e.turnId
  {
    hide OthersStay, Remembers;
  }

  /******* Focus changes *******/

  /** A focus change is applied exactly when its id is new and its revision is greater; it then is the focus. */
  lemma FocusMeaning(s: State, f: Focus, now: int, presenterOk: bool, cfg: Config)
    ensures Step(s, ApplyEvent(FocusChanged(f)), now, true, cfg).1 ==
      if f.eventId.Some? && f.eventId.value in s.focusEventIds then NotApplied(DuplicateEvent)
      else if s.focus.Some? && f.revision <= s.focus.value.revision then NotApplied(StaleRevision)
      else Applied
    ensures
      var (t, outcome) := Step(s, ApplyEvent(FocusChanged(f)), now, presenterOk, cfg);
      outcome == Applied ==>
        && t.focus == Some(f) && t.sessions == s.sessions
        && (forall k :: k in t.pendingCaptures <==> Alive(s, k, now))
        && (forall k :: k in t.pendingCaptures ==> t.pendingCaptures[k] == s.pendingCaptures[k])
  {
    hide DesiredKey, AddBoundedId;
  }

  /******* Captures *******/

  /** A capture of the open turn is bound to it, one without an open turn waits, and one of another turn is refused. */
  lemma CaptureMeaning(s: State, c: Capture, now: int, presenterOk: bool, cfg: Config)
    requires Inv(s, cfg)
    ensures
      var id, (t, outcome) := c.sessionId, Step(s, BindCapture(c), now, presenterOk, cfg);
      && (OpenTurn(s, id).None? ==> outcome in {Accepted(true), NotAccepted(CaptureCapacity), PresenterFailed})
      && (OpenTurn(s, id) == Some(c.turnId) ==>
            outcome in {Accepted(false), NotAccepted(CaptureCapacity), PresenterFailed})
      && (OpenTurn(s, id).Some? && OpenTurn(s, id) != Some(c.turnId) ==> outcome == NotAccepted(TurnMismatch))
      && (outcome == Accepted(true) ==>
            t.sessions == s.sessions && t.focus == s.focus && Stores(s, t.pendingCaptures, c, now, cfg))
      && (outcome == Accepted(false) ==> t.focus == s.focus && Binds(s, t, c, now))
  {
    hide DesiredKey, Sound, RetainedBytes, TrimPending, Stores, Binds;
    var p := PurgeExpired(s, now);
    PurgeKeeps(s, now, cfg);
    if OpenTurn(s, c.sessionId).None? {
      TrimmedStores(s, c, now, cfg);
    } else if OpenTurn(s, c.sessionId) == Some(c.turnId) {
      BoundBinds(s, c, now, cfg);
    }
  }

  /** The capture waits until its time is over; of sixteen that wait already the one that waited longest gives way. */
  ghost predicate Stores(s: State, pending: map<Id, Pending>, c: Capture, now: int, cfg: Config) {
    && c.sessionId in pending
    && pending[c.sessionId].capture == c
    && pending[c.sessionId].expiresAt == now + cfg.pendingCaptureTtlMs
    && (forall k :: k != c.sessionId ==> (k in pending <==> Alive(s, k, now) && !GivesWay(s, c.sessionId, k, now)))
    && forall k :: k in pending && k != c.sessionId ==>
         pending[k] == s.pendingCaptures[k] && pending[k].insertedAt < pending[c.sessionId].insertedAt
  }

  function AliveIds(s: State, now: int): set<Id> {
    set k | k in s.pendingCaptures && Alive(s, k, now)
  }

  ghost predicate GivesWay(s: State, id: Id, k: Id, now: int) {
    && |AliveIds(s, now) - {id}| == MAX_PENDING_CAPTURES
    && Alive(s, k, now)
    && forall other :: other in AliveIds(s, now) - {id} ==>
      s.pendingCaptures[k].insertedAt <= s.pendingCaptures[other].insertedAt
  }

  ghost predicate Binds(s: State, t: State, c: Capture, now: int) {
    && c.sessionId in t.sessions && t.sessions.Keys == s.sessions.Keys
    && t.sessions[c.sessionId].capture == Some(c)
    && t.sessions[c.sessionId] == s.sessions[c.sessionId].(capture := Some(c), touchedAt := t.clock)
    && (forall k :: k in s.sessions && k != c.sessionId ==> t.sessions[k] == s.sessions[k])
    && (forall k :: k in t.pendingCaptures <==> Alive(s, k, now) && k != c.sessionId)
    && (forall k :: k in t.pendingCaptures ==> t.pendingCaptures[k] == s.pendingCaptures[k])
  }

  lemma BoundBinds(s: State, c: Capture, now: int, cfg: Config)
    requires OpenTurn(s, c.sessionId) == Some(c.turnId)
    ensures
      var m := MutateCapture(PurgeExpired(s, now), c, now, cfg);
      m.commit ==> Binds(s, m.next.(visible := DesiredKey(m.next)), c, now)
  {
    hide DesiredKey, RetainedBytes, TrimPending;
  }

  lemma TrimmedStores(s: State, c: Capture, now: int, cfg: Config)
    requires Inv(s, cfg) && OpenTurn(s, c.sessionId).None?
    ensures
      var next := TrimPending(WithPending(PurgeExpired(s, now), c, now + cfg.pendingCaptureTtlMs));
      && next.sessions == s.sessions && next.focus == s.focus
      && Stores(s, next.pendingCaptures, c, now, cfg)
  {
    hide TrimPending, Stores, GivesWay, Sound, Stamped, PurgeExpired, AliveIds, WithPending, OldestPending, OpenTurn;
    var p := PurgeExpired(s, now);
    var w := WithPending(p, c, now + cfg.pendingCaptureTtlMs);
    PurgeKeeps(s, now, cfg);
    SoundPending(p, cfg);
    SoundIsStamped(s, cfg);
    WaitingCount(s, c, now, cfg);
    WithPendingSessions(p, c, now + cfg.pendingCaptureTtlMs);
    assert w.focus == s.focus by {
      FocusWaits(s, c, now, cfg);
    }
    if |w.pendingCaptures| <= MAX_PENDING_CAPTURES {
      TrimNothing(w);
      AllStay(s, c, now, cfg);
    } else {
      var oldest := TrimOldest(w);
      OldestGivesWay(s, c, now, cfg, oldest);
    }
  }

  lemma AliveStay(s: State, now: int)
    ensures PurgeExpired(s, now).pendingCaptures.Keys == AliveIds(s, now)
  {
  }

  lemma AllStay(s: State, c: Capture, now: int, cfg: Config)
    requires Stamped(s) && |AliveIds(s, now) - {c.sessionId}| < MAX_PENDING_CAPTURES
    ensures
      Stores(s, WithPending(PurgeExpired(s, now), c, now + cfg.pendingCaptureTtlMs).pendingCaptures, c, now, cfg)
  {
    hide AliveIds, GivesWay;
    forall k
      ensures !GivesWay(s, c.sessionId, k, now)
    {
      NobodyGivesWay(s, c.sessionId, k, now);
    }
  }

  lemma NobodyGivesWay(s: State, id: Id, k: Id, now: int)
    requires |AliveIds(s, now) - {id}| < MAX_PENDING_CAPTURES
    ensures !GivesWay(s, id, k, now)
  {
  }

  lemma OldestGivesWay(s: State, c: Capture, now: int, cfg: Config, oldest: Id)
    requires Stamped(s) && |AliveIds(s, now) - {c.sessionId}| == MAX_PENDING_CAPTURES
    requires OldestPending(WithPending(PurgeExpired(s, now), c, now + cfg.pendingCaptureTtlMs), oldest)
    ensures
      var w := WithPending(PurgeExpired(s, now), c, now + cfg.pendingCaptureTtlMs);
      Stores(s, w.pendingCaptures - {oldest}, c, now, cfg)
  {
    hide GivesWay, AliveIds, OldestPending;
    var w := WithPending(PurgeExpired(s, now), c, now + cfg.pendingCaptureTtlMs);
    OldestIsOther(s, c, now, cfg, oldest);
    forall k | k != c.sessionId
      ensures GivesWay(s, c.sessionId, k, now) <==> k == oldest
    {
      OnlyOldest(s, w, c.sessionId, now, oldest, k);
    }
  }

  lemma OldestIsOther(s: State, c: Capture, now: int, cfg: Config, oldest: Id)
    requires Stamped(s) && |AliveIds(s, now) - {c.sessionId}| == MAX_PENDING_CAPTURES
    requires OldestPending(WithPending(PurgeExpired(s, now), c, now + cfg.pendingCaptureTtlMs), oldest)
    ensures oldest != c.sessionId
  {
    var w := WithPending(PurgeExpired(s, now), c, now + cfg.pendingCaptureTtlMs);
    var other :| other in AliveIds(s, now) - {c.sessionId};
    assert other in w.pendingCaptures && c.sessionId in w.pendingCaptures;
  }

  lemma OnlyOldest(s: State, w: State, id: Id, now: int, oldest: Id, k: Id)
    requires Stamped(s) && |AliveIds(s, now) - {id}| == MAX_PENDING_CAPTURES
    requires OldestPending(w, oldest) && oldest != id && k != id
    requires forall other :: other != id ==> (other in w.pendingCaptures <==> Alive(s, other, now))
    requires forall other :: other in w.pendingCaptures && other != id ==>
      other in s.pendingCaptures && w.pendingCaptures[other] == s.pendingCaptures[other]
    ensures GivesWay(s, id, k, now) <==> k == oldest
  {
    assert oldest in AliveIds(s, now) - {id};
    if GivesWay(s, id, k, now) {
      assert s.pendingCaptures[k].insertedAt <= s.pendingCaptures[oldest].insertedAt;
      assert k in w.pendingCaptures;
    }
  }

  lemma FocusWaits(s: State, c: Capture, now: int, cfg: Config)
    ensures WithPending(PurgeExpired(s, now), c, now + cfg.pendingCaptureTtlMs).focus == s.focus
  {
  }

  lemma WaitingCount(s: State, c: Capture, now: int, cfg: Config)
    requires |PurgeExpired(s, now).pendingCaptures| <= MAX_PENDING_CAPTURES
    ensures
      var w := WithPending(PurgeExpired(s, now), c, now + cfg.pendingCaptureTtlMs);
      |w.pendingCaptures| == |AliveIds(s, now) - {c.sessionId}| + 1 <= MAX_PENDING_CAPTURES + 1
  {
    hide PurgeExpired, AliveIds;
    var id, alive := c.sessionId, AliveIds(s, now);
    var p := PurgeExpired(s, now);
    var w := WithPending(p, c, now + cfg.pendingCaptureTtlMs);
    AliveStay(s, now);
    assert w.pendingCaptures.Keys == (alive - {id}) + {id};
    assert |w.pendingCaptures| == |w.pendingCaptures.Keys|;
    assert |p.pendingCaptures| == |alive|;
    SubsetSize(alive - {id}, alive);
  }

  lemma TrimNothing(w: State)
    requires |w.pendingCaptures| <= MAX_PENDING_CAPTURES
    ensures TrimPending(w) == w
  {
  }

  lemma TrimOldest(w: State) returns (oldest: Id)
    requires |w.pendingCaptures| == MAX_PENDING_CAPTURES + 1
    ensures OldestPending(w, oldest)
    ensures TrimPending(w) == w.(pendingCaptures := w.pendingCaptures - {oldest})
  {
    var stamps := map k | k in w.pendingCaptures :: w.pendingCaptures[k].insertedAt;
    assert stamps.Keys == w.pendingCaptures.Keys;
    var some := OldestExists(stamps);
    assert OldestPending(w, some);
    oldest :| OldestPending(w, oldest)
      && TrimPending(w) == TrimPending(w.(pendingCaptures := w.pendingCaptures - {oldest}));
    assert OldestPending(w, oldest);
    RemoveKeySize(w.pendingCaptures, oldest);
    TrimNothing(w.(pendingCaptures := w.pendingCaptures - {oldest}));
  }

  /** Changing what is retained under one id changes the sum by the difference. */
  lemma OneWeight(s: State, t: State, id: Id)
    requires forall k :: k != id ==> Weight(s, k) == Weight(t, k)
    ensures RetainedBytes(t) + Weight(s, id) == RetainedBytes(s) + Weight(t, id)
  {
    hide Weight;
    var ids, jds := s.sessions.Keys + s.pendingCaptures.Keys, t.sessions.Keys + t.pendingCaptures.Keys;
    var all := ids + jds + {id};
    Outsiders(s, all);
    Outsiders(t, all);
    SumWithout(s, all, id);
    SumWithout(t, all, id);
    SumMonotone(s, all - {id}, t, all - {id});
    SumMonotone(t, all - {id}, s, all - {id});
  }

  lemma Outsiders(s: State, all: set<Id>)
    requires s.sessions.Keys + s.pendingCaptures.Keys <= all
    ensures SumWeights(s, all) == RetainedBytes(s)
  {
    var ids := s.sessions.Keys + s.pendingCaptures.Keys;
    SumOfOutsiders(s, ids, all - ids);
    assert ids + (all - ids) == all;
  }

  /** A capture of the open turn is refused exactly when, in place of the one it replaces, it exceeds the budget. */
  lemma BindingCapacity(s: State, c: Capture, now: int, cfg: Config)
    requires Inv(s, cfg) && ValidCapture(c) && OpenTurn(s, c.sessionId) == Some(c.turnId)
    ensures Step(s, BindCapture(c), now, true, cfg).1 == NotAccepted(CaptureCapacity) <==>
      RetainedBytes(PurgeExpired(s, now)) - Bytes(CaptureOf(s, c.sessionId)) + CaptureByteLength(c)
        > cfg.maxRetainedCaptureBytes
  {
    hide DesiredKey, RetainedBytes, Sound;
    var p := PurgeExpired(s, now);
    var bound := p.(sessions := p.sessions[c.sessionId := p.sessions[c.sessionId].(capture := Some(c))]);
    OneWeight(p, bound, c.sessionId);
  }

  /** One that has to wait, when fewer than sixteen others do: in place of the one that waited for the session. */
  lemma StoringCapacity(s: State, c: Capture, now: int, cfg: Config)
    requires Inv(s, cfg) && ValidCapture(c) && OpenTurn(s, c.sessionId).None?
    requires |AliveIds(s, now) - {c.sessionId}| < MAX_PENDING_CAPTURES
    ensures
      var replaced :=
        if Alive(s, c.sessionId, now) then CaptureByteLength(s.pendingCaptures[c.sessionId].capture) else 0;
      Step(s, BindCapture(c), now, true, cfg).1 == NotAccepted(CaptureCapacity) <==>
        RetainedBytes(PurgeExpired(s, now)) - replaced + CaptureByteLength(c) > cfg.maxRetainedCaptureBytes
  {
    hide DesiredKey, RetainedBytes, TrimPending, Sound, ValidCapture, CaptureByteLength, Weight;
    var p := PurgeExpired(s, now);
    var w := WithPending(p, c, now + cfg.pendingCaptureTtlMs);
    AliveStay(s, now);
    PurgeKeeps(s, now, cfg);
    SoundPending(p, cfg);
    WaitingCount(s, c, now, cfg);
    TrimNothing(w);
    WaitingWeights(p, c, now + cfg.pendingCaptureTtlMs);
    OneWeight(p, w, c.sessionId);
    SoundParts(p, c.sessionId, cfg);
  }

  lemma SoundPending(s: State, cfg: Config)
    requires Sound(s, cfg)
    ensures |s.pendingCaptures| <= MAX_PENDING_CAPTURES
    ensures forall k :: k in s.pendingCaptures ==> ValidCapture(s.pendingCaptures[k].capture)
  {
  }

  lemma WaitingWeights(p: State, c: Capture, expiresAt: int)
    requires ValidCapture(c)
    requires forall k :: k in p.pendingCaptures ==> ValidCapture(p.pendingCaptures[k].capture)
    ensures
      var w, id := WithPending(p, c, expiresAt), c.sessionId;
      && (forall k :: k != id ==> Weight(p, k) == Weight(w, k))
      && Weight(w, id) - Weight(p, id) == CaptureByteLength(c)
           - if id in p.pendingCaptures then CaptureByteLength(p.pendingCaptures[id].capture) else 0
  {
    hide CaptureByteLength;
  }

  /**
   * A capture may arrive before its turn: the start finds it as long as its time is not over, and then it is
   * on the screen if its session has the focus.
   */
  lemma EarlyCapture(s: State, c: Capture, arrived: int, e: Lifecycle, now: int, cfg: Config)
    requires Inv(s, cfg) && ValidCapture(c) && ValidLifecycle(e)
    requires e.kind.TurnStarted? && e.sessionId == c.sessionId && e.turnId == Some(c.turnId)
    requires Step(s, BindCapture(c), arrived, true, cfg).1 == Accepted(true)
    requires
      var t := Step(s, BindCapture(c), arrived, true, cfg).0;
      Step(t, ApplyEvent(LifecycleEvent(e)), now, true, cfg).1 == Applied
    ensures
      var t := Step(s, BindCapture(c), arrived, true, cfg).0;
      var u := Step(t, ApplyEvent(LifecycleEvent(e)), now, true, cfg).0;
      && OpenTurn(u, c.sessionId) == Some(c.turnId)
      && CaptureOf(u, c.sessionId) == (if now < arrived + cfg.pendingCaptureTtlMs then Some(c) else None)
      && (u.focus.Some? && u.focus.value.sessionId == Some(c.sessionId) ==>
            u.visible == if now < arrived + cfg.pendingCaptureTtlMs then KeyOf(Some(c)) else None)
  {
    hide Step, Inv;
    var t := Step(s, BindCapture(c), arrived, true, cfg).0;
    var u := Step(t, ApplyEvent(LifecycleEvent(e)), now, true, cfg).0;
    CaptureMeaning(s, c, arrived, true, cfg);
    InvStep(s, BindCapture(c), arrived, true, cfg);
    LifecycleMeaning(t, e, now, true, cfg);
    InvStep(t, ApplyEvent(LifecycleEvent(e)), now, true, cfg);
    ShownBy(u, cfg);
  }

  lemma ShownBy(s: State, cfg: Config)
    requires Inv(s, cfg)
    ensures s.visible == DesiredKey(s)
  {
  }

  /******* What a client knows *******/

  /** The open turns and the focus, as a client can follow them from the answers it gets. */
  datatype View = View(turns: map<Id, Id>, focus: Option<Focus>)

  function TurnsOf(turns: seq<Turn>): map<Id, Id> {
    if turns == [] then map[]
    else TurnsOf(turns[..|turns| - 1])[turns[|turns| - 1].sessionId := turns[|turns| - 1].turnId]
  }

  /** Only what was applied counts: a start opens its turn, ends and closes end the turn of their session. */
  function Follow(view: View, op: Operation, outcome: Outcome): View {
    if outcome != Applied then view
    else
      match op
      case ApplySnapshot(snapshot) => View(TurnsOf(snapshot.turns), snapshot.focus)
      case ApplyEvent(FocusChanged(f)) => view.(focus := Some(f))
      case ApplyEvent(LifecycleEvent(e)) =>
        (match e.kind
         case TurnStarted =>
           if e.turnId.Some? then view.(turns := view.turns[e.sessionId := e.turnId.value]) else view
         case TurnEnded => view.(turns := view.turns - {e.sessionId})
         case SessionClosed => view.(turns := view.turns - {e.sessionId})
         case ToolActivity => view)
      case BindCapture(_) => view
  }

  ghost function Followed(s: State, h: seq<Entry>, cfg: Config, view: View): View
    decreases |h|
  {
    if h == [] then view
    else
      var (t, outcome) := Step(s, h[0].op, h[0].now, h[0].presenterOk, cfg);
      Followed(t, h[1..], cfg, Follow(view, h[0].op, outcome))
  }

  ghost predicate Agree(s: State, view: View) {
    && s.focus == view.focus
    && forall id :: OpenTurn(s, id) == if id in view.turns then Some(view.turns[id]) else None
  }

  lemma {:induction false} TurnsOfMember(turns: seq<Turn>, i: nat)
    requires i < |turns| && forall a, b :: 0 <= a < b < |turns| ==> turns[a].sessionId != turns[b].sessionId
    ensures turns[i].sessionId in TurnsOf(turns) && TurnsOf(turns)[turns[i].sessionId] == turns[i].turnId
  {
    var less := turns[..|turns| - 1];
    if i < |turns| - 1 {
      TurnsOfMember(less, i);
      assert less[i] == turns[i];
    }
  }

  lemma {:induction false} TurnsOfOnly(turns: seq<Turn>, id: Id) returns (i: nat)
    requires id in TurnsOf(turns)
    ensures i < |turns| && turns[i].sessionId == id
  {
    i := |turns| - 1;
    if turns[i].sessionId != id {
      i := TurnsOfOnly(turns[..|turns| - 1], id);
    }
  }

  /** A snapshot replaces what was known by its turns and its focus. */
  lemma SnapshotFollows(s: State, snapshot: Snapshot, now: int, presenterOk: bool, cfg: Config)
    requires Inv(s, cfg) && ValidSnapshot(snapshot)
    ensures
      var (t, outcome) := Step(s, ApplySnapshot(snapshot), now, presenterOk, cfg);
      && (outcome == Applied ==> Agree(t, View(TurnsOf(snapshot.turns), snapshot.focus)))
      && (outcome != Applied ==> t == s)
  {
    var p := PurgeExpired(s, now);
    var t := MutateSnapshot(p, snapshot).next;
    hide RestoredSessions, DesiredKey, RestoredSession;
    forall id
      ensures OpenTurn(t, id) == if id in TurnsOf(snapshot.turns) then Some(TurnsOf(snapshot.turns)[id]) else None
    {
      if id in t.sessions {
        var i := RestoredFrom(p, snapshot.turns, |snapshot.turns|, id);
        RestoredAt(p, snapshot.turns, |snapshot.turns|, i);
        TurnsOfMember(snapshot.turns, i);
        RestoredTurn(p, snapshot.turns[i], p.clock + i + 1);
      } else if id in TurnsOf(snapshot.turns) {
        var i := TurnsOfOnly(snapshot.turns, id);
        RestoredAt(p, snapshot.turns, |snapshot.turns|, i);
      }
    }
  }

  lemma RestoredTurn(s: State, t: Turn, stamp: nat)
    ensures RestoredSession(s, t, stamp).turnId == Some(t.turnId)
  {
  }

  lemma FollowStep(s: State, view: View, op: Operation, now: int, presenterOk: bool, cfg: Config)
    requires Inv(s, cfg) && ValidOperation(op) && Agree(s, view)
    ensures
      var (t, outcome) := Step(s, op, now, presenterOk, cfg);
      Agree(t, Follow(view, op, outcome))
  {
    hide Step, Inv;
    match op
    case ApplySnapshot(snapshot) => SnapshotFollows(s, snapshot, now, presenterOk, cfg);
    case ApplyEvent(FocusChanged(f)) =>
      FocusMeaning(s, f, now, presenterOk, cfg);
      NotAppliedStays(s, op, now, presenterOk, cfg);
    case ApplyEvent(LifecycleEvent(e)) => LifecycleFollows(s, view, e, now, presenterOk, cfg);
    case BindCapture(c) =>
      CaptureMeaning(s, c, now, presenterOk, cfg);
      NotAppliedStays(s, op, now, presenterOk, cfg);
  }

  lemma NotAppliedStays(s: State, op: Operation, now: int, presenterOk: bool, cfg: Config)
    ensures
      var (t, outcome) := Step(s, op, now, presenterOk, cfg);
      && (outcome == PresenterFailed || outcome.NotAccepted? ==> t == s)
      && (outcome.NotApplied? && outcome.reason != TurnMismatch ==> t == s)
      && (op.BindCapture? ==> outcome != Applied)
      && (op.ApplyEvent? && op.event.FocusChanged? ==> outcome != NotApplied(TurnMismatch))
      && (op.ApplyEvent? ==> outcome == Applied || outcome == PresenterFailed || outcome.NotApplied?)
  {
    FailureChangesNothing(s, op, now, presenterOk, cfg);
    hide GetSession, TrimPending, RetainedBytes, AddBoundedId, PurgeExpired, DesiredKey;
  }

  lemma LifecycleFollows(s: State, view: View, e: Lifecycle, now: int, presenterOk: bool, cfg: Config)
    requires Inv(s, cfg) && ValidLifecycle(e) && Agree(s, view)
    ensures
      var op := ApplyEvent(LifecycleEvent(e));
      var (t, outcome) := Step(s, op, now, presenterOk, cfg);
      Agree(t, Follow(view, op, outcome))
  {
    hide Step, Inv, Remembers, OthersStay, OtherCapturesStay, Starts, Ends, Continues, Agree;
    var op := ApplyEvent(LifecycleEvent(e));
    var (t, outcome) := Step(s, op, now, presenterOk, cfg);
    NotAppliedStays(s, op, now, presenterOk, cfg);
    if outcome == Applied || outcome == NotApplied(TurnMismatch) {
      LifecycleMeaning(s, e, now, presenterOk, cfg);
      TurnsFollow(s, t, view, e, now, outcome);
    }
  }

  lemma TurnsFollow(s: State, t: State, view: View, e: Lifecycle, now: int, outcome: Outcome)
    requires Agree(s, view) && ValidLifecycle(e) && Remembers(s, t, e) && OthersStay(s, t, e.sessionId)
    requires outcome == Applied && e.kind.TurnStarted? ==> Starts(s, t, e, now)
    requires outcome == Applied && (e.kind.TurnEnded? || e.kind.SessionClosed?) ==> Ends(t, e.sessionId)
    requires e.kind.ToolActivity? || outcome != Applied ==> Continues(s, t, e.sessionId, now)
    ensures Agree(t, Follow(view, ApplyEvent(LifecycleEvent(e)), outcome))
  {
    forall k | k != e.sessionId
      ensures OpenTurn(t, k) == OpenTurn(s, k)
    {
    }
    hide OthersStay;
  }

  lemma {:induction false} FollowRun(s: State, h: seq<Entry>, cfg: Config, view: View)
    requires Inv(s, cfg) && ValidHistory(h) && Agree(s, view)
    ensures Agree(Run(s, h, cfg), Followed(s, h, cfg, view))
    decreases |h|
  {
    hide Inv, Step, ValidOperation, Agree, Follow;
    if h != [] {
      var (t, outcome) := Step(s, h[0].op, h[0].now, h[0].presenterOk, cfg);
      FollowStep(s, view, h[0].op, h[0].now, h[0].presenterOk, cfg);
      InvStep(s, h[0].op, h[0].now, h[0].presenterOk, cfg);
      FollowRun(t, h[1..], cfg, Follow(view, h[0].op, outcome));
    }
  }

  const NOTHING := View(map[], None)

  /**
   * In every run the open turns and the focus are those of the snapshots, starts, ends, closes and focus
   * changes that were applied; so what is on the screen belongs to a turn that was started and has not ended.
   */
  lemma ClientsCanFollow(h: seq<Entry>, cfg: Config)
    requires ValidHistory(h)
    ensures
      var s, view := Run(EMPTY_STATE, h, cfg), Followed(EMPTY_STATE, h, cfg, NOTHING);
      && s.focus == view.focus
      && (forall id :: OpenTurn(s, id) == if id in view.turns then Some(view.turns[id]) else None)
      && (s.visible.Some? ==>
            && view.focus.Some? && view.focus.value.sessionId == Some(s.visible.value.sessionId)
            && s.visible.value.sessionId in view.turns
            && view.turns[s.visible.value.sessionId] == s.visible.value.turnId)
  {
    InvInitially(cfg);
    FollowRun(EMPTY_STATE, h, cfg, NOTHING);
    VisibleIsFocusedCapture(h, cfg);
    hide Run, Followed;
    var s := Run(EMPTY_STATE, h, cfg);
    if s.visible.Some? {
      assert OpenTurn(s, s.visible.value.sessionId) == Some(s.visible.value.turnId);
    }
  }
}
