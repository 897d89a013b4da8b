/** State and operations of the PiP session coordinator (lcode-cua/pip-session-coordinator.js), as values. */
module PipState {
  import opened Common

  type Id = string

  const MAX_SESSIONS: nat := 256
  const MAX_EVENT_IDS_PER_SESSION: nat := 64
  const MAX_FOCUS_EVENT_IDS: nat := 256
  const MAX_PENDING_CAPTURES: nat := 16
  const MAX_CAPTURE_BYTES: nat := 32 * 1024 * 1024
  const MAX_RETAINED_CAPTURE_BYTES: nat := 64 * 1024 * 1024
  const DEFAULT_PENDING_CAPTURE_TTL_MS: nat := 2000

  /** A capture is identified by its frame; of its base64 data only length and padding matter here. */
  datatype Capture = Capture(sessionId: Id, turnId: Id, frameId: Id, encodedLength: nat, padding: nat)

  datatype FrameKey = FrameKey(sessionId: Id, turnId: Id, frameId: Id)

  datatype Session = Session(
    turnId: Option<Id>,
    lastSequence: Option<nat>,
    capture: Option<Capture>,
    eventIds: set<Id>,
    eventIdOrder: seq<Id>,
    touchedAt: nat)

  datatype Pending = Pending(capture: Capture, expiresAt: int, insertedAt: nat)

  datatype Focus = Focus(sessionId: Option<Id>, revision: nat, sourceWindowId: Id, eventId: Option<Id>)

  datatype State = State(
    sessions: map<Id, Session>,
    focus: Option<Focus>,
    focusEventIds: set<Id>,
    focusEventIdOrder: seq<Id>,
    pendingCaptures: map<Id, Pending>,
    visible: Option<FrameKey>,
    clock: nat)

  const EMPTY_STATE := State(map[], None, {}, [], map[], None, 0)

  /** `TurnEnded` stands for turn-ended, turn-completed and turn-failed; `ToolActivity` for both tool events. */
  datatype LifecycleKind = TurnStarted | TurnEnded | ToolActivity | SessionClosed

  datatype Lifecycle = Lifecycle(
    kind: LifecycleKind,
    sessionId: Id,
    turnId: Option<Id>,
    sequenceNumber: Option<nat>,
    eventId: Option<Id>)

  datatype Event = LifecycleEvent(lifecycle: Lifecycle) | FocusChanged(focus: Focus)

  datatype Turn = Turn(sessionId: Id, turnId: Id, sequenceNumber: Option<nat>, eventId: Option<Id>)

  datatype Snapshot = Snapshot(turns: seq<Turn>, focus: Option<Focus>)

  datatype Operation = ApplySnapshot(snapshot: Snapshot) | ApplyEvent(event: Event) | BindCapture(capture: Capture)

  datatype Reason =
    | Capacity | DuplicateEvent | StaleSequence | TurnMismatch | StaleRevision | InvalidCapture | CaptureCapacity

  datatype Outcome =
    | Applied
    | NotApplied(reason: Reason)
    | Accepted(pending: bool)
    | NotAccepted(reason: Reason)
    | InvalidRequest
    | PresenterFailed
    | Disposed

  datatype Config = Config(pendingCaptureTtlMs: nat, maxRetainedCaptureBytes: nat)

  /******* Normalised inputs *******/

  predicate ValidLifecycle(e: Lifecycle) {
    e.kind != SessionClosed ==> e.turnId.Some?
  }

  predicate ValidEvent(e: Event) {
    e.LifecycleEvent? ==> ValidLifecycle(e.lifecycle)
  }

  predicate ValidSnapshot(s: Snapshot) {
    && |s.turns| <= MAX_SESSIONS
    && forall i, j :: 0 <= i < j < |s.turns| ==> s.turns[i].sessionId != s.turns[j].sessionId
  }

  predicate ValidCapture(c: Capture) {
    && c.encodedLength > 0 && c.encodedLength % 4 == 0 && c.padding <= 2
    && 33 <= CaptureByteLength(c) <= MAX_CAPTURE_BYTES
  }

  predicate ValidOperation(op: Operation) {
    match op
    case ApplySnapshot(s) => ValidSnapshot(s)
    case ApplyEvent(e) => ValidEvent(e)
    case BindCapture(c) => ValidCapture(c)
  }

  /** What the base64 text decodes to. */
  function CaptureByteLength(c: Capture): int {
    c.encodedLength / 4 * 3 - c.padding
  }

  /******* Retained bytes *******/

  function Bytes(c: Option<Capture>): nat {
    if c.Some? && ValidCapture(c.value) then CaptureByteLength(c.value) else 0
  }

  /** Bytes retained under one session id, by its session and by its pending capture. */
  function Weight(s: State, id: Id): nat {
    (if id in s.sessions then Bytes(s.sessions[id].capture) else 0)
    + if id in s.pendingCaptures then Bytes(Some(s.pendingCaptures[id].capture)) else 0
  }

  ghost function SumWeights(s: State, ids: set<Id>): nat {
    if ids == {} then 0
    else
      var id :| id in ids;
      Weight(s, id) + SumWeights(s, ids - {id})
  }

  ghost function RetainedBytes(s: State): nat {
    SumWeights(s, s.sessions.Keys + s.pendingCaptures.Keys)
  }

  /******* Transitions *******/

  function PurgeExpired(s: State, now: int): State {
    s.(pendingCaptures := map id | id in s.pendingCaptures && s.pendingCaptures[id].expiresAt > now ::
      s.pendingCaptures[id])
  }

  /** Bounded, duplicate-free id memory: the set and the order it was filled in. */
  function AddBoundedId(ids: set<Id>, order: seq<Id>, id: Option<Id>, maximum: nat): (set<Id>, seq<Id>) {
    if id.None? || id.value in ids then (ids, order)
    else
      var added := order + [id.value];
      var excess := if |added| > maximum then |added| - maximum else 0;
      (ids + {id.value} - Elements(added[..excess]), added[excess..])
  }

  predicate Idle(s: State, id: Id) {
    id in s.sessions && s.sessions[id].turnId.None?
  }

  ghost predicate OldestIdle(s: State, id: Id) {
    Idle(s, id) && forall other :: Idle(s, other) ==> s.sessions[id].touchedAt <= s.sessions[other].touchedAt
  }

  function Without(s: State, id: Id): State {
    s.(sessions := s.sessions - {id}, pendingCaptures := s.pendingCaptures - {id})
  }

  ghost function EvictIdleSession(s: State): Option<State> {
    if id :| OldestIdle(s, id) then Some(Without(s, id)) else None
  }

  function NewSession(s: State): Session {
    Session(None, None, None, {}, [], s.clock + 1)
  }

  function WithNewSession(s: State, id: Id): State {
    s.(sessions := s.sessions[id := NewSession(s)], clock := s.clock + 1)
  }

  /** Finds or creates a session; at capacity the oldest idle one makes room. */
  ghost function GetSession(s: State, id: Id): Option<State> {
    if id in s.sessions then Some(s)
    else if |s.sessions| < MAX_SESSIONS then Some(WithNewSession(s, id))
    else
      var evicted := EvictIdleSession(s);
      if evicted.None? then None else Some(WithNewSession(evicted.value, id))
  }

  datatype Mutation = Mutation(commit: bool, next: State, outcome: Outcome)

  /** Why an event is not applied to its session: seen before, or not newer than the last one. */
  function Refusal(session: Session, e: Lifecycle): Option<Reason> {
    if e.eventId.Some? && e.eventId.value in session.eventIds then Some(DuplicateEvent)
    else if e.sequenceNumber.Some? && session.lastSequence.Some? && e.sequenceNumber.value <= session.lastSequence.value
    then Some(StaleSequence)
    else None
  }

  function Touched(session: Session, e: Lifecycle, stamp: nat): Session {
    var (ids, order) :=
      AddBoundedId(session.eventIds, session.eventIdOrder, e.eventId, MAX_EVENT_IDS_PER_SESSION);
    session.(
      lastSequence := if e.sequenceNumber.Some? then e.sequenceNumber else session.lastSequence,
      eventIds := ids, eventIdOrder := order, touchedAt := stamp)
  }

  /** The part of `applyLifecycle` after the session is found. */
  function LifecycleOn(s: State, e: Lifecycle): Mutation
    requires e.sessionId in s.sessions
  {
    var session := s.sessions[e.sessionId];
    match Refusal(session, e)
    case Some(reason) => Mutation(false, s, NotApplied(reason))
    case None => LifecycleEffect(s.(clock := s.clock + 1), e, Touched(session, e, s.clock + 1))
  }

  function LifecycleEffect(s: State, e: Lifecycle, session: Session): Mutation {
    var id := e.sessionId;
    var closed := s.(
      sessions := s.sessions[id := session.(turnId := None, capture := None)],
      pendingCaptures := s.pendingCaptures - {id});
    if e.kind == TurnStarted then
      var claims := id in s.pendingCaptures && Some(s.pendingCaptures[id].capture.turnId) == e.turnId;
      var capture :=
        if claims then Some(s.pendingCaptures[id].capture)
        else if session.turnId == e.turnId then session.capture
        else None;
      Mutation(true, s.(
        sessions := s.sessions[id := session.(turnId := e.turnId, capture := capture)],
        pendingCaptures := if claims then s.pendingCaptures - {id} else s.pendingCaptures), Applied)
    else if e.kind == SessionClosed then Mutation(true, closed, Applied)
    else if session.turnId != e.turnId then
      Mutation(true, s.(sessions := s.sessions[id := session]), NotApplied(TurnMismatch))
    else if e.kind == TurnEnded then Mutation(true, closed, Applied)
    else Mutation(true, s.(sessions := s.sessions[id := session]), Applied)
  }

  ghost function MutateLifecycle(s: State, e: Lifecycle): Mutation {
    var found := GetSession(s, e.sessionId);
    if found.None? then Mutation(false, s, NotApplied(Capacity))
    else LifecycleOn(found.value, e)
  }

  function MutateFocus(s: State, f: Focus): Mutation {
    if f.eventId.Some? && f.eventId.value in s.focusEventIds then
      Mutation(false, s, NotApplied(DuplicateEvent))
    else if s.focus.Some? && f.revision <= s.focus.value.revision then
      Mutation(false, s, NotApplied(StaleRevision))
    else
      var (ids, order) := AddBoundedId(s.focusEventIds, s.focusEventIdOrder, f.eventId, MAX_FOCUS_EVENT_IDS);
      Mutation(true, s.(focus := Some(f), focusEventIds := ids, focusEventIdOrder := order), Applied)
  }

  function Single(id: Option<Id>): seq<Id> {
    if id.Some? then [id.value] else []
  }

  function ClaimedByTurn(s: State, t: Turn): bool {
    t.sessionId in s.pendingCaptures && s.pendingCaptures[t.sessionId].capture.turnId == t.turnId
  }

  /** The session that a snapshot restores for one of its turns. */
  function RestoredSession(s: State, t: Turn, touchedAt: nat): Session {
    var capture :=
      if ClaimedByTurn(s, t) then Some(s.pendingCaptures[t.sessionId].capture)
      else if t.sessionId in s.sessions && s.sessions[t.sessionId].turnId == Some(t.turnId)
      then s.sessions[t.sessionId].capture
      else None;
    Session(Some(t.turnId), t.sequenceNumber, capture, Elements(Single(t.eventId)), Single(t.eventId), touchedAt)
  }

  /** The sessions of the first `n` turns. */
  function RestoredSessions(s: State, turns: seq<Turn>, n: nat): map<Id, Session>
    requires n <= |turns|
  {
    if n == 0 then map[]
    else RestoredSessions(s, turns, n - 1)[turns[n - 1].sessionId := RestoredSession(s, turns[n - 1], s.clock + n)]
  }

  function MutateSnapshot(s: State, snapshot: Snapshot): Mutation {
    var sessions := RestoredSessions(s, snapshot.turns, |snapshot.turns|);
    var focusId := if snapshot.focus.Some? then snapshot.focus.value.eventId else None;
    Mutation(true, s.(
      sessions := sessions,
      focus := snapshot.focus,
      focusEventIds := Elements(Single(focusId)),
      focusEventIdOrder := Single(focusId),
      pendingCaptures := map id | id in s.pendingCaptures && id in sessions
        && sessions[id].turnId != Some(s.pendingCaptures[id].capture.turnId) :: s.pendingCaptures[id],
      clock := s.clock + |snapshot.turns|), Applied)
  }

  ghost predicate OldestPending(s: State, id: Id) {
    && id in s.pendingCaptures
    && forall other :: other in s.pendingCaptures ==>
         s.pendingCaptures[id].insertedAt <= s.pendingCaptures[other].insertedAt
  }

  /** The oldest pending captures give way until the store is within its bound. */
  ghost function TrimPending(s: State): State
    decreases |s.pendingCaptures|
  {
    if |s.pendingCaptures| <= MAX_PENDING_CAPTURES then s
    else if id :| OldestPending(s, id) then
      assert |s.pendingCaptures - {id}| < |s.pendingCaptures| by {
        assert (s.pendingCaptures - {id}).Keys == s.pendingCaptures.Keys - {id};
      }
      TrimPending(s.(pendingCaptures := s.pendingCaptures - {id}))
    else s
  }

  function WithPending(s: State, c: Capture, expiresAt: int): State {
    s.(pendingCaptures := s.pendingCaptures[c.sessionId := Pending(c, expiresAt, s.clock + 1)], clock := s.clock + 1)
  }

  ghost function MutateCapture(s: State, c: Capture, now: int, cfg: Config): Mutation {
    var id := c.sessionId;
    if id !in s.sessions || s.sessions[id].turnId.None? then
      var next := TrimPending(WithPending(s, c, now + cfg.pendingCaptureTtlMs));
      if RetainedBytes(next) <= cfg.maxRetainedCaptureBytes then Mutation(true, next, Accepted(true))
      else Mutation(false, s, NotAccepted(CaptureCapacity))
    else if s.sessions[id].turnId != Some(c.turnId) then Mutation(false, s, NotAccepted(TurnMismatch))
    else
      var bound := s.(sessions := s.sessions[id := s.sessions[id].(capture := Some(c))]);
      if RetainedBytes(bound) > cfg.maxRetainedCaptureBytes then Mutation(false, s, NotAccepted(CaptureCapacity))
      else
        var touched := bound.sessions[id].(touchedAt := s.clock + 1);
        Mutation(true, bound.(
          sessions := bound.sessions[id := touched],
          pendingCaptures := s.pendingCaptures - {id},
          clock := s.clock + 1), Accepted(false))
  }

  ghost function Mutate(s: State, op: Operation, now: int, cfg: Config): Mutation {
    match op
    case ApplySnapshot(snapshot) => MutateSnapshot(s, snapshot)
    case ApplyEvent(LifecycleEvent(e)) => MutateLifecycle(s, e)
    case ApplyEvent(FocusChanged(f)) => MutateFocus(s, f)
    case BindCapture(c) => MutateCapture(s, c, now, cfg)
  }

  /******* Presentation *******/

  /** The capture of the focused session's open turn, if there is one. */
  function DesiredPresentation(s: State): Option<Capture> {
    if s.focus.None? || s.focus.value.sessionId.None? then None
    else
      var id := s.focus.value.sessionId.value;
      if id !in s.sessions || s.sessions[id].turnId.None? || s.sessions[id].capture.None? then None
      else if Some(s.sessions[id].capture.value.turnId) == s.sessions[id].turnId then s.sessions[id].capture
      else None
  }

  function KeyOf(c: Option<Capture>): Option<FrameKey> {
    if c.None? then None else Some(FrameKey(c.value.sessionId, c.value.turnId, c.value.frameId))
  }

  function DesiredKey(s: State): Option<FrameKey> {
    KeyOf(DesiredPresentation(s))
  }

  /**
   * One serialized operation. `presenterOk` says whether a presenter call made by it succeeds;
   * a failed call rejects the operation and leaves the state as it was.
   */
  ghost function Step(s: State, op: Operation, now: int, presenterOk: bool, cfg: Config): (State, Outcome) {
    var m := Mutate(PurgeExpired(s, now), op, now, cfg);
    if !m.commit then (s, m.outcome)
    else if DesiredKey(m.next) != s.visible && !presenterOk then (s, PresenterFailed)
    else (m.next.(visible := DesiredKey(m.next)), m.outcome)
  }

  datatype Entry = Entry(op: Operation, now: int, presenterOk: bool)

  ghost function Run(s: State, h: seq<Entry>, cfg: Config): State
    decreases |h|
  {
    if h == [] then s else Run(Step(s, h[0].op, h[0].now, h[0].presenterOk, cfg).0, h[1..], cfg)
  }
}
