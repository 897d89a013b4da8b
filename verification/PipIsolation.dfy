/**
 * What the lifecycle part of the coordinator depends on. Captures never influence it, and a snapshot
 * makes it forget everything older: two runs with the same client operations agree on sessions, open
 * turns, sequence numbers, event ids, focus and eviction order, whatever captures and older writers did.
 */
module PipIsolation {
  import opened Common
  import opened PipState
  import opened PipInvariants

  ghost predicate SameSession(a: Session, b: Session) {
    && a.turnId == b.turnId && a.lastSequence == b.lastSequence
    && a.eventIds == b.eventIds && a.eventIdOrder == b.eventIdOrder
  }

  /** Idle sessions are in the same order of last touch, which is what eviction looks at. */
  ghost predicate SameIdleOrder(s: State, t: State) {
    forall a, b :: Idle(s, a) && Idle(s, b) && Idle(t, a) && Idle(t, b) ==>
      s.sessions[a].touchedAt < s.sessions[b].touchedAt ==>
      t.sessions[a].touchedAt < t.sessions[b].touchedAt
  }

  ghost predicate SameSessions(s: State, t: State) {
    && s.sessions.Keys == t.sessions.Keys
    && forall id :: id in s.sessions ==> SameSession(s.sessions[id], t.sessions[id])
  }

  ghost predicate Similar(s: State, t: State) {
    && SameSessions(s, t) && SameIdleOrder(s, t)
    && s.focus == t.focus
    && s.focusEventIds == t.focusEventIds && s.focusEventIdOrder == t.focusEventIdOrder
  }

  lemma SameIdle(s: State, t: State, id: Id)
    requires SameSessions(s, t)
    ensures Idle(s, id) <==> Idle(t, id)
  {
  }

  lemma SimilarSymmetric(s: State, t: State)
    requires Similar(s, t) && Stamped(s) && Stamped(t)
    ensures Similar(t, s)
  {
    forall a, b | Idle(t, a) && Idle(t, b) && Idle(s, a) && Idle(s, b)
      && t.sessions[a].touchedAt < t.sessions[b].touchedAt
      ensures s.sessions[a].touchedAt < s.sessions[b].touchedAt
    {
      assert !(s.sessions[b].touchedAt < s.sessions[a].touchedAt);
    }
  }

  lemma SimilarTransitive(s: State, t: State, u: State)
    requires Similar(s, t) && Similar(t, u)
    ensures Similar(s, u)
  {
    forall a, b | Idle(s, a) && Idle(s, b) && Idle(u, a) && Idle(u, b)
      && s.sessions[a].touchedAt < s.sessions[b].touchedAt
      ensures u.sessions[a].touchedAt < u.sessions[b].touchedAt
    {
      SameIdle(s, t, a);
      SameIdle(s, t, b);
    }
  }

  /******* Captures leave no trace *******/

  /** States that differ in pending captures, picture and clock only. */
  lemma OutsideIsSimilar(u: State, s: State)
    requires u == s.(pendingCaptures := u.pendingCaptures, visible := u.visible, clock := u.clock)
    ensures Similar(u, s) && Similar(s, u)
  {
  }

  lemma BusySessionIsSimilar(u: State, s: State, id: Id, session: Session)
    requires id in s.sessions && SameSession(session, s.sessions[id]) && session.turnId.Some?
    requires u == s.(sessions := s.sessions[id := session], pendingCaptures := u.pendingCaptures, clock := u.clock)
    ensures Similar(u, s)
  {
    forall a | Idle(u, a)
      ensures Idle(s, a) && u.sessions[a] == s.sessions[a]
    {
    }
  }

  lemma CaptureIsInvisible(s: State, c: Capture, now: int, cfg: Config)
    requires Stamped(s)
    ensures MutateCapture(s, c, now, cfg).commit ==> Similar(MutateCapture(s, c, now, cfg).next, s)
  {
    hide RetainedBytes, Similar, TrimPending, Stamped;
    var id := c.sessionId;
    var next := MutateCapture(s, c, now, cfg).next;
    if MutateCapture(s, c, now, cfg).commit {
      if id !in s.sessions || s.sessions[id].turnId.None? {
        TrimKeepsSessions(WithPending(s, c, now + cfg.pendingCaptureTtlMs));
        OutsideIsSimilar(next, s);
      } else {
        BusySessionIsSimilar(next, s, id, next.sessions[id]);
      }
    }
  }

  lemma {:induction false} TrimKeepsSessions(s: State)
    ensures TrimPending(s) == s.(pendingCaptures := TrimPending(s).pendingCaptures)
    decreases |s.pendingCaptures|
  {
    if |s.pendingCaptures| > MAX_PENDING_CAPTURES && exists id :: OldestPending(s, id) {
      var id :| OldestPending(s, id)
        && TrimPending(s) == TrimPending(s.(pendingCaptures := s.pendingCaptures - {id}));
      assert OldestPending(s, id);
      var less := s.pendingCaptures - {id};
      assert less.Keys == s.pendingCaptures.Keys - {id} && id in s.pendingCaptures.Keys;
      assert |less.Keys| == |less|;
      TrimKeepsSessions(s.(pendingCaptures := less));
    }
  }

  /** Only snapshots drop sessions with an open turn: what any other operation evicts is idle. */
  lemma BusySessionsStay(s: State, op: Operation, now: int, presenterOk: bool, cfg: Config, id: Id)
    requires Inv(s, cfg) && !op.ApplySnapshot? && id in s.sessions && s.sessions[id].turnId.Some?
    ensures id in Step(s, op, now, presenterOk, cfg).0.sessions
  {
    hide Sound, DesiredKey, Mutate;
    var p := PurgeExpired(s, now);
    PurgeKeeps(s, now, cfg);
    BusyAfterMutate(p, op, now, cfg, id);
  }

  lemma BusyAfterMutate(s: State, op: Operation, now: int, cfg: Config, id: Id)
    requires Sound(s, cfg) && !op.ApplySnapshot? && id in s.sessions && s.sessions[id].turnId.Some?
    ensures Mutate(s, op, now, cfg).commit ==> id in Mutate(s, op, now, cfg).next.sessions
  {
    hide Sound, TrimPending, RetainedBytes, GetSession;
    match op
    case ApplyEvent(LifecycleEvent(e)) =>
      BusyAfterGet(s, e.sessionId, id, cfg);
      hide MutateCapture, MutateFocus, MutateSnapshot, AddBoundedId;
    case ApplyEvent(FocusChanged(f)) =>
      hide MutateCapture, MutateLifecycle, MutateSnapshot;
    case BindCapture(c) =>
      hide MutateFocus, MutateLifecycle, MutateSnapshot;
      TrimKeepsSessions(WithPending(s, c, now + cfg.pendingCaptureTtlMs));
  }

  lemma BusyAfterGet(s: State, other: Id, id: Id, cfg: Config)
    requires Sound(s, cfg) && id in s.sessions && s.sessions[id].turnId.Some?
    ensures GetSession(s, other).Some? ==> id in GetSession(s, other).value.sessions
  {
    hide Owned, RetainedBytes, Stamped, EvictIdleSession;
    EvictionIsIdle(s);
  }

  lemma CaptureStepInvisible(s: State, c: Capture, now: int, presenterOk: bool, cfg: Config)
    requires Inv(s, cfg)
    ensures Similar(Step(s, BindCapture(c), now, presenterOk, cfg).0, s)
  {
    hide MutateCapture, Sound, Similar, DesiredKey;
    var purged := PurgeExpired(s, now);
    PurgeKeeps(s, now, cfg);
    SoundIsStamped(purged, cfg);
    CaptureIsInvisible(purged, c, now, cfg);
    OutsideIsSimilar(purged, s);
    OutsideIsSimilar(s, s);
    var m := MutateCapture(purged, c, now, cfg);
    if m.commit {
      OutsideIsSimilar(m.next.(visible := DesiredKey(m.next)), m.next);
      SimilarTransitive(m.next, purged, s);
      SimilarTransitive(m.next.(visible := DesiredKey(m.next)), m.next, s);
    }
  }

  lemma SoundIsStamped(s: State, cfg: Config)
    requires Sound(s, cfg)
    ensures Stamped(s)
  {
  }

  /******* Events see only the similar part *******/

  lemma SameSize(s: State, t: State)
    requires SameSessions(s, t)
    ensures |s.sessions| == |t.sessions|
  {
    assert |s.sessions.Keys| == |t.sessions.Keys|;
  }

  lemma SameOldest(s: State, t: State, id: Id)
    requires Similar(s, t) && Stamped(s) && Stamped(t) && OldestIdle(s, id)
    ensures OldestIdle(t, id)
  {
    forall other | Idle(t, other)
      ensures t.sessions[id].touchedAt <= t.sessions[other].touchedAt
    {
      SameIdle(s, t, other);
      if other != id {
        assert s.sessions[id].touchedAt < s.sessions[other].touchedAt;
      }
    }
  }

  lemma WithoutSimilar(s: State, t: State, id: Id)
    requires Similar(s, t)
    ensures Similar(Without(s, id), Without(t, id))
  {
    var u, v := Without(s, id), Without(t, id);
    forall a | Idle(u, a)
      ensures Idle(s, a) && u.sessions[a] == s.sessions[a]
    {
    }
    forall a | Idle(v, a)
      ensures Idle(t, a) && v.sessions[a] == t.sessions[a]
    {
    }
  }

  ghost predicate TouchedBefore(s: State, stamp: nat) {
    forall id :: id in s.sessions ==> s.sessions[id].touchedAt < stamp
  }

  /** Replacing the same session on both sides by similar ones that are newest on their side. */
  lemma NewestSimilar(s: State, t: State, u: State, v: State, id: Id, a: Session, b: Session)
    requires Similar(s, t) && SameSession(a, b)
    requires TouchedBefore(s, a.touchedAt) && TouchedBefore(t, b.touchedAt)
    requires u == s.(sessions := s.sessions[id := a], pendingCaptures := u.pendingCaptures, clock := u.clock)
    requires v == t.(sessions := t.sessions[id := b], pendingCaptures := v.pendingCaptures, clock := v.clock)
    ensures Similar(u, v)
  {
    hide SameSession;
    assert SameSessions(u, v);
    assert SameIdleOrder(u, v) by {
      NewestKeepsOrder(s, t, u, v, id);
    }
  }

  lemma NewestKeepsOrder(s: State, t: State, u: State, v: State, id: Id)
    requires SameSessions(s, t) && SameIdleOrder(s, t) && id in u.sessions && id in v.sessions
    requires u.sessions == s.sessions[id := u.sessions[id]] && v.sessions == t.sessions[id := v.sessions[id]]
    requires TouchedBefore(s, u.sessions[id].touchedAt) && TouchedBefore(t, v.sessions[id].touchedAt)
    ensures SameIdleOrder(u, v)
  {
    hide SameSession;
    forall x, y | Idle(u, x) && Idle(u, y) && Idle(v, x) && Idle(v, y)
      && u.sessions[x].touchedAt < u.sessions[y].touchedAt
      ensures v.sessions[x].touchedAt < v.sessions[y].touchedAt
    {
      if x != id && y != id {
        assert Idle(s, x) && Idle(s, y) && Idle(t, x) && Idle(t, y);
      }
    }
  }

  lemma NewSessionSimilar(s: State, t: State, id: Id)
    requires Similar(s, t) && Stamped(s) && Stamped(t)
    ensures Similar(WithNewSession(s, id), WithNewSession(t, id))
  {
    hide Similar;
    assert TouchedBefore(s, s.clock + 1) && TouchedBefore(t, t.clock + 1);
    NewestSimilar(s, t, WithNewSession(s, id), WithNewSession(t, id), id, NewSession(s), NewSession(t));
  }

  lemma GetSessionSimilar(s: State, t: State, id: Id, cfg: Config)
    requires Similar(s, t) && Sound(s, cfg) && Sound(t, cfg)
    ensures GetSession(s, id).Some? <==> GetSession(t, id).Some?
    ensures GetSession(s, id).Some? ==> Similar(GetSession(s, id).value, GetSession(t, id).value)
  {
    hide Sound, Similar, Stamped, WithNewSession, EvictIdleSession;
    SoundIsStamped(s, cfg);
    SoundIsStamped(t, cfg);
    SimilarAt(s, t, id);
    if id !in s.sessions {
      if |s.sessions| < MAX_SESSIONS {
        NewSessionSimilar(s, t, id);
      } else {
        EvictionSimilar(s, t, id, cfg);
      }
    }
  }

  lemma EvictionSimilar(s: State, t: State, id: Id, cfg: Config)
    requires Similar(s, t) && Sound(s, cfg) && Sound(t, cfg)
    ensures EvictIdleSession(s).Some? <==> EvictIdleSession(t).Some?
    ensures EvictIdleSession(s).Some? ==>
      Similar(WithNewSession(EvictIdleSession(s).value, id), WithNewSession(EvictIdleSession(t).value, id))
  {
    SoundIsStamped(s, cfg);
    SoundIsStamped(t, cfg);
    SimilarSymmetric(s, t);
    EvictionIsIdle(s);
    EvictionIsIdle(t);
    if EvictIdleSession(s).Some? {
      var oldest :| OldestIdle(s, oldest) && EvictIdleSession(s).value == Without(s, oldest);
      SameOldest(s, t, oldest);
      WithoutSimilar(s, t, oldest);
      WithoutKeeps(s, oldest, cfg);
      WithoutKeeps(t, oldest, cfg);
      SoundIsStamped(Without(s, oldest), cfg);
      SoundIsStamped(Without(t, oldest), cfg);
      NewSessionSimilar(Without(s, oldest), Without(t, oldest), id);
    } else if EvictIdleSession(t).Some? {
      var oldest :| OldestIdle(t, oldest);
      SameOldest(t, s, oldest);
    }
  }

  lemma EffectSimilar(s: State, t: State, e: Lifecycle, a: Session, b: Session)
    requires Similar(s, t) && SameSession(a, b)
    requires TouchedBefore(s, a.touchedAt) && TouchedBefore(t, b.touchedAt)
    ensures
      var m, n := LifecycleEffect(s, e, a), LifecycleEffect(t, e, b);
      m.commit && n.commit && m.outcome == n.outcome && Similar(m.next, n.next)
  {
    hide Similar, TouchedBefore;
    var id := e.sessionId;
    var m, n := LifecycleEffect(s, e, a), LifecycleEffect(t, e, b);
    EffectStamp(s, e, a);
    EffectStamp(t, e, b);
    NewestSimilar(s, t, m.next, n.next, id, m.next.sessions[id], n.next.sessions[id]);
  }

  lemma EffectStamp(s: State, e: Lifecycle, session: Session)
    ensures LifecycleEffect(s, e, session).next.sessions[e.sessionId].touchedAt == session.touchedAt
  {
  }

  lemma LifecycleOnSimilar(s: State, t: State, e: Lifecycle)
    requires Similar(s, t) && Stamped(s) && Stamped(t) && e.sessionId in s.sessions
    ensures e.sessionId in t.sessions
    ensures
      var m, n := LifecycleOn(s, e), LifecycleOn(t, e);
      m.commit == n.commit && m.outcome == n.outcome && (m.commit ==> Similar(m.next, n.next))
  {
    var id := e.sessionId;
    hide Similar, Stamped, Refusal, Touched, LifecycleEffect, TouchedBefore, SameSession;
    SimilarAt(s, t, id);
    var a, b := s.sessions[id], t.sessions[id];
    TouchedSame(a, b, e, s.clock + 1, t.clock + 1);
    StampedIsTouched(s);
    StampedIsTouched(t);
    if Refusal(a, e).None? {
      var u, v := s.(clock := s.clock + 1), t.(clock := t.clock + 1);
      OutsideIsSimilar(u, s);
      OutsideIsSimilar(t, v);
      SimilarTransitive(u, s, t);
      SimilarTransitive(u, t, v);
      ClockIsOutside(s, u, s.clock + 1);
      ClockIsOutside(t, v, t.clock + 1);
      EffectSimilar(u, v, e, Touched(a, e, s.clock + 1), Touched(b, e, t.clock + 1));
    }
  }

  lemma SimilarAt(s: State, t: State, id: Id)
    requires Similar(s, t)
    ensures id in s.sessions <==> id in t.sessions
    ensures id in s.sessions ==> SameSession(s.sessions[id], t.sessions[id])
    ensures |s.sessions| == |t.sessions|
  {
    SameSize(s, t);
  }

  lemma StampedIsTouched(s: State)
    requires Stamped(s)
    ensures TouchedBefore(s, s.clock + 1)
  {
  }

  lemma ClockIsOutside(s: State, u: State, stamp: nat)
    requires TouchedBefore(s, stamp) && u.sessions == s.sessions
    ensures TouchedBefore(u, stamp)
  {
  }

  lemma TouchedSame(a: Session, b: Session, e: Lifecycle, m: nat, n: nat)
    requires SameSession(a, b)
    ensures Refusal(a, e) == Refusal(b, e) && SameSession(Touched(a, e, m), Touched(b, e, n))
    ensures Touched(a, e, m).touchedAt == m && Touched(b, e, n).touchedAt == n
  {
    hide AddBoundedId;
  }

  lemma LifecycleSimilar(s: State, t: State, e: Lifecycle, cfg: Config)
    requires Similar(s, t) && Sound(s, cfg) && Sound(t, cfg)
    ensures
      var m, n := MutateLifecycle(s, e), MutateLifecycle(t, e);
      m.commit == n.commit && m.outcome == n.outcome && (m.commit ==> Similar(m.next, n.next))
  {
    hide GetSession, LifecycleOn, Similar, Sound;
    GetSessionSimilar(s, t, e.sessionId, cfg);
    if GetSession(s, e.sessionId).Some? {
      GetSessionKeeps(s, e.sessionId, cfg);
      GetSessionKeeps(t, e.sessionId, cfg);
      SoundIsStamped(GetSession(s, e.sessionId).value, cfg);
      SoundIsStamped(GetSession(t, e.sessionId).value, cfg);
      LifecycleOnSimilar(GetSession(s, e.sessionId).value, GetSession(t, e.sessionId).value, e);
    }
  }

  lemma FocusSimilar(s: State, t: State, f: Focus)
    requires Similar(s, t)
    ensures
      var m, n := MutateFocus(s, f), MutateFocus(t, f);
      m.commit == n.commit && m.outcome == n.outcome && (m.commit ==> Similar(m.next, n.next))
  {
    hide AddBoundedId;
  }

  /** A snapshot makes any two states similar. */
  lemma SnapshotForgets(s: State, t: State, snapshot: Snapshot)
    requires ValidSnapshot(snapshot)
    ensures Similar(MutateSnapshot(s, snapshot).next, MutateSnapshot(t, snapshot).next)
  {
    var turns := snapshot.turns;
    var u, v := MutateSnapshot(s, snapshot).next, MutateSnapshot(t, snapshot).next;
    forall id
      ensures id in u.sessions <==> id in v.sessions
      ensures id in u.sessions ==> u.sessions[id].turnId.Some? && SameSession(u.sessions[id], v.sessions[id])
    {
      if id in u.sessions {
        var i := RestoredFrom(s, turns, |turns|, id);
        RestoredAt(s, turns, |turns|, i);
        RestoredAt(t, turns, |turns|, i);
      } else if id in v.sessions {
        var i := RestoredFrom(t, turns, |turns|, id);
        RestoredAt(s, turns, |turns|, i);
      }
    }
  }

  lemma ClientSimilar(s: State, t: State, op: Operation, now1: int, now2: int, cfg: Config)
    requires Sound(s, cfg) && Sound(t, cfg) && ValidOperation(op) && !op.BindCapture?
    requires Similar(s, t) || op.ApplySnapshot?
    ensures
      var m, n := Mutate(s, op, now1, cfg), Mutate(t, op, now2, cfg);
      m.commit == n.commit && m.outcome == n.outcome && (m.commit ==> Similar(m.next, n.next))
  {
    hide Similar, Sound, MutateSnapshot, MutateLifecycle, MutateFocus;
    match op
    case ApplySnapshot(snapshot) =>
      SnapshotForgets(s, t, snapshot);
      SnapshotAlwaysCommits(s, snapshot);
      SnapshotAlwaysCommits(t, snapshot);
    case ApplyEvent(LifecycleEvent(e)) => LifecycleSimilar(s, t, e, cfg);
    case ApplyEvent(FocusChanged(f)) => FocusSimilar(s, t, f);
  }

  lemma SnapshotAlwaysCommits(s: State, snapshot: Snapshot)
    ensures MutateSnapshot(s, snapshot).commit && MutateSnapshot(s, snapshot).outcome == Applied
  {
  }

  lemma VisibleIsOutside(s: State, t: State, a: Option<FrameKey>, b: Option<FrameKey>)
    requires Similar(s, t)
    ensures Similar(s.(visible := a), t.(visible := b))
  {
    var u, v := s.(visible := a), t.(visible := b);
    assert forall id :: Idle(u, id) <==> Idle(s, id);
    assert forall id :: Idle(v, id) <==> Idle(t, id);
  }

  lemma PurgeIsOutside(s: State, now: int)
    ensures Similar(PurgeExpired(s, now), s) && Similar(s, PurgeExpired(s, now))
  {
  }

  /** The same client operation on similar states gives the same answer and similar states. */
  lemma ClientStep(s: State, t: State, op: Operation, now1: int, now2: int, cfg: Config)
    requires Inv(s, cfg) && Inv(t, cfg) && ValidOperation(op) && !op.BindCapture?
    requires Similar(s, t) || op.ApplySnapshot?
    ensures Similar(Step(s, op, now1, true, cfg).0, Step(t, op, now2, true, cfg).0)
    ensures Step(s, op, now1, true, cfg).1 == Step(t, op, now2, true, cfg).1
  {
    hide Similar, Sound, Mutate, PurgeExpired;
    var p, q := PurgeExpired(s, now1), PurgeExpired(t, now2);
    PurgeKeeps(s, now1, cfg);
    PurgeKeeps(t, now2, cfg);
    if Similar(s, t) {
      PurgeIsOutside(s, now1);
      PurgeIsOutside(t, now2);
      SimilarTransitive(p, s, t);
      SimilarTransitive(p, t, q);
    }
    ClientSimilar(p, q, op, now1, now2, cfg);
    var m, n := Mutate(p, op, now1, cfg), Mutate(q, op, now2, cfg);
    if m.commit {
      VisibleIsOutside(m.next, n.next, DesiredKey(m.next), DesiredKey(n.next));
    } else {
      EventsOnly(p, op, now1, cfg);
    }
  }

  lemma EventsOnly(s: State, op: Operation, now: int, cfg: Config)
    requires !op.BindCapture? && !Mutate(s, op, now, cfg).commit
    ensures !op.ApplySnapshot?
  {
  }

  /******* Whole runs *******/

  /** The operations that come from a client, in order. */
  function ClientOps(h: seq<Entry>): seq<Operation> {
    if h == [] then []
    else if h[0].op.BindCapture? then ClientOps(h[1..])
    else [h[0].op] + ClientOps(h[1..])
  }

  /** No client operation of the run is rejected by the presenter. */
  ghost predicate ClientsPresented(h: seq<Entry>) {
    forall i :: 0 <= i < |h| && !h[i].op.BindCapture? ==> h[i].presenterOk
  }

  lemma {:induction false} LifecycleIgnoresCaptures(s: State, t: State, hs: seq<Entry>, ht: seq<Entry>, cfg: Config)
    requires Inv(s, cfg) && Inv(t, cfg) && ValidHistory(hs) && ValidHistory(ht)
    requires ClientOps(hs) == ClientOps(ht) && ClientsPresented(hs) && ClientsPresented(ht)
    requires Similar(s, t) || (ClientOps(hs) != [] && ClientOps(hs)[0].ApplySnapshot?)
    ensures Similar(Run(s, hs, cfg), Run(t, ht, cfg))
    decreases |hs| + |ht|
  {
    hide Similar, Inv, Step, ValidOperation;
    if hs != [] && hs[0].op.BindCapture? {
      var next := StepEntry(s, hs[0], cfg);
      if Similar(s, t) {
        CaptureStepInvisible(s, hs[0].op.capture, hs[0].now, hs[0].presenterOk, cfg);
        SimilarTransitive(next, s, t);
      }
      LifecycleIgnoresCaptures(next, t, hs[1..], ht, cfg);
    } else if ht != [] && ht[0].op.BindCapture? {
      var next := StepEntry(t, ht[0], cfg);
      if Similar(s, t) {
        CaptureStepInvisible(t, ht[0].op.capture, ht[0].now, ht[0].presenterOk, cfg);
        InvIsStamped(t, cfg);
        InvIsStamped(next, cfg);
        SimilarSymmetric(next, t);
        SimilarTransitive(s, t, next);
      }
      LifecycleIgnoresCaptures(s, next, hs, ht[1..], cfg);
    } else if hs != [] {
      assert ht != [];
      assert ClientOps(hs)[0] == hs[0].op && ClientOps(ht)[0] == ht[0].op;
      assert ClientOps(hs)[1..] == ClientOps(hs[1..]) && ClientOps(ht)[1..] == ClientOps(ht[1..]);
      var u := StepEntry(s, hs[0], cfg);
      var v := StepEntry(t, ht[0], cfg);
      ClientStep(s, t, hs[0].op, hs[0].now, ht[0].now, cfg);
      LifecycleIgnoresCaptures(u, v, hs[1..], ht[1..], cfg);
    }
  }

  lemma InvIsStamped(s: State, cfg: Config)
    requires Inv(s, cfg)
    ensures Stamped(s)
  {
  }

  lemma StepEntry(s: State, e: Entry, cfg: Config) returns (next: State)
    requires Inv(s, cfg) && ValidOperation(e.op)
    ensures next == Step(s, e.op, e.now, e.presenterOk, cfg).0 && Inv(next, cfg)
  {
    InvStep(s, e.op, e.now, e.presenterOk, cfg);
    next := Step(s, e.op, e.now, e.presenterOk, cfg).0;
  }

  lemma {:induction false} RunAppend(s: State, g: seq<Entry>, h: seq<Entry>, cfg: Config)
    ensures Run(s, g + h, cfg) == Run(Run(s, g, cfg), h, cfg)
    decreases |g|
  {
    hide Step;
    if g == [] {
      assert g + h == h;
    } else {
      assert (g + h)[0] == g[0] && (g + h)[1..] == g[1..] + h;
      RunAppend(Step(s, g[0].op, g[0].now, g[0].presenterOk, cfg).0, g[1..], h, cfg);
    }
  }
}
