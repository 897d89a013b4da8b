/** What every operation of the PiP session coordinator keeps. */
module PipInvariants {
  import opened Common
  import opened PipState

  /** A bounded id memory: the set is exactly its duplicate-free order list. */
  ghost predicate Bounded(ids: set<Id>, order: seq<Id>, maximum: nat) {
    NoDup(order) && ids == Elements(order) && |order| <= maximum
  }

  ghost predicate SessionOk(id: Id, session: Session) {
    && Bounded(session.eventIds, session.eventIdOrder, MAX_EVENT_IDS_PER_SESSION)
    && (session.capture.Some? ==>
          && ValidCapture(session.capture.value)
          && session.capture.value.sessionId == id
          && session.turnId == Some(session.capture.value.turnId))
  }

  ghost predicate PendingOk(id: Id, p: Pending) {
    ValidCapture(p.capture) && p.capture.sessionId == id
  }

  /** Touch stamps identify sessions and insertion stamps identify pending captures. */
  ghost predicate Stamped(s: State) {
    && (forall id :: id in s.sessions ==> s.sessions[id].touchedAt <= s.clock)
    && (forall id :: id in s.pendingCaptures ==> s.pendingCaptures[id].insertedAt <= s.clock)
    && (forall a, b :: a in s.sessions && b in s.sessions && a != b ==>
          s.sessions[a].touchedAt != s.sessions[b].touchedAt)
    && (forall a, b :: a in s.pendingCaptures && b in s.pendingCaptures && a != b ==>
          s.pendingCaptures[a].insertedAt != s.pendingCaptures[b].insertedAt)
  }

  ghost predicate Owned(s: State) {
    && (forall id :: id in s.sessions ==> SessionOk(id, s.sessions[id]))
    && (forall id :: id in s.pendingCaptures ==> PendingOk(id, s.pendingCaptures[id]))
    && Bounded(s.focusEventIds, s.focusEventIdOrder, MAX_FOCUS_EVENT_IDS)
    && (s.focus.None? ==> s.focusEventIdOrder == [])
  }

  /** Everything but the presentation. */
  ghost predicate Sound(s: State, cfg: Config) {
    && |s.sessions| <= MAX_SESSIONS
    && |s.pendingCaptures| <= MAX_PENDING_CAPTURES
    && RetainedBytes(s) <= cfg.maxRetainedCaptureBytes
    && Owned(s) && Stamped(s)
  }

  ghost predicate Inv(s: State, cfg: Config) {
    Sound(s, cfg) && s.visible == DesiredKey(s)
  }

  /******* Sums *******/

  lemma {:induction false} SumWithout(s: State, ids: set<Id>, id: Id)
    requires id in ids
    ensures SumWeights(s, ids) == Weight(s, id) + SumWeights(s, ids - {id})
    decreases ids
  {
    hide Weight;
    var first :| first in ids && SumWeights(s, ids) == Weight(s, first) + SumWeights(s, ids - {first});
    if first != id {
      SumWithout(s, ids - {first}, id);
      SumWithout(s, ids - {id}, first);
      assert ids - {first} - {id} == ids - {id} - {first};
    }
  }

  lemma {:induction false} SumMonotone(s: State, ids: set<Id>, t: State, jds: set<Id>)
    requires ids <= jds && forall id :: id in ids ==> Weight(s, id) <= Weight(t, id)
    ensures SumWeights(s, ids) <= SumWeights(t, jds)
    decreases jds
  {
    hide Weight;
    if jds != {} {
      var id :| id in jds;
      SumWithout(t, jds, id);
      if id in ids {
        SumWithout(s, ids, id);
        SumMonotone(s, ids - {id}, t, jds - {id});
      } else {
        SumMonotone(s, ids, t, jds - {id});
      }
    }
  }

  /** No id weighs more than before. */
  ghost predicate Lighter(s: State, t: State) {
    forall id :: Weight(s, id) <= Weight(t, id)
  }

  lemma {:induction false} SumOfOutsiders(s: State, ids: set<Id>, more: set<Id>)
    requires forall id :: id in more ==> Weight(s, id) == 0
    ensures SumWeights(s, ids + more) == SumWeights(s, ids)
    decreases more
  {
    hide Weight;
    if more == {} {
      assert ids + more == ids;
    } else {
      var id :| id in more;
      SumOfOutsiders(s, ids, more - {id});
      if id in ids || id in more - {id} {
        assert ids + more == ids + (more - {id});
      } else {
        SumWithout(s, ids + more, id);
        assert ids + more - {id} == ids + (more - {id});
      }
    }
  }

  lemma LighterRetainsLess(s: State, t: State)
    requires Lighter(s, t)
    ensures RetainedBytes(s) <= RetainedBytes(t)
  {
    hide Bytes, ValidCapture;
    var ids, jds := s.sessions.Keys + s.pendingCaptures.Keys, t.sessions.Keys + t.pendingCaptures.Keys;
    SumMonotone(s, ids, t, ids + jds);
    SumOfOutsiders(t, jds, ids - jds);
    assert ids + jds == jds + (ids - jds);
  }

  /******* Bounded id memories *******/

  lemma AddBoundedKeeps(ids: set<Id>, order: seq<Id>, id: Option<Id>, maximum: nat)
    requires Bounded(ids, order, maximum) && maximum > 0
    ensures
      var r := AddBoundedId(ids, order, id, maximum);
      && Bounded(r.0, r.1, maximum)
      && (id.Some? ==> id.value in r.0)
      && r.0 <= ids + Elements(Single(id))
      && (r.1 != order ==> id.Some? && r.1[|r.1| - 1] == id.value)
  {
    if id.Some? && id.value !in ids {
      var added := order + [id.value];
      var excess := if |added| > maximum then |added| - maximum else 0;
      assert id.value !in order;
      assert added == added[..excess] + added[excess..];
      forall x | x in added[excess..]
        ensures x in ids + {id.value} - Elements(added[..excess])
      {
        assert x in added;
        assert x !in added[..excess];
      }
      forall x | x in ids + {id.value} - Elements(added[..excess])
        ensures x in added[excess..]
      {
        assert x in added;
        assert x !in added[..excess];
      }
      assert Elements(added[excess..]) == ids + {id.value} - Elements(added[..excess]);
    }
  }

  /******* Each mutation keeps the state sound *******/

  /** `t` only forgets sessions and pending captures of `s`. */
  ghost predicate Forgets(t: State, s: State) {
    && (forall id :: id in t.sessions ==> id in s.sessions && t.sessions[id] == s.sessions[id])
    && (forall id :: id in t.pendingCaptures ==>
          id in s.pendingCaptures && t.pendingCaptures[id] == s.pendingCaptures[id])
    && t == s.(sessions := t.sessions, pendingCaptures := t.pendingCaptures)
  }

  lemma ForgettingKeeps(t: State, s: State)
    requires Forgets(t, s) && Owned(s) && Stamped(s)
    ensures Owned(t) && Stamped(t) && Lighter(t, s)
    ensures |t.sessions| <= |s.sessions| && |t.pendingCaptures| <= |s.pendingCaptures|
  {
    hide Bytes, SessionOk, PendingOk, Bounded;
    SubsetSize(t.sessions.Keys, s.sessions.Keys);
    SubsetSize(t.pendingCaptures.Keys, s.pendingCaptures.Keys);
  }

  lemma ForgettingSound(t: State, s: State, cfg: Config)
    requires Forgets(t, s) && Sound(s, cfg)
    ensures Sound(t, cfg)
  {
    hide Owned, Stamped, RetainedBytes, Lighter, Forgets;
    ForgettingKeeps(t, s);
    LighterRetainsLess(t, s);
  }

  lemma PurgeKeeps(s: State, now: int, cfg: Config)
    requires Sound(s, cfg)
    ensures Sound(PurgeExpired(s, now), cfg)
    ensures PurgeExpired(s, now).sessions == s.sessions && PurgeExpired(s, now).focus == s.focus
  {
    hide Sound;
    ForgettingSound(PurgeExpired(s, now), s, cfg);
  }

  lemma SubsetSize<T>(a: set<T>, b: set<T>)
    requires a <= b
    ensures |a| <= |b|
  {
    assert |b| == |a| + |b - a|;
  }

  lemma AddKeySize<T, U>(m: map<T, U>, k: T, v: U)
    ensures |m[k := v]| == if k in m then |m| else |m| + 1
  {
    assert m[k := v].Keys == m.Keys + {k};
  }

  lemma RemoveKeySize<T, U>(m: map<T, U>, k: T)
    ensures |m - {k}| == if k in m then |m| - 1 else |m|
  {
    assert (m - {k}).Keys == m.Keys - {k};
  }

  lemma {:induction false} OldestExists(stamps: map<Id, nat>) returns (id: Id)
    requires stamps != map[]
    ensures id in stamps && forall other :: other in stamps ==> stamps[id] <= stamps[other]
    decreases |stamps|
  {
    var first :| first in stamps;
    id := first;
    RemoveKeySize(stamps, first);
    if stamps - {first} != map[] {
      var rest := OldestExists(stamps - {first});
      if stamps[rest] < stamps[first] {
        id := rest;
      }
      forall other | other in stamps
        ensures stamps[id] <= stamps[other]
      {
        assert other == first || other in stamps - {first};
      }
    }
  }

  lemma OldestIdleUnique(s: State, a: Id, b: Id)
    requires Stamped(s) && OldestIdle(s, a) && OldestIdle(s, b)
    ensures a == b
  {
  }

  lemma OldestIdleExists(s: State, idle: Id) returns (id: Id)
    requires Idle(s, idle)
    ensures OldestIdle(s, id)
  {
    var stamps := map k | k in s.sessions && Idle(s, k) :: s.sessions[k].touchedAt;
    assert idle in stamps;
    id := OldestExists(stamps);
    assert forall other :: Idle(s, other) ==> other in stamps;
  }

  /** Only an idle session is ever evicted, and one is evicted whenever there is any. */
  lemma EvictionIsIdle(s: State)
    requires Stamped(s)
    ensures EvictIdleSession(s).None? ==> forall id :: !Idle(s, id)
    ensures EvictIdleSession(s).Some? ==> exists id :: OldestIdle(s, id) && EvictIdleSession(s).value == Without(s, id)
    ensures forall id :: OldestIdle(s, id) ==> EvictIdleSession(s) == Some(Without(s, id))
  {
    if id :| Idle(s, id) {
      var oldest := OldestIdleExists(s, id);
      assert OldestIdle(s, oldest);
    }
    forall a, b | OldestIdle(s, a) && OldestIdle(s, b)
      ensures a == b
    {
      OldestIdleUnique(s, a, b);
    }
  }

  lemma WithoutKeeps(s: State, id: Id, cfg: Config)
    requires Sound(s, cfg)
    ensures Sound(Without(s, id), cfg)
  {
    hide Sound;
    ForgettingSound(Without(s, id), s, cfg);
  }

  lemma NewSessionOk(s: State, id: Id)
    ensures SessionOk(id, NewSession(s)) && Bytes(NewSession(s).capture) == 0
  {
  }

  lemma WithNewSessionKeeps(s: State, id: Id, cfg: Config)
    requires Sound(s, cfg) && id !in s.sessions && |s.sessions| < MAX_SESSIONS
    ensures Sound(WithNewSession(s, id), cfg)
  {
    hide RetainedBytes, Owned, Stamped, Lighter;
    var w := WithNewSession(s, id);
    AddKeySize(s.sessions, id, NewSession(s));
    NewSessionOwned(s, id);
    LighterRetainsLess(w, s);
  }

  lemma NewSessionOwned(s: State, id: Id)
    requires Owned(s) && Stamped(s) && id !in s.sessions
    ensures var w := WithNewSession(s, id); Owned(w) && Stamped(w) && Lighter(w, s)
  {
    hide Bytes, SessionOk, PendingOk, Bounded;
    NewSessionOk(s, id);
  }

  lemma GetSessionKeeps(s: State, id: Id, cfg: Config)
    requires Sound(s, cfg) && GetSession(s, id).Some?
    ensures Sound(GetSession(s, id).value, cfg) && id in GetSession(s, id).value.sessions
    ensures s.clock <= GetSession(s, id).value.clock
  {
    hide Sound;
    if id !in s.sessions {
      if |s.sessions| < MAX_SESSIONS {
        WithNewSessionKeeps(s, id, cfg);
      } else {
        EvictionSound(s, id, cfg);
      }
    }
  }

  lemma EvictionSound(s: State, id: Id, cfg: Config)
    requires Sound(s, cfg) && id !in s.sessions && EvictIdleSession(s).Some?
    ensures Sound(WithNewSession(EvictIdleSession(s).value, id), cfg)
    ensures s.clock == EvictIdleSession(s).value.clock
  {
    EvictionIsIdle(s);
    var idle :| OldestIdle(s, idle) && EvictIdleSession(s).value == Without(s, idle);
    RemoveKeySize(s.sessions, idle);
    WithoutKeeps(s, idle, cfg);
    WithNewSessionKeeps(Without(s, idle), id, cfg);
  }

  /** `t` is `s` with session `id` replaced and stamped now, and perhaps without its pending capture. */
  ghost predicate Replaced(t: State, s: State, id: Id) {
    && id in s.sessions && t.sessions.Keys == s.sessions.Keys
    && (forall k :: k in s.sessions && k != id ==> t.sessions[k] == s.sessions[k])
    && t.pendingCaptures.Keys <= s.pendingCaptures.Keys
    && (forall k :: k in t.pendingCaptures ==> t.pendingCaptures[k] == s.pendingCaptures[k])
    && t == s.(sessions := t.sessions, pendingCaptures := t.pendingCaptures, clock := s.clock + 1)
    && t.sessions[id].touchedAt == t.clock
  }

  lemma ReplacedStamped(t: State, s: State, id: Id)
    requires Replaced(t, s, id) && Stamped(s)
    ensures Stamped(t)
  {
  }

  lemma ReplacedOwned(t: State, s: State, id: Id)
    requires Replaced(t, s, id) && Owned(s) && SessionOk(id, t.sessions[id])
    ensures Owned(t)
    ensures |t.sessions| == |s.sessions| && |t.pendingCaptures| <= |s.pendingCaptures|
  {
    hide SessionOk, PendingOk, Bounded;
    SubsetSize(t.pendingCaptures.Keys, s.pendingCaptures.Keys);
    SubsetSize(t.sessions.Keys, s.sessions.Keys);
    SubsetSize(s.sessions.Keys, t.sessions.Keys);
  }

  lemma ReplacedLighter(t: State, s: State, id: Id)
    requires Replaced(t, s, id) && Weight(t, id) <= Weight(s, id)
    ensures Lighter(t, s)
  {
    hide Bytes;
  }

  lemma ReplaceKeeps(t: State, s: State, id: Id, cfg: Config)
    requires Sound(s, cfg) && Replaced(t, s, id) && SessionOk(id, t.sessions[id])
    requires Weight(t, id) <= Weight(s, id)
    ensures Sound(t, cfg)
  {
    hide RetainedBytes, Owned, Stamped, Weight, SessionOk, Lighter, Replaced;
    ReplacedStamped(t, s, id);
    ReplacedOwned(t, s, id);
    ReplacedLighter(t, s, id);
    LighterRetainsLess(t, s);
  }

  lemma LifecycleOnKeeps(s: State, e: Lifecycle, cfg: Config)
    requires Sound(s, cfg) && e.sessionId in s.sessions && LifecycleOn(s, e).commit
    ensures Sound(LifecycleOn(s, e).next, cfg)
  {
    hide AddBoundedId, Sound, LifecycleEffect;
    var id := e.sessionId;
    var session := s.sessions[id];
    SoundParts(s, id, cfg);
    AddBoundedKeeps(session.eventIds, session.eventIdOrder, e.eventId, MAX_EVENT_IDS_PER_SESSION);
    EffectKeeps(s, e, Touched(session, e, s.clock + 1), cfg);
  }

  lemma EffectKeeps(s: State, e: Lifecycle, session: Session, cfg: Config)
    requires Sound(s, cfg) && e.sessionId in s.sessions && SessionOk(e.sessionId, session)
    requires session.touchedAt == s.clock + 1 && session.capture == s.sessions[e.sessionId].capture
    ensures Sound(LifecycleEffect(s.(clock := s.clock + 1), e, session).next, cfg)
  {
    hide Sound, ValidCapture, Bytes, Bounded, RetainedBytes;
    var id := e.sessionId;
    var next := LifecycleEffect(s.(clock := s.clock + 1), e, session).next;
    SoundParts(s, id, cfg);
    NoBytes();
    ReplaceKeeps(next, s, id, cfg);
  }

  lemma SoundParts(s: State, id: Id, cfg: Config)
    requires Sound(s, cfg)
    ensures id in s.sessions ==> SessionOk(id, s.sessions[id])
    ensures id in s.pendingCaptures ==> PendingOk(id, s.pendingCaptures[id])
  {
  }

  lemma FocusKeeps(s: State, f: Focus, cfg: Config)
    requires Sound(s, cfg) && MutateFocus(s, f).commit
    ensures Sound(MutateFocus(s, f).next, cfg)
  {
    hide Bytes, RetainedBytes, SessionOk, PendingOk, Bounded;
    AddBoundedKeeps(s.focusEventIds, s.focusEventIdOrder, f.eventId, MAX_FOCUS_EVENT_IDS);
    var t := MutateFocus(s, f).next;
    assert Lighter(t, s);
    LighterRetainsLess(t, s);
  }

  /** Which sessions a snapshot restores, and from which turn each of them comes. */
  lemma {:induction false} RestoredAt(s: State, turns: seq<Turn>, n: nat, i: nat)
    requires i < n <= |turns|
    requires forall a, b :: 0 <= a < b < |turns| ==> turns[a].sessionId != turns[b].sessionId
    ensures turns[i].sessionId in RestoredSessions(s, turns, n)
    ensures RestoredSessions(s, turns, n)[turns[i].sessionId] == RestoredSession(s, turns[i], s.clock + i + 1)
    decreases n
  {
    hide RestoredSession;
    if i < n - 1 {
      RestoredAt(s, turns, n - 1, i);
    }
  }

  lemma {:induction false} RestoredFrom(s: State, turns: seq<Turn>, n: nat, id: Id) returns (i: nat)
    requires n <= |turns| && id in RestoredSessions(s, turns, n)
    ensures i < n && turns[i].sessionId == id
    decreases n
  {
    hide RestoredSession;
    if turns[n - 1].sessionId == id {
      i := n - 1;
    } else {
      i := RestoredFrom(s, turns, n - 1, id);
    }
  }

  lemma {:induction false} RestoredSize(s: State, turns: seq<Turn>, n: nat)
    requires n <= |turns|
    ensures |RestoredSessions(s, turns, n)| <= n
    decreases n
  {
    hide RestoredSession;
    if n > 0 {
      RestoredSize(s, turns, n - 1);
      AddKeySize(RestoredSessions(s, turns, n - 1), turns[n - 1].sessionId,
        RestoredSession(s, turns[n - 1], s.clock + n));
    }
  }

  lemma RestoredSessionOk(s: State, t: Turn, stamp: nat, cfg: Config)
    requires Sound(s, cfg)
    ensures SessionOk(t.sessionId, RestoredSession(s, t, stamp))
  {
    SoundParts(s, t.sessionId, cfg);
    SingleBounded(t.eventId);
  }

  /** Every session of a restored state comes from one turn of the snapshot. */
  ghost predicate Restored(t: State, s: State, turns: seq<Turn>) {
    && t.clock == s.clock + |turns|
    && (forall id :: id in t.sessions ==>
          exists i :: 0 <= i < |turns| && RestoredBy(t, s, turns, id, i))
    && t.pendingCaptures == map id | id in s.pendingCaptures && id in t.sessions
         && t.sessions[id].turnId != Some(s.pendingCaptures[id].capture.turnId) :: s.pendingCaptures[id]
  }

  ghost predicate RestoredBy(t: State, s: State, turns: seq<Turn>, id: Id, i: nat)
    requires i < |turns| && id in t.sessions
  {
    turns[i].sessionId == id && t.sessions[id] == RestoredSession(s, turns[i], s.clock + i + 1)
  }

  lemma SnapshotRestores(s: State, snapshot: Snapshot)
    requires ValidSnapshot(snapshot)
    ensures Restored(MutateSnapshot(s, snapshot).next, s, snapshot.turns)
  {
    hide RestoredSessions, RestoredSession;
    var t := MutateSnapshot(s, snapshot).next;
    forall id | id in t.sessions
      ensures exists i :: 0 <= i < |snapshot.turns| && RestoredBy(t, s, snapshot.turns, id, i)
    {
      var i := RestoredFrom(s, snapshot.turns, |snapshot.turns|, id);
      RestoredAt(s, snapshot.turns, |snapshot.turns|, i);
      assert RestoredBy(t, s, snapshot.turns, id, i);
    }
  }

  lemma SnapshotKeeps(s: State, snapshot: Snapshot, cfg: Config)
    requires Sound(s, cfg) && ValidSnapshot(snapshot)
    ensures Sound(MutateSnapshot(s, snapshot).next, cfg)
  {
    hide RestoredSessions, RestoredSession, RetainedBytes, Restored, Owned, Stamped, Lighter;
    var t := MutateSnapshot(s, snapshot).next;
    RestoredSize(s, snapshot.turns, |snapshot.turns|);
    SubsetSize(t.pendingCaptures.Keys, s.pendingCaptures.Keys);
    SnapshotRestores(s, snapshot);
    SnapshotOwned(t, s, snapshot, cfg);
    SnapshotStamped(s, snapshot.turns, t);
    SnapshotLighter(s, snapshot.turns, t);
    LighterRetainsLess(t, s);
  }

  lemma SnapshotOwned(t: State, s: State, snapshot: Snapshot, cfg: Config)
    requires Sound(s, cfg) && t == MutateSnapshot(s, snapshot).next && Restored(t, s, snapshot.turns)
    ensures Owned(t)
  {
    hide RestoredSessions, RestoredSession, RetainedBytes, SessionOk, PendingOk, Bounded, Stamped;
    forall id | id in t.sessions
      ensures SessionOk(id, t.sessions[id])
    {
      var i :| 0 <= i < |snapshot.turns| && RestoredBy(t, s, snapshot.turns, id, i);
      RestoredSessionOk(s, snapshot.turns[i], s.clock + i + 1, cfg);
    }
    var focusId := if snapshot.focus.Some? then snapshot.focus.value.eventId else None;
    SingleBounded(focusId);
    Widen(Elements(Single(focusId)), Single(focusId));
  }

  lemma Widen(ids: set<Id>, order: seq<Id>)
    requires Bounded(ids, order, 1)
    ensures Bounded(ids, order, MAX_FOCUS_EVENT_IDS)
  {
  }

  lemma SingleBounded(id: Option<Id>)
    ensures Bounded(Elements(Single(id)), Single(id), 1)
  {
  }

  lemma SnapshotStamped(s: State, turns: seq<Turn>, t: State)
    requires Stamped(s) && Restored(t, s, turns)
    ensures Stamped(t)
  {
    forall a, b | a in t.sessions && b in t.sessions && a != b
      ensures t.sessions[a].touchedAt != t.sessions[b].touchedAt
    {
      var i :| 0 <= i < |turns| && RestoredBy(t, s, turns, a, i);
      var j :| 0 <= j < |turns| && RestoredBy(t, s, turns, b, j);
    }
  }

  lemma SnapshotLighter(s: State, turns: seq<Turn>, t: State)
    requires Restored(t, s, turns)
    ensures Lighter(t, s)
  {
    NoBytes();
    hide Bytes;
    forall id
      ensures Weight(t, id) <= Weight(s, id)
    {
      if id in t.sessions {
        var i :| 0 <= i < |turns| && RestoredBy(t, s, turns, id, i);
      }
    }
  }

  lemma NoBytes()
    ensures Bytes(None) == 0
  {
  }

  lemma {:induction false} TrimForgets(s: State)
    ensures |TrimPending(s).pendingCaptures| <= MAX_PENDING_CAPTURES
    ensures Forgets(TrimPending(s), s)
    decreases |s.pendingCaptures|
  {
    if |s.pendingCaptures| > MAX_PENDING_CAPTURES {
      var stamps := map k | k in s.pendingCaptures :: s.pendingCaptures[k].insertedAt;
      assert stamps.Keys == s.pendingCaptures.Keys;
      var oldest := OldestExists(stamps);
      assert OldestPending(s, oldest);
      var id :| OldestPending(s, id)
        && TrimPending(s) == TrimPending(s.(pendingCaptures := s.pendingCaptures - {id}));
      assert OldestPending(s, id);
      assert id in s.pendingCaptures;
      var less := s.pendingCaptures - {id};
      assert less.Keys == s.pendingCaptures.Keys - {id} && id in s.pendingCaptures.Keys;
      assert |less.Keys| == |less|;
      TrimForgets(s.(pendingCaptures := less));
    }
  }

  lemma WithPendingKeeps(s: State, c: Capture, expiresAt: int)
    requires Owned(s) && Stamped(s) && ValidCapture(c)
    ensures Owned(WithPending(s, c, expiresAt)) && Stamped(WithPending(s, c, expiresAt))
  {
    hide SessionOk, Bounded, ValidCapture;
  }

  lemma CaptureKeeps(s: State, c: Capture, now: int, cfg: Config)
    requires Sound(s, cfg) && ValidCapture(c) && MutateCapture(s, c, now, cfg).commit
    ensures Sound(MutateCapture(s, c, now, cfg).next, cfg)
  {
    hide TrimPending, RetainedBytes, ValidCapture, Owned, Stamped, WithPending;
    var id := c.sessionId;
    if id !in s.sessions || s.sessions[id].turnId.None? {
      var grown := WithPending(s, c, now + cfg.pendingCaptureTtlMs);
      WithPendingKeeps(s, c, now + cfg.pendingCaptureTtlMs);
      TrimForgets(grown);
      ForgettingKeeps(TrimPending(grown), grown);
      assert grown.sessions == s.sessions by {
        WithPendingSessions(s, c, now + cfg.pendingCaptureTtlMs);
      }
    } else {
      BoundKeeps(s, c, now, cfg);
    }
  }

  lemma WithPendingSessions(s: State, c: Capture, expiresAt: int)
    ensures WithPending(s, c, expiresAt).sessions == s.sessions
  {
  }

  lemma BoundKeeps(s: State, c: Capture, now: int, cfg: Config)
    requires Sound(s, cfg) && ValidCapture(c) && MutateCapture(s, c, now, cfg).commit
    requires c.sessionId in s.sessions && s.sessions[c.sessionId].turnId.Some?
    ensures Sound(MutateCapture(s, c, now, cfg).next, cfg)
  {
    hide RetainedBytes, SessionOk, Owned, Stamped, MutateCapture, Lighter, Replaced;
    var id := c.sessionId;
    var bound := s.(sessions := s.sessions[id := s.sessions[id].(capture := Some(c))]);
    var t := MutateCapture(s, c, now, cfg).next;
    BoundState(s, c, now, cfg);
    BoundLighter(t, bound, id);
    LighterRetainsLess(t, bound);
    BoundSessionOk(s, c, t.sessions[id], cfg);
    ReplacedStamped(t, s, id);
    ReplacedOwned(t, s, id);
  }

  /** What binding a capture to an open turn leaves behind. */
  lemma BoundState(s: State, c: Capture, now: int, cfg: Config)
    requires MutateCapture(s, c, now, cfg).commit
    requires c.sessionId in s.sessions && s.sessions[c.sessionId].turnId.Some?
    ensures
      var id := c.sessionId;
      var bound := s.(sessions := s.sessions[id := s.sessions[id].(capture := Some(c))]);
      var t := MutateCapture(s, c, now, cfg).next;
      && Replaced(t, s, id) && |t.sessions| == |s.sessions| && |t.pendingCaptures| <= |s.pendingCaptures|
      && s.sessions[id].turnId == Some(c.turnId) && RetainedBytes(bound) <= cfg.maxRetainedCaptureBytes
      && t.sessions == bound.sessions[id := bound.sessions[id].(touchedAt := s.clock + 1)]
      && t.pendingCaptures == bound.pendingCaptures - {id}
  {
    hide TrimPending, RetainedBytes;
    RemoveKeySize(s.pendingCaptures, c.sessionId);
    AddKeySize(s.sessions, c.sessionId, MutateCapture(s, c, now, cfg).next.sessions[c.sessionId]);
  }

  lemma BoundSessionOk(s: State, c: Capture, session: Session, cfg: Config)
    requires Sound(s, cfg) && ValidCapture(c) && c.sessionId in s.sessions
    requires s.sessions[c.sessionId].turnId == Some(c.turnId)
    requires session == s.sessions[c.sessionId].(capture := Some(c), touchedAt := session.touchedAt)
    ensures SessionOk(c.sessionId, session)
  {
    SoundParts(s, c.sessionId, cfg);
  }

  lemma BoundLighter(t: State, bound: State, id: Id)
    requires id in bound.sessions && id in t.sessions && t.sessions[id].capture == bound.sessions[id].capture
    requires t.sessions == bound.sessions[id := t.sessions[id]]
    requires t.pendingCaptures == bound.pendingCaptures - {id}
    ensures Lighter(t, bound)
  {
    hide Bytes;
  }

  lemma MutateKeeps(s: State, op: Operation, now: int, cfg: Config)
    requires Sound(s, cfg) && ValidOperation(op) && Mutate(s, op, now, cfg).commit
    ensures Sound(Mutate(s, op, now, cfg).next, cfg)
  {
    hide Sound, MutateSnapshot, MutateFocus, MutateCapture, LifecycleOn, GetSession;
    match op
    case ApplySnapshot(snapshot) => SnapshotKeeps(s, snapshot, cfg);
    case ApplyEvent(LifecycleEvent(e)) =>
      GetSessionKeeps(s, e.sessionId, cfg);
      LifecycleOnKeeps(GetSession(s, e.sessionId).value, e, cfg);
    case ApplyEvent(FocusChanged(f)) => FocusKeeps(s, f, cfg);
    case BindCapture(c) => CaptureKeeps(s, c, now, cfg);
  }

  lemma InvStep(s: State, op: Operation, now: int, presenterOk: bool, cfg: Config)
    requires Inv(s, cfg) && ValidOperation(op)
    ensures Inv(Step(s, op, now, presenterOk, cfg).0, cfg)
  {
    hide Sound, Mutate;
    PurgeKeeps(s, now, cfg);
    if Mutate(PurgeExpired(s, now), op, now, cfg).commit {
      MutateKeeps(PurgeExpired(s, now), op, now, cfg);
      VisibleKeeps(Mutate(PurgeExpired(s, now), op, now, cfg).next, cfg);
    }
  }

  lemma VisibleKeeps(s: State, cfg: Config)
    requires Sound(s, cfg)
    ensures Inv(s.(visible := DesiredKey(s)), cfg)
  {
    hide Bytes, RetainedBytes, SessionOk, PendingOk, Bounded;
    var t := s.(visible := DesiredKey(s));
    assert Lighter(t, s);
    LighterRetainsLess(t, s);
  }

  ghost predicate ValidHistory(h: seq<Entry>) {
    forall i :: 0 <= i < |h| ==> ValidOperation(h[i].op)
  }

  lemma {:induction false} InvRun(s: State, h: seq<Entry>, cfg: Config)
    requires Inv(s, cfg) && ValidHistory(h)
    ensures Inv(Run(s, h, cfg), cfg)
    decreases |h|
  {
    hide Inv, Step, ValidOperation;
    if h != [] {
      InvStep(s, h[0].op, h[0].now, h[0].presenterOk, cfg);
      InvRun(Step(s, h[0].op, h[0].now, h[0].presenterOk, cfg).0, h[1..], cfg);
    }
  }

  lemma InvInitially(cfg: Config)
    ensures Inv(EMPTY_STATE, cfg)
  {
  }

  /** In every reachable state the picture shown is the focused session's open turn's capture, or nothing. */
  lemma VisibleIsFocusedCapture(h: seq<Entry>, cfg: Config)
    requires ValidHistory(h)
    ensures
      var s := Run(EMPTY_STATE, h, cfg);
      forall key :: s.visible == Some(key) <==>
        && s.focus.Some? && s.focus.value.sessionId == Some(key.sessionId)
        && key.sessionId in s.sessions
        && s.sessions[key.sessionId].turnId == Some(key.turnId)
        && s.sessions[key.sessionId].capture.Some?
        && s.sessions[key.sessionId].capture.value.frameId == key.frameId
  {
    InvInitially(cfg);
    InvRun(EMPTY_STATE, h, cfg);
    hide Run, RetainedBytes, Stamped, ValidCapture, Bounded;
    var s := Run(EMPTY_STATE, h, cfg);
    if s.focus.Some? && s.focus.value.sessionId.Some? {
      SoundParts(s, s.focus.value.sessionId.value, cfg);
    }
  }

  /**
   * The bounds that hold in every reachable state, with exact ownership: each event-id set is its own
   * duplicate-free order list, and every retained capture carries its session's id and open turn.
   */
  lemma StoresAreBounded(h: seq<Entry>, cfg: Config)
    requires ValidHistory(h)
    ensures
      var s := Run(EMPTY_STATE, h, cfg);
      && |s.sessions| <= 256 && |s.pendingCaptures| <= 16
      && RetainedBytes(s) <= cfg.maxRetainedCaptureBytes
      && (forall id :: id in s.sessions ==> |s.sessions[id].eventIds| <= 64 && |s.sessions[id].eventIdOrder| <= 64)
      && |s.focusEventIds| <= 256 && |s.focusEventIdOrder| <= 256
      && (forall id :: id in s.sessions ==> SessionOk(id, s.sessions[id]))
      && (forall id :: id in s.pendingCaptures ==> PendingOk(id, s.pendingCaptures[id]))
  {
    InvInitially(cfg);
    InvRun(EMPTY_STATE, h, cfg);
    hide Run, RetainedBytes, ValidCapture;
    var s := Run(EMPTY_STATE, h, cfg);
    forall id | id in s.sessions
      ensures |s.sessions[id].eventIds| <= 64
    {
      ElementsSize(s.sessions[id].eventIdOrder);
    }
    ElementsSize(s.focusEventIdOrder);
  }

  lemma {:induction false} ElementsSize<T>(s: seq<T>)
    ensures |Elements(s)| <= |s|
    decreases |s|
  {
    if s != [] {
      ElementsSize(s[1..]);
      assert Elements(s) == {s[0]} + Elements(s[1..]);
    }
  }

  /** A rejected or failing operation leaves the state exactly as it was. */
  lemma FailureChangesNothing(s: State, op: Operation, now: int, presenterOk: bool, cfg: Config)
    ensures
      var (t, outcome) := Step(s, op, now, presenterOk, cfg);
      && (outcome == PresenterFailed ==> t == s)
      && (outcome.NotAccepted? ==> t == s)
      && (outcome.NotApplied? && outcome.reason != TurnMismatch ==> t == s)
  {
    hide GetSession, TrimPending, RetainedBytes, AddBoundedId;
  }
}
