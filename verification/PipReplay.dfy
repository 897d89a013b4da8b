/** On a coordinator with no sessions and no focus, applying a snapshot equals replaying its events. */
module PipReplay {
  import opened Common
  import opened PipState
  import opened PipInvariants

  function TurnEvent(t: Turn): Event {
    LifecycleEvent(Lifecycle(TurnStarted, t.sessionId, Some(t.turnId), t.sequenceNumber, t.eventId))
  }

  /** The turn-started events of a snapshot in order, then its focus event. */
  function ReplayOps(snapshot: Snapshot): seq<Operation> {
    seq(|snapshot.turns|, i requires 0 <= i < |snapshot.turns| => ApplyEvent(TurnEvent(snapshot.turns[i])))
    + if snapshot.focus.Some? then [ApplyEvent(FocusChanged(snapshot.focus.value))] else []
  }

  /** A run over the given operations during which no pending capture of `s` expires after `now`. */
  ghost predicate Replays(h: seq<Entry>, ops: seq<Operation>, s: State, now: int) {
    && |h| == |ops|
    && (forall i :: 0 <= i < |h| ==> h[i].op == ops[i] && h[i].presenterOk)
    && forall i, id :: 0 <= i < |h| && id in s.pendingCaptures ==>
         (s.pendingCaptures[id].expiresAt > h[i].now <==> s.pendingCaptures[id].expiresAt > now)
  }

  ghost predicate SameButStamp(a: Session, b: Session) {
    a == b.(touchedAt := a.touchedAt)
  }

  /** Equal up to clock stamps and up to pending captures of sessions outside both. */
  ghost predicate SameRestored(a: State, b: State) {
    && a.sessions.Keys == b.sessions.Keys
    && (forall id :: id in a.sessions ==> SameButStamp(a.sessions[id], b.sessions[id]))
    && a.focus == b.focus && a.focusEventIds == b.focusEventIds && a.focusEventIdOrder == b.focusEventIdOrder
    && a.visible == b.visible
    && a.pendingCaptures.Keys == b.pendingCaptures.Keys * b.sessions.Keys
    && forall id :: id in a.pendingCaptures ==> a.pendingCaptures[id] == b.pendingCaptures[id]
  }

  ghost predicate Fresh(s: State) {
    s.sessions == map[] && s.focus.None? && s.focusEventIds == {} && s.focusEventIdOrder == [] && s.visible.None?
  }

  /** After `k` turn events: the first `k` turns are restored and have taken over their pending captures. */
  ghost predicate Replayed(r: State, base: State, turns: seq<Turn>, k: nat)
    requires k <= |turns|
  {
    && r.focus.None? && r.focusEventIds == {} && r.focusEventIdOrder == [] && r.visible.None?
    && r.sessions.Keys == TurnIds(turns, k)
    && (forall i :: 0 <= i < k ==>
          && turns[i].sessionId in r.sessions
          && SameButStamp(r.sessions[turns[i].sessionId], RestoredSession(base, turns[i], 0)))
    && (forall id :: id in r.pendingCaptures ==>
          id in base.pendingCaptures && r.pendingCaptures[id] == base.pendingCaptures[id])
    && (forall id :: id in base.pendingCaptures ==> (id in r.pendingCaptures <==>
          forall i :: 0 <= i < k ==> !(turns[i].sessionId == id && ClaimedByTurn(base, turns[i]))))
  }

  function TurnIds(turns: seq<Turn>, k: nat): set<Id>
    requires k <= |turns|
  {
    if k == 0 then {} else TurnIds(turns, k - 1) + {turns[k - 1].sessionId}
  }

  ghost predicate Distinct(turns: seq<Turn>) {
    forall i, j :: 0 <= i < j < |turns| ==> turns[i].sessionId != turns[j].sessionId
  }

  lemma {:induction false} TurnIdsMember(turns: seq<Turn>, k: nat, id: Id)
    requires k <= |turns|
    ensures id in TurnIds(turns, k) <==> exists i :: 0 <= i < k && turns[i].sessionId == id
    decreases k
  {
    if k > 0 {
      TurnIdsMember(turns, k - 1, id);
      if turns[k - 1].sessionId == id {
        assert 0 <= k - 1 < k && turns[k - 1].sessionId == id;
      }
    }
  }

  lemma {:induction false} TurnIdsSize(turns: seq<Turn>, k: nat)
    requires k <= |turns|
    ensures |TurnIds(turns, k)| <= k
    decreases k
  {
    if k > 0 {
      TurnIdsSize(turns, k - 1);
    }
  }

  /** A turn-started event for a session that does not exist yet. */
  lemma NewTurn(p: State, base: State, t: Turn)
    requires t.sessionId !in p.sessions && |p.sessions| < MAX_SESSIONS && base.sessions == map[]
    requires t.sessionId in p.pendingCaptures <==> t.sessionId in base.pendingCaptures
    requires t.sessionId in p.pendingCaptures ==>
      p.pendingCaptures[t.sessionId] == base.pendingCaptures[t.sessionId]
    ensures
      var m := MutateLifecycle(p, TurnEvent(t).lifecycle);
      && m.commit && m.outcome == Applied
      && t.sessionId in m.next.sessions
      && SameButStamp(m.next.sessions[t.sessionId], RestoredSession(base, t, 0))
      && m.next == p.(
           sessions := p.sessions[t.sessionId := m.next.sessions[t.sessionId]],
           pendingCaptures :=
             if ClaimedByTurn(base, t) then p.pendingCaptures - {t.sessionId} else p.pendingCaptures,
           clock := m.next.clock)
  {
    hide AddBoundedId, Elements, Single;
    OneId(t.eventId);
  }

  lemma OneId(id: Option<Id>)
    ensures AddBoundedId({}, [], id, MAX_EVENT_IDS_PER_SESSION) == (Elements(Single(id)), Single(id))
    ensures AddBoundedId({}, [], id, MAX_FOCUS_EVENT_IDS) == (Elements(Single(id)), Single(id))
  {
    assert Elements<Id>([]) == {};
    if id.Some? {
      var added: seq<Id> := [] + [id.value];
      assert added == [id.value] && added[0..] == added && added[..0] == [];
      assert Elements(added[..0]) == {};
      assert {} + {id.value} - {} == Elements(Single(id));
    }
  }

  lemma NoFocusNoPicture(s: State)
    requires s.focus.None?
    ensures DesiredKey(s).None?
  {
  }

  lemma ReplayTurn(r: State, base: State, turns: seq<Turn>, k: nat, now: int, cfg: Config)
    requires k < |turns| <= MAX_SESSIONS && Distinct(turns) && base.sessions == map[]
    requires Replayed(PurgeExpired(r, now), base, turns, k)
    ensures Replayed(Step(r, ApplyEvent(TurnEvent(turns[k])), now, true, cfg).0, base, turns, k + 1)
  {
    var t := turns[k];
    var p := PurgeExpired(r, now);
    TurnIdsSize(turns, k);
    assert |p.sessions| == |p.sessions.Keys|;
    TurnIdsMember(turns, k, t.sessionId);
    assert t.sessionId !in p.sessions;
    NewTurn(p, base, t);
    var m := MutateLifecycle(p, TurnEvent(t).lifecycle);
    NoFocusNoPicture(m.next);
    ReplayedMore(p, m.next, base, turns, k);
    assert Step(r, ApplyEvent(TurnEvent(t)), now, true, cfg).0 == m.next;
  }

  lemma ReplayedMore(p: State, q: State, base: State, turns: seq<Turn>, k: nat)
    requires k < |turns| && Distinct(turns) && Replayed(p, base, turns, k)
    requires turns[k].sessionId in q.sessions
    requires SameButStamp(q.sessions[turns[k].sessionId], RestoredSession(base, turns[k], 0))
    requires q == p.(
      sessions := p.sessions[turns[k].sessionId := q.sessions[turns[k].sessionId]],
      pendingCaptures := if ClaimedByTurn(base, turns[k]) then p.pendingCaptures - {turns[k].sessionId}
        else p.pendingCaptures,
      clock := q.clock)
    ensures Replayed(q, base, turns, k + 1)
  {
    hide RestoredSession, SameButStamp;
    forall id | id in base.pendingCaptures
      ensures id in q.pendingCaptures <==>
        forall i :: 0 <= i < k + 1 ==> !(turns[i].sessionId == id && ClaimedByTurn(base, turns[i]))
    {
    }
  }

  lemma {:induction false} ReplayTurns(s: State, h: seq<Entry>, snapshot: Snapshot, k: nat, now: int, cfg: Config)
    requires ValidSnapshot(snapshot) && Fresh(s) && Replays(h, ReplayOps(snapshot), s, now)
    requires k <= |snapshot.turns| && k <= |h|
    ensures Replayed(PurgeExpired(Run(s, h[..k], cfg), now), PurgeExpired(s, now), snapshot.turns, k)
    ensures forall id :: id in Run(s, h[..k], cfg).pendingCaptures ==>
      id in s.pendingCaptures && Run(s, h[..k], cfg).pendingCaptures[id] == s.pendingCaptures[id]
    ensures k > 0 ==> PurgeExpired(Run(s, h[..k], cfg), now) == Run(s, h[..k], cfg)
    decreases k
  {
    hide Step, Replayed, Replays, Fresh;
    var base := PurgeExpired(s, now);
    if k == 0 {
      assert h[..0] == [];
      NothingReplayed(s, snapshot.turns, now);
    } else {
      ReplayTurns(s, h, snapshot, k - 1, now, cfg);
      var r := Run(s, h[..k - 1], cfg);
      var e := h[k - 1];
      EntryOf(h, snapshot, s, now, k - 1);
      RunLast(s, h[..k], cfg);
      assert h[..k][..k - 1] == h[..k - 1];
      SamePurge(r, s, e.now, now);
      FreshHasNoSessions(s, now);
      ReplayTurn(r, base, snapshot.turns, k - 1, e.now, cfg);
      PurgeAgain(Step(r, e.op, e.now, true, cfg).0, base, s, snapshot.turns, k, now);
    }
  }

  lemma NothingReplayed(s: State, turns: seq<Turn>, now: int)
    requires Fresh(s)
    ensures Replayed(PurgeExpired(s, now), PurgeExpired(s, now), turns, 0)
  {
  }

  lemma FreshHasNoSessions(s: State, now: int)
    requires Fresh(s)
    ensures PurgeExpired(s, now).sessions == map[]
  {
  }

  lemma EntryOf(h: seq<Entry>, snapshot: Snapshot, s: State, now: int, k: nat)
    requires Replays(h, ReplayOps(snapshot), s, now) && k < |snapshot.turns|
    ensures k < |h| && h[k].op == ApplyEvent(TurnEvent(snapshot.turns[k])) && h[k].presenterOk
    ensures forall id :: id in s.pendingCaptures ==>
      (s.pendingCaptures[id].expiresAt > h[k].now <==> s.pendingCaptures[id].expiresAt > now)
  {
  }

  /** Purging with the same deadline changes nothing once the expired captures are gone. */
  lemma PurgeAgain(q: State, base: State, s: State, turns: seq<Turn>, k: nat, now: int)
    requires k <= |turns| && Replayed(q, base, turns, k) && base == PurgeExpired(s, now)
    ensures PurgeExpired(q, now) == q
    ensures forall id :: id in q.pendingCaptures ==>
      id in s.pendingCaptures && q.pendingCaptures[id] == s.pendingCaptures[id]
  {
    assert PurgeExpired(q, now).pendingCaptures == q.pendingCaptures;
  }

  lemma {:induction false} RunLast(s: State, h: seq<Entry>, cfg: Config)
    requires h != []
    ensures
      var e := h[|h| - 1];
      Run(s, h, cfg) == Step(Run(s, h[..|h| - 1], cfg), e.op, e.now, e.presenterOk, cfg).0
    decreases |h|
  {
    hide Step;
    if |h| > 1 {
      var next := Step(s, h[0].op, h[0].now, h[0].presenterOk, cfg).0;
      RunLast(next, h[1..], cfg);
      assert h[1..][..|h| - 2] == h[..|h| - 1][1..];
    } else {
      assert h[1..] == [] && h[..0] == [];
    }
  }

  /** What the snapshot builds is what the replayed turns have built. */
  lemma SnapshotIsReplayed(s: State, snapshot: Snapshot, r: State)
    requires ValidSnapshot(snapshot) && s.sessions == map[]
    requires Replayed(r, s, snapshot.turns, |snapshot.turns|)
    ensures
      var a := MutateSnapshot(s, snapshot).next;
      && a.sessions.Keys == r.sessions.Keys
      && (forall id :: id in a.sessions ==> SameButStamp(a.sessions[id], r.sessions[id]))
      && a.pendingCaptures.Keys == r.pendingCaptures.Keys * r.sessions.Keys
      && (forall id :: id in a.pendingCaptures ==> a.pendingCaptures[id] == r.pendingCaptures[id])
  {
    hide RestoredSession, SameButStamp;
    var turns := snapshot.turns;
    var a := MutateSnapshot(s, snapshot).next;
    forall id
      ensures id in a.sessions <==> id in r.sessions
      ensures id in a.sessions ==> SameButStamp(a.sessions[id], r.sessions[id])
      ensures id in a.pendingCaptures <==> id in r.pendingCaptures && id in r.sessions
      ensures id in a.pendingCaptures ==> a.pendingCaptures[id] == r.pendingCaptures[id]
    {
      TurnIdsMember(turns, |turns|, id);
      if id in a.sessions {
        var i := RestoredFrom(s, turns, |turns|, id);
        OneSession(s, snapshot, r, i);
      } else if id in r.sessions {
        var i :| 0 <= i < |turns| && turns[i].sessionId == id;
        RestoredAt(s, turns, |turns|, i);
      }
    }
  }

  lemma OneSession(s: State, snapshot: Snapshot, r: State, i: nat)
    requires ValidSnapshot(snapshot) && i < |snapshot.turns|
    requires Replayed(r, s, snapshot.turns, |snapshot.turns|)
    ensures
      var id := snapshot.turns[i].sessionId;
      var a := MutateSnapshot(s, snapshot).next;
      && id in a.sessions && id in r.sessions && SameButStamp(a.sessions[id], r.sessions[id])
      && (id in a.pendingCaptures <==> id in r.pendingCaptures)
      && (id in a.pendingCaptures ==> a.pendingCaptures[id] == r.pendingCaptures[id])
  {
    var turns := snapshot.turns;
    var id := turns[i].sessionId;
    RestoredAt(s, turns, |turns|, i);
    StampsOnly(s, turns[i], s.clock + i + 1);
    hide RestoredSession;
    forall j | 0 <= j < |turns| && turns[j].sessionId == id
      ensures j == i
    {
    }
  }

  lemma StampsOnly(s: State, t: Turn, stamp: nat)
    ensures RestoredSession(s, t, stamp) == RestoredSession(s, t, 0).(touchedAt := stamp)
    ensures RestoredSession(s, t, stamp).turnId == Some(t.turnId)
  {
  }

  lemma SamePicture(a: State, b: State)
    requires a.focus == b.focus && a.sessions.Keys == b.sessions.Keys
    requires forall id :: id in a.sessions ==> SameButStamp(a.sessions[id], b.sessions[id])
    ensures DesiredKey(a) == DesiredKey(b)
  {
  }

  lemma FocusEntry(h: seq<Entry>, snapshot: Snapshot, s: State, now: int)
    requires Replays(h, ReplayOps(snapshot), s, now)
    ensures
      var n := |snapshot.turns|;
      && |h| == (if snapshot.focus.Some? then n + 1 else n)
      && (snapshot.focus.Some? ==>
            && h[n].op == ApplyEvent(FocusChanged(snapshot.focus.value)) && h[n].presenterOk
            && forall id :: id in s.pendingCaptures ==>
                 (s.pendingCaptures[id].expiresAt > h[n].now <==> s.pendingCaptures[id].expiresAt > now))
  {
  }

  lemma EmptyIsFresh(s: State, cfg: Config)
    requires Inv(s, cfg) && s.sessions == map[] && s.focus.None?
    ensures Fresh(s)
  {
    hide RetainedBytes, Stamped, ValidCapture;
    assert s.focusEventIds == Elements(s.focusEventIdOrder) == {};
  }

  lemma SnapshotEqualsReplay(s: State, snapshot: Snapshot, h: seq<Entry>, now: int, cfg: Config)
    requires Inv(s, cfg) && s.sessions == map[] && s.focus.None?
    requires ValidSnapshot(snapshot) && Replays(h, ReplayOps(snapshot), s, now)
    ensures SameRestored(Step(s, ApplySnapshot(snapshot), now, true, cfg).0, Run(s, h, cfg))
  {
    hide Inv, Step, Run, SameRestored, Replayed, Replays;
    EmptyIsFresh(s, cfg);
    FocusEntry(h, snapshot, s, now);
    var n := |snapshot.turns|;
    var base := PurgeExpired(s, now);
    var r := Run(s, h[..n], cfg);
    ReplayTurns(s, h, snapshot, n, now, cfg);
    if snapshot.focus.Some? {
      assert h[..|h| - 1] == h[..n];
      RunLast(s, h, cfg);
      SamePurge(r, s, h[n].now, now);
      FinishWithFocus(base, snapshot, r, s, h[n].now, now, cfg);
    } else {
      assert h[..n] == h;
      FinishWithoutFocus(base, snapshot, r, s, now, cfg);
    }
  }

  lemma FinishWithFocus(base: State, snapshot: Snapshot, r: State, s: State, later: int, now: int, cfg: Config)
    requires ValidSnapshot(snapshot) && snapshot.focus.Some?
    requires base == PurgeExpired(s, now) && base.sessions == map[]
    requires Replayed(PurgeExpired(r, now), base, snapshot.turns, |snapshot.turns|)
    requires PurgeExpired(r, later) == PurgeExpired(r, now)
    ensures SameRestored(
      Step(s, ApplySnapshot(snapshot), now, true, cfg).0,
      Step(r, ApplyEvent(FocusChanged(snapshot.focus.value)), later, true, cfg).0)
  {
    hide AddBoundedId, Elements, Single, RestoredSessions, SameButStamp, DesiredKey;
    var p := PurgeExpired(r, now);
    var f := snapshot.focus.value;
    SnapshotIsReplayed(base, snapshot, p);
    OneId(f.eventId);
    var a, b := MutateSnapshot(base, snapshot).next, MutateFocus(p, f).next;
    SamePicture(a, b);
  }

  lemma FinishWithoutFocus(base: State, snapshot: Snapshot, r: State, s: State, now: int, cfg: Config)
    requires ValidSnapshot(snapshot) && snapshot.focus.None?
    requires base == PurgeExpired(s, now) && base.sessions == map[]
    requires Replayed(PurgeExpired(r, now), base, snapshot.turns, |snapshot.turns|)
    requires snapshot.turns != [] ==> PurgeExpired(r, now) == r
    ensures SameRestored(Step(s, ApplySnapshot(snapshot), now, true, cfg).0, r)
  {
    var p := PurgeExpired(r, now);
    SnapshotIsReplayed(base, snapshot, p);
    NoFocusNoPicture(MutateSnapshot(base, snapshot).next);
    assert Elements(Single(None)) == {};
    if snapshot.turns == [] {
      assert p.sessions == map[];
    }
  }

  lemma SamePurge(r: State, s: State, m: int, n: int)
    requires forall id :: id in r.pendingCaptures ==>
      id in s.pendingCaptures && r.pendingCaptures[id] == s.pendingCaptures[id]
    requires forall id :: id in s.pendingCaptures ==>
      (s.pendingCaptures[id].expiresAt > m <==> s.pendingCaptures[id].expiresAt > n)
    ensures PurgeExpired(r, m) == PurgeExpired(r, n)
  {
    assert PurgeExpired(r, m).pendingCaptures == PurgeExpired(r, n).pendingCaptures;
  }
}
