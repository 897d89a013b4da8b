/**
 * What the calls into the provider registry service ask for: which of them make a request, that every such
 * request is recorded once, and what has become of it when the service is left alone.
 */
module RegistryRequests {
  import opened Common
  import opened RefreshWaiters
  import opened RegistryRefresh

  /******* Which calls make a request *******/

  /** What a call finds: whether the service was started, disposed, and has published a snapshot. */
  datatype Gate = Gate(started: bool, disposed: bool, ready: bool)

  function GateOf(s: State): Gate {
    Gate(s.started, s.disposed, s.snapshot.Some?)
  }

  /** The reason of the request that a call makes, if it makes one. */
  function Asks(g: Gate, call: Call): Option<string> {
    if g.disposed then None
    else
      match call
      case Start => if g.started && g.ready then None else Some("start")
      case Refresh(reason) => if g.started then Some(reason) else None
      case SourceChanged(Config, reason) =>
        if !g.started then None else if reason == "" then Some("config:changed") else Some("config:" + reason)
      case SourceChanged(Account, reason) =>
        if !g.started then None else if reason == "" then Some("account:changed") else Some("account:" + reason)
      case Dispose => None
  }

  function Passes(g: Gate, call: Call): Gate {
    if g.disposed then g
    else if call.Start? then g.(started := true)
    else if call.Dispose? then g.(disposed := true)
    else g
  }

  function AsksAll(g: Gate, calls: seq<Call>): seq<string>
    decreases |calls|
  {
    if calls == [] then []
    else
      (match Asks(g, calls[0]) case Some(reason) => [reason] case None => [])
      + AsksAll(Passes(g, calls[0]), calls[1..])
  }

  /**
   * A call that asks adds one waiter, with the next number, the moment and the reason, and a loop is in flight
   * that has taken up the reason or will; any other call adds none.
   */
  lemma CallAsks(s: State, call: Call)
    requires s.completed <= s.requested
    ensures
      var t := ApplyCall(s, call);
      && GateOf(t) == Passes(GateOf(s), call)
      && match Asks(GateOf(s), call)
         case Some(reason) =>
           && t.requested == s.requested + 1
           && t.waiters == s.waiters + [Waiter(s.requested + 1, s.clock, reason)]
           && t.lastRequestAt == s.clock < t.clock
           && !t.loop.Idle?
           && (reason in t.pendingReasons || (t.loop.Reading? && reason in t.loop.reasons))
           && t.settled == s.settled && t.snapshot == s.snapshot && t.completed == s.completed && !t.disposed
         case None =>
           && t.requested == s.requested && t.loop == s.loop && t.clock == s.clock && t.lastRequestAt == s.lastRequestAt
           && t.pendingReasons == s.pendingReasons
           && (if call.Dispose? && !s.disposed then t.waiters == [] && t.settled == s.settled + SettleAll(s.waiters)
               else t.waiters == s.waiters && t.settled == s.settled)
  {
    assert "config:" + "changed" == "config:changed" && "account:" + "changed" == "account:changed";
  }

  /******* The record of a run *******/

  /** The calls that listeners make in a step: a change event or an error event is emitted. */
  function Heard(s: State, step: Step): seq<Call> {
    match step
    case SourcesRead(config, account, resolves, calls) =>
      if s.loop.Reading? && s.loop.generation == s.requested && !s.disposed
         && account.basedOn == config.builtinRevision
         && (Unchanged(s, config, account) ==> SavesDiffer(s, config))
      then calls else []
    case SourcesFailed(calls) => if s.loop.Reading? && s.loop.generation == s.requested then calls else []
    case _ => []
  }

  predicate Unchanged(s: State, config: ConfigSnapshot, account: AccountSnapshot) {
    && s.snapshot.Some?
    && s.snapshot.value.config.revision == config.revision && s.snapshot.value.account.revision == account.revision
  }

  predicate SavesDiffer(s: State, config: ConfigSnapshot)
    requires s.snapshot.Some?
  {
    SaveMap(s.snapshot.value.config.saveGenerations) != SaveMap(config.saveGenerations)
  }

  /** What those listeners find: a change event comes after its snapshot. */
  function HeardAt(s: State, step: Step): Gate {
    match step
    case SourcesRead(config, account, resolves, _) =>
      if resolves || Unchanged(s, config, account) then GateOf(s).(ready := true) else GateOf(s)
    case _ => GateOf(s)
  }

  function StepAsks(s: State, step: Step): seq<string> {
    match step
    case Called(call) => AsksAll(GateOf(s), [call])
    case _ => AsksAll(HeardAt(s, step), Heard(s, step))
  }

  /** The reasons of all requests made in a run, in order. */
  function Reasons(s: State, steps: seq<Step>): seq<string>
    requires Possible(s, steps)
    decreases |steps|
  {
    if steps == [] then [] else StepAsks(s, steps[0]) + Reasons(Next(s, steps[0]), steps[1..])
  }

  predicate Ledger(s: State, reasons: seq<string>) {
    |reasons| == s.requested && Recorded(reasons, s.waiters, s.settled)
  }

  lemma CallRecorded(s: State, call: Call, reasons: seq<string>)
    requires Ledger(s, reasons) && s.completed <= s.requested
    ensures
      var t := ApplyCall(s, call);
      && Ledger(t, reasons + match Asks(GateOf(s), call) case Some(reason) => [reason] case None => [])
      && t.completed <= t.requested
  {
    CallAsks(s, call);
    hide ApplyCall, Recorded, Asks;
    AppendLaws(reasons, [], []);
    match Asks(GateOf(s), call)
    case Some(reason) =>
      RequestRecorded(reasons, s.waiters, s.settled, Waiter(s.requested + 1, s.clock, reason));
      CompletedStays(s, call);
    case None =>
      DisposalRecorded(reasons, s.waiters, s.settled);
      CompletedStays(s, call);
  }

  lemma CompletedStays(s: State, call: Call)
    ensures ApplyCall(s, call).completed == s.completed
  {
  }

  lemma {:induction false} CallsRecorded(s: State, calls: seq<Call>, reasons: seq<string>)
    requires Ledger(s, reasons) && s.completed <= s.requested
    ensures Ledger(ApplyCalls(s, calls), reasons + AsksAll(GateOf(s), calls))
    decreases |calls|
  {
    hide ApplyCall, Asks, Passes, Ledger;
    AppendLaws(reasons, [], []);
    if calls != [] {
      var more := match Asks(GateOf(s), calls[0]) case Some(reason) => [reason] case None => [];
      CallRecorded(s, calls[0], reasons);
      CallAsks(s, calls[0]);
      CallsRecorded(ApplyCall(s, calls[0]), calls[1..], reasons + more);
      AppendLaws(reasons, more, AsksAll(Passes(GateOf(s), calls[0]), calls[1..]));
    }
  }

  lemma SettledRecorded(s: State, generation: nat, outcome: Option<Snapshot>, cause: Cause, reasons: seq<string>)
    requires Ledger(s, reasons)
    ensures Ledger(SettleUpTo(s, generation, outcome, cause), reasons)
  {
    SettlingRecorded(reasons, s.waiters, s.settled, generation, outcome, cause);
  }

  lemma PublishRecorded(s: State, round: Loop, snapshot: Snapshot, emits: bool, calls: seq<Call>, reasons: seq<string>)
    requires Ledger(s, reasons) && round.Reading? && round.generation <= s.requested
    ensures Ledger(Continue(Publish(s, round, snapshot, emits, calls), {}),
                   reasons + if emits then AsksAll(GateOf(s).(ready := true), calls) else [])
  {
    hide ApplyCalls, AsksAll, Recorded, Settle, Keep;
    var kept := Close(s, round.generation).(snapshot := Some(snapshot), viewRevision := snapshot.viewRevision);
    SettledRecorded(kept, round.generation, Some(snapshot), Round(round.beganAt), reasons);
    AppendLaws(reasons, [], []);
    if emits {
      CallsRecorded(Resolve(s, round, snapshot).(published := s.published
                      + [Publication(snapshot, round.reasons, round.beganAt, s.lastRequestAt)]), calls, reasons);
    }
  }

  lemma RejectRecorded(s: State, round: Loop, calls: seq<Call>, reasons: seq<string>)
    requires Ledger(s, reasons) && round.Reading? && round.generation <= s.requested
    ensures Ledger(RejectRound(s, round, calls), reasons + AsksAll(GateOf(s), calls))
  {
    hide ApplyCalls, AsksAll, Ledger;
    assert Ledger(Close(s, round.generation), reasons) by {
      ClosedRecorded(s, round.generation, reasons);
    }
    CallsRecorded(Close(s, round.generation), calls, reasons);
    var told := ApplyCalls(Close(s, round.generation), calls);
    SettledRecorded(told, round.generation, None, Round(round.beganAt), reasons + AsksAll(GateOf(s), calls));
  }

  lemma ClosedRecorded(s: State, generation: nat, reasons: seq<string>)
    requires Ledger(s, reasons)
    ensures Ledger(Close(s, generation), reasons)
  {
  }

  lemma KeptRecorded(s: State, round: Loop, reasons: seq<string>)
    requires Ledger(s, reasons) && round.Reading?
    ensures Ledger(ServeKept(s, round), reasons)
  {
    SettledRecorded(Close(s, round.generation), round.generation, s.snapshot, Retained(round.beganAt), reasons);
    hide Settle, Keep;
  }

  lemma ServeRecorded(
    s: State, round: Loop, config: ConfigSnapshot, account: AccountSnapshot, resolves: bool, calls: seq<Call>,
    reasons: seq<string>)
    requires Ledger(s, reasons) && round.Reading? && round.generation <= s.requested
    ensures
      var heard :=
        if account.basedOn == config.builtinRevision && (Unchanged(s, config, account) ==> SavesDiffer(s, config))
        then calls else [];
      var gate := if resolves || Unchanged(s, config, account) then GateOf(s).(ready := true) else GateOf(s);
      Ledger(ServeRound(s, round, config, account, resolves, calls), reasons + AsksAll(gate, heard))
  {
    hide Ledger, ServeKept, Publish, RejectRound, SaveMap, WithSaveGenerations, Continue;
    AppendLaws(reasons, [], []);
    if Mismatched(config, account) {
      KeptRecorded(s, round, reasons);
    } else if SameSources(s, config, account) {
      PublishRecorded(s, round, WithSaveGenerations(s.snapshot.value, config),
                      NewSaveGenerations(s.snapshot.value, config), calls, reasons);
    } else if resolves {
      PublishRecorded(s, round, Snapshot(config, account, s.viewRevision + 1), true, calls, reasons);
    } else {
      RejectRecorded(s, round, calls, reasons);
    }
  }

  lemma StepRecorded(s: State, step: Step, reasons: seq<string>)
    requires Inv(s) && Enabled(s, step) && Ledger(s, reasons)
    ensures Ledger(Next(s, step), reasons + StepAsks(s, step))
  {
    GenerationsOf(s);
    hide Inv, ServeRound, RejectRound, Settle, Keep, Recorded, ApplyCall, ApplyCalls, Asks, Passes;
    AppendLaws(reasons, [], []);
    match step
    case Called(call) =>
      CallRecorded(s, call, reasons);
      OneAsk(GateOf(s), call);
    case SourcesRead(config, account, resolves, calls) =>
      ServeRecorded(NoteRound(s, config, account), s.loop, config, account, resolves, calls, reasons);
    case SourcesFailed(calls) => RejectRecorded(s, s.loop, calls, reasons);
    case Finished => SettledRecorded(s, s.requested, None, Disposal, reasons);
  }

  lemma OneAsk(g: Gate, call: Call)
    ensures AsksAll(g, [call]) == match Asks(g, call) case Some(reason) => [reason] case None => []
  {
    hide Asks, Passes;
    assert [call][1..] == [];
  }

  lemma GenerationsOf(s: State)
    requires Inv(s)
    ensures s.completed <= s.requested && (s.loop.Reading? ==> s.loop.generation <= s.requested)
  {
  }

  lemma {:induction false} RunRecorded(s: State, steps: seq<Step>, reasons: seq<string>)
    requires Inv(s) && Possible(s, steps) && Ledger(s, reasons)
    ensures Ledger(Run(s, steps), reasons + Reasons(s, steps))
    decreases |steps|
  {
    hide Inv, Next, Ledger, StepAsks;
    AppendLaws(reasons, [], []);
    if steps != [] {
      StepRecorded(s, steps[0], reasons);
      InvNext(s, steps[0]);
      RunRecorded(Next(s, steps[0]), steps[1..], reasons + StepAsks(s, steps[0]));
      AppendLaws(reasons, StepAsks(s, steps[0]), Reasons(Next(s, steps[0]), steps[1..]));
    }
  }

  /**
   * In every run the requests are exactly those that calls asked for, listeners' calls included: as many, in
   * that order, each waiting or settled under its own reason.
   */
  lemma RequestsAreCalls(steps: seq<Step>)
    requires Possible(START, steps)
    ensures
      var s, reasons := Run(START, steps), Reasons(START, steps);
      && s.requested == |reasons|
      && (forall w :: w in s.waiters ==> RecordedAs(reasons, w))
      && (forall p :: p in s.settled ==> RecordedAs(reasons, p.waiter))
      && (forall g: nat :: 1 <= g <= |reasons| ==> IsWaiting(s.waiters, g) || IsSettled(s.settled, g))
  {
    InvStart();
    RunRecorded(START, steps, []);
    AppendLaws(Reasons(START, steps), [], []);
    NoLostRequest(steps);
    hide Possible, Run, Reasons;
  }

  /******* What becomes of a request *******/

  lemma {:induction false} DrainKeeps(s: State, config: ConfigSnapshot, account: AccountSnapshot, n: nat)
    requires Inv(s)
    ensures Inv(Drain(s, config, account, n))
    decreases n
  {
    hide Inv, ApplyRead, ApplyFinish;
    if n > 0 {
      if s.loop.Reading? {
        ReadKeeps(s, config, account, true, []);
      } else if !s.loop.Idle? {
        FinishKeeps(s);
      }
      DrainKeeps(LoopStep(s, config, account), config, account, n - 1);
    }
  }

  /** A settled request that was given what was read is settled by a read that began after it. */
  lemma FreshAnswer(s: State, p: Settlement<Snapshot>)
    requires Inv(s) && p in s.settled && p.cause.Round?
    ensures p.waiter.madeAt < p.cause.beganAt
  {
  }

  /**
   * A call that asks, made in any reachable state of a service that is then left alone while the sources
   * return matching snapshots: its request is answered by a read that began after the call, and the service
   * ends up with a snapshot that reflects what the sources return.
   */
  lemma ChangeIsServed(s: State, call: Call, config: ConfigSnapshot, account: AccountSnapshot)
    requires Inv(s) && Asks(GateOf(s), call).Some? && account.basedOn == config.builtinRevision
    ensures
      var reason := Asks(GateOf(s), call).value;
      var t := Drain(ApplyCall(s, call), config, account, 4);
      && t.loop.Idle? && t.waiters == []
      && t.snapshot.Some? && Reflects(t.snapshot.value, config, account)
      && exists p :: p in t.settled && p.waiter == Waiter(s.requested + 1, s.clock, reason)
           && p.cause.Round? && s.clock < p.cause.beganAt
           && p.outcome.Some? && Reflects(p.outcome.value, config, account)
  {
    GenerationsOf(s);
    CallAsks(s, call);
    var t := ApplyCall(s, call);
    assert Inv(t) by {
      InvNext(s, Called(call));
    }
    Quiesces(t, config, account);
    DrainKeeps(t, config, account, 4);
    hide Inv, ApplyCall, Drain, Reflects, Asks;
    var u := Drain(t, config, account, 4);
    var w := t.waiters[|s.waiters|];
    assert w in t.waiters && AnsweredFrom(u.settled, w, config, account);
    var p :| p in u.settled && p.waiter == w && p.cause.Round? && p.outcome.Some?
      && Reflects(p.outcome.value, config, account);
    FreshAnswer(u, p);
  }

  /** A round that fails, in reading or in resolving, and that nobody superseded rejects everybody who waited. */
  lemma FailureRejects(s: State, step: Step)
    requires Inv(s) && s.loop.Reading? && s.loop.generation == s.requested && !s.disposed
    requires step.SourcesFailed?
      || (step.SourcesRead? && !step.resolves && step.account.basedOn == step.config.builtinRevision
          && !Unchanged(s, step.config, step.account))
    ensures
      var t := Next(s, step);
      && t.snapshot == s.snapshot && t.published == s.published
      && forall w :: w in s.waiters ==> exists p :: p in t.settled && p.waiter == w && p.outcome.None?
  {
    var noted := if step.SourcesRead? then NoteRound(s, step.config, step.account) else s;
    WaitersAreRequested(s);
    hide Inv, Close, Settle, Keep;
    RejectedAll(noted, s.loop, step.calls);
  }

  lemma RejectedAll(s: State, round: Loop, calls: seq<Call>)
    requires round.Reading? && round.generation == s.requested && AllUpTo(s)
    ensures
      var t := RejectRound(s, round, calls);
      && t.snapshot == s.snapshot && t.published == s.published
      && forall w :: w in s.waiters ==> exists p :: p in t.settled && p.waiter == w && p.outcome.None?
  {
    var closed := Close(s, round.generation);
    var told := ApplyCalls(closed, calls);
    WaitingOrRejected(closed, calls);
    hide ApplyCalls, Keep;
    forall w | w in s.waiters
      ensures exists p :: p in RejectRound(s, round, calls).settled && p.waiter == w && p.outcome.None?
    {
      if w in told.waiters {
        var p := Settlement<Snapshot>.Settlement(w, None, Round(round.beganAt));
        SettleMember(told.waiters, round.generation, None, Round(round.beganAt), p);
        assert p in RejectRound(s, round, calls).settled;
      } else {
        var p :| p in told.settled && p.waiter == w && p.outcome.None?;
        assert p in RejectRound(s, round, calls).settled;
      }
    }
  }

  /** Calls leave everybody waiting or, when they dispose the service, rejected. */
  lemma {:induction false} WaitingOrRejected(s: State, calls: seq<Call>)
    ensures
      var t := ApplyCalls(s, calls);
      && t.snapshot == s.snapshot && t.published == s.published && s.settled <= t.settled
      && forall w :: w in s.waiters ==>
           w in t.waiters || exists p :: p in t.settled && p.waiter == w && p.outcome.None?
    decreases |calls|
  {
    if calls != [] {
      var m := ApplyCall(s, calls[0]);
      CallLeaves(s, calls[0]);
      WaitingOrRejected(m, calls[1..]);
      hide ApplyCall;
      forall w | w in s.waiters && w !in ApplyCalls(s, calls).waiters
        ensures exists p :: p in ApplyCalls(s, calls).settled && p.waiter == w && p.outcome.None?
      {
        if w !in m.waiters {
          var p :| p in m.settled && p.waiter == w && p.outcome.None?;
          assert p in ApplyCalls(s, calls).settled;
        }
      }
    }
  }

  lemma CallLeaves(s: State, call: Call)
    ensures
      var t := ApplyCall(s, call);
      && t.snapshot == s.snapshot && t.published == s.published && s.settled <= t.settled
      && forall w :: w in s.waiters ==>
           w in t.waiters || exists p :: p in t.settled && p.waiter == w && p.outcome.None?
  {
    if call.Dispose? && !s.disposed {
      forall w | w in s.waiters
        ensures exists p :: p in ApplyCall(s, call).settled && p.waiter == w && p.outcome.None?
      {
        var p := Settlement<Snapshot>.Settlement(w, None, Disposal);
        SettleAllMember(s.waiters, p);
        assert p in ApplyCall(s, call).settled;
      }
    }
  }

  /******* What subscribers know *******/

  /** The last change event carried the current snapshot. */
  predicate Announced(s: State) {
    s.snapshot.Some? ==> s.published != [] && s.published[|s.published| - 1].snapshot == s.snapshot.value
  }

  lemma PublishAnnounces(s: State, round: Loop, snapshot: Snapshot, emits: bool, calls: seq<Call>)
    requires Announced(s) && round.Reading? && (!emits ==> s.snapshot == Some(snapshot))
    ensures Announced(Continue(Publish(s, round, snapshot, emits, calls), {}))
  {
    hide Settle, Keep, ApplyCalls;
    if emits {
      WaitingOrRejected(Resolve(s, round, snapshot).(published := s.published
                          + [Publication(snapshot, round.reasons, round.beganAt, s.lastRequestAt)]), calls);
    }
  }

  lemma AnnouncedNext(s: State, step: Step)
    requires Announced(s) && Enabled(s, step)
    ensures Announced(Next(s, step))
  {
    hide Publish, Settle, Keep, ApplyCalls;
    match step
    case Called(call) => CallLeaves(s, call);
    case SourcesRead(config, account, resolves, calls) =>
      var n := NoteRound(s, config, account);
      WaitingOrRejected(Close(n, s.loop.generation), calls);
      if SameSources(n, config, account) {
        PublishAnnounces(n, s.loop, WithSaveGenerations(s.snapshot.value, config),
                         NewSaveGenerations(s.snapshot.value, config), calls);
      }
      PublishAnnounces(n, s.loop, Snapshot(config, account, s.viewRevision + 1), true, calls);
    case SourcesFailed(calls) => WaitingOrRejected(Close(s, s.loop.generation), calls);
    case Finished =>
  }

  lemma {:induction false} AnnouncedRun(s: State, steps: seq<Step>)
    requires Announced(s) && Possible(s, steps)
    ensures Announced(Run(s, steps))
    decreases |steps|
  {
    hide Announced, Next;
    if steps != [] {
      AnnouncedNext(s, steps[0]);
      AnnouncedRun(Next(s, steps[0]), steps[1..]);
    }
  }

  /** In every run: whoever listens for changes has been told the current snapshot, and last of all. */
  lemma SubscribersAreCurrent(steps: seq<Step>)
    requires Possible(START, steps)
    ensures
      var s := Run(START, steps);
      s.snapshot.Some? ==> s.published != [] && s.published[|s.published| - 1].snapshot == s.snapshot.value
  {
    AnnouncedRun(START, steps);
  }
}
