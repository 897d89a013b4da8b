/**
 * What the calls into the account provider service ask for, what has become of it when the service is left
 * alone, and what its snapshots entitle to.
 */
module AccountRequests {
  import opened Common
  import opened RefreshWaiters
  import opened AccountRefresh
  import AccountReads

  /******* Which calls make a request *******/

  /** What a call finds: whether the service was started, disposed, has a snapshot, and has no loop in flight. */
  datatype Gate = Gate(started: bool, disposed: bool, ready: bool, idle: bool)

  function GateOf(s: State): Gate {
    Gate(s.started, s.disposed, s.snapshot.Some?, s.loop.Idle?)
  }

  /** The reason of the request that a call makes, if it makes one. */
  function Asks(g: Gate, call: Call): Option<string> {
    if g.disposed then None
    else
      match call
      case Read => if g.ready || !g.idle then None else Some("start")
      case Refresh(reason) => Some(reason)
      case ConfigChanged(reason) =>
        if !g.started then None else if reason == "" then Some("config:changed") else Some("config:" + reason)
      case Dispose => None
  }

  function Passes(g: Gate, call: Call): Gate {
    if g.disposed then g
    else if call.Dispose? then g.(disposed := true)
    else g.(started := g.started || !call.ConfigChanged?, idle := g.idle && Asks(g, call).None?)
  }

  function AsksAll(g: Gate, calls: seq<Call>): seq<string>
    decreases |calls|
  {
    if calls == [] then []
    else
      (match Asks(g, calls[0]) case Some(reason) => [reason] case None => [])
      + AsksAll(Passes(g, calls[0]), calls[1..])
  }

  /**
   * A call that asks adds one waiter, with the next number, the moment and the reason: an idle service begins
   * a round for it, and a round in flight will be followed by another. Any other call adds none.
   */
  lemma CallAsks(s: State, call: Call)
    requires s.loop.Idle? ==> s.snapshot.Some? || s.pendingReasons == {}
    ensures
      var t := ApplyCall(s, call);
      && GateOf(t) == Passes(GateOf(s), call)
      && match Asks(GateOf(s), call)
         case Some(reason) =>
           && t.requested == s.requested + 1
           && t.waiters == s.waiters + [Waiter(s.requested + 1, s.clock, reason)]
           && t.lastRequestAt == s.clock < t.clock
           && (if s.loop.Idle? then t.loop.ReadingConfig? && reason in t.loop.round.reasons
               else t.loop == s.loop && reason in t.pendingReasons)
           && t.settled == s.settled && t.snapshot == s.snapshot && !t.disposed
         case None =>
           && t.requested == s.requested && t.loop == s.loop && t.clock == s.clock && t.lastRequestAt == s.lastRequestAt
           && t.pendingReasons == s.pendingReasons
           && (if call.Dispose? && !s.disposed then t.waiters == [] && t.settled == s.settled + SettleAll(s.waiters)
               else t.waiters == s.waiters && t.settled == s.settled)
  {
    assert "config:" + "changed" == "config:changed";
  }

  /******* The record of a run *******/

  /** The calls that listeners make in a step: an error event, or the event of a snapshot that replaces another. */
  function Heard(s: State, step: Step): seq<Call> {
    match step
    case AwaitFailed(calls) => calls
    case RecheckArrived(current, calls) =>
      if s.loop.Rechecking? && !s.disposed && s.pendingReasons == {} && s.snapshot.Some?
         && current.builtinRevision == s.loop.config.builtinRevision
         && s.snapshot.value != Snapshot(s.loop.config.builtinRevision, s.loop.resolution)
      then calls else []
    case _ => []
  }

  function StepAsks(s: State, step: Step): seq<string> {
    match step
    case Called(call) => AsksAll(GateOf(s), [call])
    case _ => AsksAll(GateOf(s), Heard(s, step))
  }

  /** The reasons of all requests made in a run, in order. */
  function Reasons(s: State, steps: seq<Step>): seq<string>
    requires Possible(s, steps)
    decreases |steps|
  {
    if steps == [] then [] else StepAsks(s, steps[0]) + Reasons(Next(s, steps[0]), steps[1..])
  }

  predicate Ledger(s: State, reasons: seq<string>) {
    |reasons| == s.requested && Recorded(reasons, s.waiters, s.settled)
  }

  lemma CallRecorded(s: State, call: Call, reasons: seq<string>)
    requires Ledger(s, reasons) && (s.loop.Idle? ==> s.snapshot.Some? || s.pendingReasons == {})
    ensures
      Ledger(ApplyCall(s, call), reasons + match Asks(GateOf(s), call) case Some(reason) => [reason] case None => [])
  {
    CallAsks(s, call);
    hide ApplyCall, Recorded, Asks;
    AppendLaws(reasons, [], []);
    match Asks(GateOf(s), call)
    case Some(reason) =>
      RequestRecorded(reasons, s.waiters, s.settled, Waiter(s.requested + 1, s.clock, reason));
    case None =>
      DisposalRecorded(reasons, s.waiters, s.settled);
  }

  lemma {:induction false} CallsRecorded(s: State, calls: seq<Call>, reasons: seq<string>)
    requires Ledger(s, reasons) && !s.loop.Idle?
    ensures Ledger(ApplyCalls(s, calls), reasons + AsksAll(GateOf(s), calls))
    decreases |calls|
  {
    hide ApplyCall, Asks, Ledger;
    AppendLaws(reasons, [], []);
    if calls != [] {
      var more := match Asks(GateOf(s), calls[0]) case Some(reason) => [reason] case None => [];
      CallRecorded(s, calls[0], reasons);
      CallAsks(s, calls[0]);
      CallsRecorded(ApplyCall(s, calls[0]), calls[1..], reasons + more);
      AppendLaws(reasons, more, AsksAll(Passes(GateOf(s), calls[0]), calls[1..]));
    }
  }

  lemma SettledRecorded(s: State, generation: nat, outcome: Option<Snapshot>, cause: Cause, reasons: seq<string>)
    requires Ledger(s, reasons)
    ensures Ledger(SettleUpTo(s, generation, outcome, cause), reasons)
  {
    SettlingRecorded(reasons, s.waiters, s.settled, generation, outcome, cause);
  }

  lemma ErrorRecorded(s: State, config: Option<Config>, calls: seq<Call>, reasons: seq<string>)
    requires Ledger(s, reasons) && InRound(s.loop)
    ensures Ledger(HandleError(s, s.loop.round, config, calls), reasons + AsksAll(GateOf(s), calls))
  {
    hide ApplyCalls, AsksAll, Recorded, Settle, Keep, FailClosed;
    var closed := Close(s, s.loop.round, Failed(config));
    CallsRecorded(closed, calls, reasons);
    var told := ApplyCalls(closed, calls);
    var generation, cause := s.loop.round.generation, Round(s.loop.round.beganAt);
    SettledRecorded(told, generation, None, cause, reasons + AsksAll(GateOf(s), calls));
    if config.Some? {
      var snapshot := FailClosed(config.value);
      SettledRecorded(Adopt(told, s.loop.round, snapshot, true), generation, Some(snapshot), cause,
                      reasons + AsksAll(GateOf(s), calls));
    }
  }

  lemma {:induction false} AsksNothing(g: Gate, calls: seq<Call>)
    requires g.disposed
    ensures AsksAll(g, calls) == []
    decreases |calls|
  {
    if calls != [] {
      AsksNothing(g, calls[1..]);
    }
  }

  lemma RecheckRecorded(s: State, current: Config, calls: seq<Call>, reasons: seq<string>)
    requires Ledger(s, reasons) && s.loop.Rechecking?
    ensures Ledger(Recheck(s, current, calls), reasons + AsksAll(GateOf(s), Heard(s, RecheckArrived(current, calls))))
  {
    hide ApplyCalls, Recorded, Settle, Keep, HandleError, Asks, Passes;
    AppendLaws(reasons, [], []);
    var round, next := s.loop.round, Snapshot(s.loop.config.builtinRevision, s.loop.resolution);
    var closed := Close(s, round, Checked(s.loop.config, s.loop.resolution, current));
    if s.disposed {
      ErrorRecorded(s, Some(s.loop.config), calls, reasons);
      AsksNothing(GateOf(s), calls);
    } else {
      SettledRecorded(closed, round.generation, Some(next), Round(round.beganAt), reasons);
      SettledRecorded(Adopt(closed, round, next, false), round.generation, Some(next), Round(round.beganAt), reasons);
      CallsRecorded(SettleUpTo(Adopt(closed, round, next, false), round.generation, Some(next), Round(round.beganAt)),
                    calls, reasons);
    }
  }

  lemma StepRecorded(s: State, step: Step, reasons: seq<string>)
    requires Inv(s) && Enabled(s, step) && Ledger(s, reasons)
    ensures Ledger(Next(s, step), reasons + StepAsks(s, step))
  {
    IdleOwesNothing(s);
    hide Inv, Recheck, HandleError, Recorded, ApplyCall, Asks, Passes;
    AppendLaws(reasons, [], []);
    match step
    case Called(call) =>
      OneAsk(GateOf(s), call);
      if !s.disposed || !s.loop.Idle? {
        CallRecorded(s, call, reasons);
      } else {
        DisposedStays(s, call, reasons);
      }
    case ConfigArrived(_) =>
    case ProvidersArrived(_, calls) =>
      if s.disposed {
        ErrorRecorded(s, Some(s.loop.config), calls, reasons);
        AsksNothing(GateOf(s), calls);
      }
    case RecheckArrived(current, calls) => RecheckRecorded(s, current, calls, reasons);
    case AwaitFailed(calls) => ErrorRecorded(s, KnownConfig(s.loop), calls, reasons);
    case Finished =>
  }

  lemma OneAsk(g: Gate, call: Call)
    ensures AsksAll(g, [call]) == match Asks(g, call) case Some(reason) => [reason] case None => []
  {
    hide Asks, Passes;
    assert [call][1..] == [];
  }

  lemma DisposedStays(s: State, call: Call, reasons: seq<string>)
    requires s.disposed
    ensures ApplyCall(s, call) == s && Asks(GateOf(s), call).None?
  {
  }

  lemma IdleOwesNothing(s: State)
    requires Inv(s)
    ensures s.loop.Idle? && !s.disposed ==> s.pendingReasons == {} && s.waiters == []
  {
  }

  lemma {:induction false} RunRecorded(s: State, steps: seq<Step>, reasons: seq<string>)
    requires Inv(s) && Possible(s, steps) && Ledger(s, reasons)
    ensures Ledger(Run(s, steps), reasons + Reasons(s, steps))
    decreases |steps|
  {
    hide Inv, Next, Ledger, StepAsks;
    AppendLaws(reasons, [], []);
    if steps != [] {
      StepRecorded(s, steps[0], reasons);
      InvNext(s, steps[0]);
      RunRecorded(Next(s, steps[0]), steps[1..], reasons + StepAsks(s, steps[0]));
      AppendLaws(reasons, StepAsks(s, steps[0]), Reasons(Next(s, steps[0]), steps[1..]));
    }
  }

  /**
   * In every run the requests are exactly those that calls asked for, listeners' calls included: as many, in
   * that order, each waiting or settled under its own reason.
   */
  lemma RequestsAreCalls(steps: seq<Step>)
    requires Possible(START, steps)
    ensures
      var s, reasons := Run(START, steps), Reasons(START, steps);
      && s.requested == |reasons|
      && (forall w :: w in s.waiters ==> RecordedAs(reasons, w))
      && (forall p :: p in s.settled ==> RecordedAs(reasons, p.waiter))
      && (forall g: nat :: 1 <= g <= |reasons| ==> IsWaiting(s.waiters, g) || IsSettled(s.settled, g))
  {
    InvStart();
    RunRecorded(START, steps, []);
    AppendLaws(Reasons(START, steps), [], []);
    NoLostRequest(steps);
    hide Possible, Run, Reasons;
  }

  /******* Reads that share a loop *******/

  /** A first read that finds a loop in flight, which makes no request. */
  predicate Shares(g: Gate, call: Call) {
    call.Read? && !g.disposed && !g.ready && !g.idle
  }

  function SharesAll(g: Gate, calls: seq<Call>): nat
    decreases |calls|
  {
    if calls == [] then 0 else (if Shares(g, calls[0]) then 1 else 0) + SharesAll(Passes(g, calls[0]), calls[1..])
  }

  function SharesOf(s: State, steps: seq<Step>): nat
    requires Possible(s, steps)
    decreases |steps|
  {
    if steps == [] then 0
    else
      (if steps[0].Called? then SharesAll(GateOf(s), [steps[0].call]) else SharesAll(GateOf(s), Heard(s, steps[0])))
      + SharesOf(Next(s, steps[0]), steps[1..])
  }

  lemma {:induction false} ListenersShare(s: State, calls: seq<Call>)
    requires !s.loop.Idle?
    ensures |AccountReads.Joins(s, calls)| == SharesAll(GateOf(s), calls)
    decreases |calls|
  {
    hide ApplyCall, Passes;
    if calls != [] {
      CallAsks(s, calls[0]);
      StillInFlight(s, calls[0]);
      ListenersShare(ApplyCall(s, calls[0]), calls[1..]);
    }
  }

  lemma StillInFlight(s: State, call: Call)
    requires !s.loop.Idle?
    ensures !ApplyCall(s, call).loop.Idle?
  {
  }

  lemma {:induction false} NobodyShares(g: Gate, calls: seq<Call>)
    requires g.disposed || g.ready
    ensures SharesAll(g, calls) == 0
    decreases |calls|
  {
    if calls != [] {
      NobodyShares(Passes(g, calls[0]), calls[1..]);
    }
  }

  lemma StepShares(w: AccountReads.Service, step: Step)
    requires Inv(w.state) && AccountReads.Ready(w, step)
    ensures AccountReads.NextService(w, step).joins == w.joins
      + (if step.Called? then SharesAll(GateOf(w.state), [step.call])
         else SharesAll(GateOf(w.state), Heard(w.state, step)))
  {
    hide Inv, Next, Asks, Passes;
    var s := w.state;
    match step
    case Called(call) =>
      assert [call][1..] == [];
    case ConfigArrived(_) =>
    case Finished =>
    case ProvidersArrived(_, calls) =>
      ListenersShare(Close(s, s.loop.round, Failed(KnownConfig(s.loop))), calls);
      NobodyShares(GateOf(s).(disposed := true), calls);
    case RecheckArrived(_, calls) =>
      ListenersShare(Close(s, s.loop.round, Failed(KnownConfig(s.loop))), calls);
      NobodyShares(GateOf(s).(disposed := true), calls);
      if s.snapshot.Some? {
        NobodyShares(GateOf(s), calls);
      }
    case AwaitFailed(calls) =>
      ListenersShare(Close(s, s.loop.round, Failed(KnownConfig(s.loop))), calls);
  }

  lemma {:induction false} RunShares(w: AccountReads.Service, steps: seq<Step>)
    requires Inv(w.state) && AccountReads.PossibleReads(w, steps) && Possible(w.state, steps)
    ensures AccountReads.RunReads(w, steps).joins == w.joins + SharesOf(w.state, steps)
    decreases |steps|
  {
    hide Inv, Next, Enabled, AccountReads.NextService, SharesAll, Heard;
    if steps != [] {
      StepShares(w, steps[0]);
      InvNext(w.state, steps[0]);
      SameState(w, steps[0]);
      RunShares(AccountReads.NextService(w, steps[0]), steps[1..]);
    }
  }

  lemma SameState(w: AccountReads.Service, step: Step)
    requires AccountReads.Ready(w, step)
    ensures AccountReads.NextService(w, step).state == Next(w.state, step)
  {
    hide Next, AccountReads.ListenerJoins;
  }

  lemma {:induction false} ReadsArePossible(w: AccountReads.Service, steps: seq<Step>)
    requires AccountReads.PossibleReads(w, steps)
    ensures Possible(w.state, steps)
    decreases |steps|
  {
    hide Next, Enabled, AccountReads.NextService;
    if steps != [] {
      SameState(w, steps[0]);
      ReadsArePossible(AccountReads.NextService(w, steps[0]), steps[1..]);
    }
  }

  /** In every run the reads that share a loop are exactly the first reads that find one, listeners' reads included. */
  lemma SharedReadsAreCalls(steps: seq<Step>)
    requires AccountReads.PossibleReads(AccountReads.NEW_SERVICE, steps)
    ensures Possible(START, steps)
    ensures
      var w := AccountReads.RunReads(AccountReads.NEW_SERVICE, steps);
      |w.joiners| + |w.answers| == SharesOf(START, steps)
  {
    InvStart();
    ReadsArePossible(AccountReads.NEW_SERVICE, steps);
    RunShares(AccountReads.NEW_SERVICE, steps);
    AccountReads.SharedReadsSettle(steps);
    hide Possible, SharesOf, AccountReads.RunReads, AccountReads.PossibleReads;
  }

  /******* What becomes of a request *******/

  /** What a round that reads `config` twice and is given `resolution` leads to, from here on. */
  predicate LeadsTo(s: State, config: Config, resolution: Resolution) {
    match s.loop
    case Idle => s.snapshot == Some(Snapshot(config.builtinRevision, resolution))
    case ReadingConfig(_) => true
    case Resolving(_, known) => s.pendingReasons != {} || known == config
    case Rechecking(_, known, resolved) =>
      s.pendingReasons != {} || (known.builtinRevision == config.builtinRevision && resolved == resolution)
    case Closing => s.pendingReasons != {} || s.snapshot == Some(Snapshot(config.builtinRevision, resolution))
    case Unready => false
  }

  lemma LeadsOn(s: State, config: Config, resolution: Resolution)
    requires LeadsTo(s, config, resolution) && !s.disposed
    ensures LeadsTo(LoopStep(s, config, resolution), config, resolution)
  {
    hide Recheck, HandleError;
    if s.loop.Rechecking? {
      RecheckLeads(s, config, resolution);
    }
  }

  lemma RecheckLeads(s: State, config: Config, resolution: Resolution)
    requires LeadsTo(s, config, resolution) && !s.disposed && s.loop.Rechecking?
    ensures LeadsTo(Recheck(s, config, []), config, resolution)
  {
    hide Settle, Keep, HandleError;
  }

  lemma {:induction false} DrainLeads(s: State, config: Config, resolution: Resolution, n: nat)
    requires Inv(s) && !s.disposed && LeadsTo(s, config, resolution)
    ensures Inv(Drain(s, config, resolution, n)) && LeadsTo(Drain(s, config, resolution, n), config, resolution)
    decreases n
  {
    hide Inv, LeadsTo, LoopStep;
    if n > 0 {
      LeadsOn(s, config, resolution);
      if s.loop.Idle? {
        IdleStays(s, config, resolution);
      } else {
        LoopStepAnswers(s, config, resolution);
      }
      DrainLeads(LoopStep(s, config, resolution), config, resolution, n - 1);
    }
  }

  lemma FreshAnswer(s: State, p: Settlement<Snapshot>)
    requires Inv(s) && p in s.settled && p.outcome.Some?
    ensures p.cause.Round? && p.waiter.madeAt < p.cause.beganAt
  {
  }

  /**
   * A call that asks, made in any reachable state of a service that is then left alone: its request is
   * answered by a round that began after the call, and the service ends up with exactly the snapshot of what
   * its config and its resolver return.
   */
  lemma ChangeIsServed(s: State, call: Call, config: Config, resolution: Resolution)
    requires Inv(s) && Asks(GateOf(s), call).Some?
    ensures
      var reason := Asks(GateOf(s), call).value;
      var t := Drain(ApplyCall(s, call), config, resolution, 7);
      && t.loop.Idle? && t.waiters == []
      && t.snapshot == Some(Snapshot(config.builtinRevision, resolution))
      && exists p :: p in t.settled && p.waiter == Waiter(s.requested + 1, s.clock, reason)
           && p.cause.Round? && s.clock < p.cause.beganAt
           && p.outcome.Some? && p.outcome.value.basedOn == config.builtinRevision
  {
    IdleOwesNothing(s);
    NeverUnready(s);
    CallAsks(s, call);
    var t := ApplyCall(s, call);
    assert Inv(t) by {
      InvNext(s, Called(call));
    }
    Quiesces(t, config, resolution);
    DrainLeads(t, config, resolution, 7);
    hide Inv, ApplyCall, Drain, Asks;
    var u := Drain(t, config, resolution, 7);
    var w := t.waiters[|s.waiters|];
    assert w in t.waiters && AnsweredFrom(u.settled, w, config);
    var p :| p in u.settled && p.waiter == w && p.outcome.Some? && p.outcome.value.basedOn == config.builtinRevision;
    FreshAnswer(u, p);
  }

  /******* Failing closed *******/

  /** Exactly the account providers of `config`, none of them entitled, and no account states. */
  ghost predicate EntitlesNobody(snapshot: Snapshot, config: Config) {
    && snapshot.basedOn == config.builtinRevision
    && snapshot.resolution.states.None?
    && (forall p :: p in snapshot.resolution.entitled <==> p in config.accountProviders && config.accountProviders[p])
    && (forall p :: p in snapshot.resolution.entitled ==> !snapshot.resolution.entitled[p])
  }

  predicate Entitles(snapshot: Snapshot, p: string) {
    p in snapshot.resolution.entitled && snapshot.resolution.entitled[p]
  }

  /** Which observation stands behind an adopted or handed out snapshot. */
  lemma HistorySupports(s: State)
    requires Inv(s)
    ensures forall a :: a in s.adopted ==> a.beganAt in s.rounds && Supports(s.rounds[a.beganAt], a.snapshot)
    ensures forall a :: a in s.adopted ==> a.failClosed == s.rounds[a.beganAt].Failed?
    ensures forall p :: p in s.settled && p.outcome.Some? ==>
      p.cause.Round? && p.cause.beganAt in s.rounds && Supports(s.rounds[p.cause.beganAt], p.outcome.value)
    ensures s.snapshot.Some? ==> exists a :: a in s.adopted && a.snapshot == s.snapshot.value
  {
    forall a | a in s.adopted
      ensures a.beganAt in s.rounds && Supports(s.rounds[a.beganAt], a.snapshot)
      ensures a.failClosed == s.rounds[a.beganAt].Failed?
    {
      var i: nat :| i < |s.adopted| && s.adopted[i] == a;
      assert FreshAdoption(s.rounds, s.adopted, i);
    }
  }

  /**
   * In every run, whatever comes of a failed round - the first snapshot, or the outcome of a promise - lists
   * exactly the account providers of the config that round had read, and entitles none of them.
   */
  lemma FailsClosed(steps: seq<Step>)
    requires Possible(START, steps)
    ensures
      var s := Run(START, steps);
      && (forall a :: a in s.adopted && a.failClosed ==>
            && a.beganAt in s.rounds && s.rounds[a.beganAt].Failed? && s.rounds[a.beganAt].known.Some?
            && EntitlesNobody(a.snapshot, s.rounds[a.beganAt].known.value))
      && (forall p :: p in s.settled && p.outcome.Some? ==>
            && p.cause.Round? && p.cause.beganAt in s.rounds
            && (s.rounds[p.cause.beganAt].Failed? ==>
                  && s.rounds[p.cause.beganAt].known.Some?
                  && EntitlesNobody(p.outcome.value, s.rounds[p.cause.beganAt].known.value)))
  {
    InvStart();
    InvRun(START, steps);
    HistorySupports(Run(START, steps));
    hide Inv, Run, Possible;
  }

  /** `p` was entitled by what some round resolved and then checked. */
  predicate EntitledByRound(rounds: map<nat, Observed>, b: nat, p: string) {
    && b in rounds && rounds[b].Checked?
    && p in rounds[b].resolution.entitled && rounds[b].resolution.entitled[p]
  }

  /**
   * In every run nobody is entitled before a round was checked: the current snapshot, every snapshot before it
   * and every snapshot handed out entitle only to what the resolution of such a round does.
   */
  lemma NobodyIsEntitledUnchecked(steps: seq<Step>, p: string)
    requires Possible(START, steps)
    ensures
      var s := Run(START, steps);
      && (forall a :: a in s.adopted && Entitles(a.snapshot, p) ==> EntitledByRound(s.rounds, a.beganAt, p))
      && (forall q :: q in s.settled && q.outcome.Some? && Entitles(q.outcome.value, p) ==>
            q.cause.Round? && EntitledByRound(s.rounds, q.cause.beganAt, p))
      && (s.snapshot.Some? && Entitles(s.snapshot.value, p) ==> exists b :: EntitledByRound(s.rounds, b, p))
  {
    InvStart();
    InvRun(START, steps);
    HistorySupports(Run(START, steps));
    hide Inv, Run, Possible;
  }
}
