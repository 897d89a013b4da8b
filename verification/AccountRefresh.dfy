/**
 * The account provider service as a state machine. A round reads the config, resolves the account's
 * providers and reads the config again; each of the three awaits ends a step.
 */
module AccountRefresh {
  import opened Common
  import opened RefreshWaiters

  /******* State *******/

  /** `accountProviders` says of each built-in provider whether its access is that of an account. */
  datatype Config = Config(builtinRevision: string, accountProviders: map<string, bool>)

  /** What the resolver returns: which providers are entitled, and the account states. */
  datatype Resolution = Resolution(entitled: map<string, bool>, states: Option<string>)

  /** Two snapshots have the same revision exactly when they are equal. */
  datatype Snapshot = Snapshot(basedOn: string, resolution: Resolution)

  datatype Attempt = Attempt(generation: nat, reasons: set<string>, beganAt: nat)

  /**
   * `Closing` is a loop past its last await, whichever way it ends; `Unready` is its last statement, the
   * exception for a service that has no snapshot yet.
   */
  datatype Loop =
    | Idle
    | ReadingConfig(round: Attempt)
    | Resolving(round: Attempt, config: Config)
    | Rechecking(round: Attempt, config: Config, resolution: Resolution)
    | Closing
    | Unready

  /** How a round ended: checked against a second config, or with an error after at most one config. */
  datatype Observed = Checked(config: Config, resolution: Resolution, recheck: Config) | Failed(known: Option<Config>)

  /** An assignment of the snapshot, and whether it is announced as a change. */
  datatype Adoption = Adoption(snapshot: Snapshot, beganAt: nat, lastRequestAt: nat, failClosed: bool, announced: bool)

  datatype State = State(
    started: bool,
    requested: nat,
    waiters: seq<Waiter>,
    snapshot: Option<Snapshot>,
    pendingReasons: set<string>,
    loop: Loop,
    disposed: bool,
    settled: seq<Settlement<Snapshot>>,
    adopted: seq<Adoption>,
    rounds: map<nat, Observed>,
    clock: nat,
    lastRequestAt: nat)

  const START := State(false, 0, [], None, {}, Idle, false, [], [], map[], 1, 0)

  datatype Call = Read | Refresh(reason: string) | ConfigChanged(reason: string) | Dispose

  /** `calls` are what the listeners of an emitted event call back. */
  datatype Step =
    | Called(call: Call)
    | ConfigArrived(config: Config)
    | ProvidersArrived(resolution: Resolution, calls: seq<Call>)
    | RecheckArrived(config: Config, calls: seq<Call>)
    | AwaitFailed(calls: seq<Call>)
    | Finished

  predicate InRound(loop: Loop) {
    loop.ReadingConfig? || loop.Resolving? || loop.Rechecking?
  }

  /******* Steps *******/

  function Begin(s: State): State {
    s.(loop := ReadingConfig(Attempt(s.requested, s.pendingReasons, s.clock)),
       pendingReasons := {},
       clock := s.clock + 1)
  }

  function Continue(s: State): State {
    if s.pendingReasons != {} then Begin(s)
    else s.(loop := if s.snapshot.Some? then Closing else Unready)
  }

  function AddRequest(s: State, reason: string): State {
    s.(requested := s.requested + 1,
       pendingReasons := s.pendingReasons + {reason},
       waiters := s.waiters + [Waiter(s.requested + 1, s.clock, reason)],
       lastRequestAt := s.clock,
       clock := s.clock + 1)
  }

  function Requesting(s: State, reason: string): State {
    if s.loop.Idle? then Continue(AddRequest(s, reason)) else AddRequest(s, reason)
  }

  function DisposeAll(s: State): State {
    s.(disposed := true, waiters := [], settled := s.settled + SettleAll(s.waiters))
  }

  function ConfigReason(reason: string): string {
    "config:" + if reason == "" then "changed" else reason
  }

  /** A first read while a round is in flight joins that round instead of asking for another. */
  function ApplyCall(s: State, call: Call): State {
    if s.disposed then s
    else
      match call
      case Read =>
        var started := s.(started := true);
        if s.snapshot.Some? || !s.loop.Idle? then started else Requesting(started, "start")
      case Refresh(reason) => Requesting(s.(started := true), reason)
      case ConfigChanged(reason) => if s.started then Requesting(s, ConfigReason(reason)) else s
      case Dispose => DisposeAll(s)
  }

  function ApplyCalls(s: State, calls: seq<Call>): State
    decreases |calls|
  {
    if calls == [] then s else ApplyCalls(ApplyCall(s, calls[0]), calls[1..])
  }

  function SettleUpTo(s: State, generation: nat, outcome: Option<Snapshot>, cause: Cause): State {
    s.(waiters := Keep(s.waiters, generation), settled := s.settled + Settle(s.waiters, generation, outcome, cause))
  }

  function Close(s: State, round: Attempt, observed: Observed): State {
    s.(loop := Closing, rounds := s.rounds[round.beganAt := observed])
  }

  /** The snapshot for an account nothing is known about: its providers are there and not entitled. */
  function FailClosed(config: Config): Snapshot {
    Snapshot(config.builtinRevision,
             Resolution(map p | p in config.accountProviders && config.accountProviders[p] :: false, None))
  }

  function Adopt(s: State, round: Attempt, snapshot: Snapshot, failClosed: bool): State {
    s.(snapshot := Some(snapshot),
       adopted := s.adopted
         + [Adoption(snapshot, round.beganAt, s.lastRequestAt, failClosed, !failClosed && s.snapshot.Some?)])
  }

  /** The catch block: the first failure that knows a config adopts a fail-closed snapshot. */
  function HandleError(s: State, round: Attempt, config: Option<Config>, calls: seq<Call>): State {
    var told := ApplyCalls(Close(s, round, Failed(config)), calls);
    if told.snapshot.None? && config.Some? then
      var snapshot := FailClosed(config.value);
      Continue(SettleUpTo(Adopt(told, round, snapshot, true), round.generation, Some(snapshot),
                          Round(round.beganAt)))
    else
      SettleUpTo(told, round.generation, None, Round(round.beganAt))
  }

  predicate Superseded(s: State)
    requires InRound(s.loop)
  {
    s.pendingReasons != {}
  }

  function Recheck(s: State, current: Config, calls: seq<Call>): State
    requires s.loop.Rechecking?
  {
    var round, config := s.loop.round, s.loop.config;
    var closed := Close(s, round, Checked(config, s.loop.resolution, current));
    if s.disposed then HandleError(s, round, Some(config), calls)
    else if Superseded(s) || current.builtinRevision != config.builtinRevision then
      Continue(closed.(pendingReasons := closed.pendingReasons + {"superseded-resolution"}))
    else
      var next := Snapshot(config.builtinRevision, s.loop.resolution);
      if s.snapshot == Some(next) then
        Continue(SettleUpTo(closed, round.generation, Some(next), Round(round.beganAt)))
      else
        var resolved := SettleUpTo(Adopt(closed, round, next, false), round.generation, Some(next),
                                   Round(round.beganAt));
        Continue(if s.snapshot.Some? then ApplyCalls(resolved, calls) else resolved)
  }

  function Finish(s: State): State {
    var idle := s.(loop := Idle);
    if s.disposed || s.pendingReasons == {} then idle else Continue(idle)
  }

  predicate Enabled(s: State, step: Step) {
    match step
    case Called(_) => true
    case ConfigArrived(_) => s.loop.ReadingConfig?
    case ProvidersArrived(_, _) => s.loop.Resolving?
    case RecheckArrived(_, _) => s.loop.Rechecking?
    case AwaitFailed(_) => InRound(s.loop)
    case Finished => s.loop.Closing? || s.loop.Unready?
  }

  /** The config that the catch block sees when the current await fails. */
  function KnownConfig(loop: Loop): Option<Config>
    requires InRound(loop)
  {
    if loop.ReadingConfig? then None else Some(loop.config)
  }

  function ArriveProviders(s: State, resolution: Resolution, calls: seq<Call>): State
    requires s.loop.Resolving?
  {
    if s.disposed then HandleError(s, s.loop.round, Some(s.loop.config), calls)
    else s.(loop := Rechecking(s.loop.round, s.loop.config, resolution))
  }

  function Next(s: State, step: Step): State
    requires Enabled(s, step)
  {
    match step
    case Called(call) => ApplyCall(s, call)
    case ConfigArrived(config) => s.(loop := Resolving(s.loop.round, config))
    case ProvidersArrived(resolution, calls) => ArriveProviders(s, resolution, calls)
    case RecheckArrived(config, calls) => Recheck(s, config, calls)
    case AwaitFailed(calls) => HandleError(s, s.loop.round, KnownConfig(s.loop), calls)
    case Finished => Finish(s)
  }

  predicate Possible(s: State, steps: seq<Step>)
    decreases |steps|
  {
    steps == [] || (Enabled(s, steps[0]) && Possible(Next(s, steps[0]), steps[1..]))
  }

  function Run(s: State, steps: seq<Step>): State
    requires Possible(s, steps)
    decreases |steps|
  {
    if steps == [] then s else Run(Next(s, steps[0]), steps[1..])
  }

  /******* Invariant *******/

  /**
   * The pending reasons are nonempty exactly when somebody asked since the round began; a service with
   * nothing in flight owes nothing; and the loop never ends without a snapshot.
   */
  predicate Shape(s: State) {
    && (InRound(s.loop) ==> s.loop.round.generation <= s.requested)
    && (InRound(s.loop) ==> (s.pendingReasons == {} <==> s.loop.round.generation == s.requested))
    && (s.disposed ==> s.waiters == [])
    && (s.loop.Idle? && !s.disposed ==> s.pendingReasons == {} && s.waiters == [])
    && !s.loop.Unready?
  }

  /** After a round has ended, only those who asked since it began are still waiting. */
  predicate Served(s: State) {
    !InRound(s.loop) && s.pendingReasons == {} ==> s.waiters == []
  }

  predicate Timed(s: State) {
    && s.lastRequestAt < s.clock
    && (forall w :: w in s.waiters ==> 1 <= w.generation <= s.requested && w.madeAt < s.clock)
    && (InRound(s.loop) ==>
          && s.loop.round.beganAt < s.clock
          && (s.loop.round.generation == s.requested <==> s.lastRequestAt < s.loop.round.beganAt)
          && forall w :: w in s.waiters ==>
               (w.generation <= s.loop.round.generation <==> w.madeAt < s.loop.round.beganAt))
  }

  /**
   * A promise is settled by a round that began after its request. It is resolved with what the round
   * resolved on a config whose built-in revision still stood at its end, or with the fail-closed snapshot
   * of a round that failed; it is rejected only by a failed round.
   */
  predicate FreshSettlement(rounds: map<nat, Observed>, p: Settlement<Snapshot>) {
    match p.cause
    case Round(b) =>
      && p.waiter.madeAt < b
      && b in rounds
      && (p.outcome.None? ==> rounds[b].Failed?)
      && (p.outcome.Some? ==> Supports(rounds[b], p.outcome.value))
    case Retained(b) => false
    case Disposal => p.outcome.None?
  }

  predicate Supports(observed: Observed, snapshot: Snapshot) {
    match observed
    case Checked(config, resolution, recheck) =>
      snapshot == Snapshot(config.builtinRevision, resolution) && recheck.builtinRevision == config.builtinRevision
    case Failed(known) => known.Some? && snapshot == FailClosed(known.value)
  }

  predicate History(s: State) {
    && (forall b :: b in s.rounds ==> b < s.clock && (InRound(s.loop) ==> b < s.loop.round.beganAt))
    && (forall p :: p in s.settled ==> FreshSettlement(s.rounds, p))
  }

  /** Only the very first snapshot can be fail-closed; any other comes from a round that was not superseded. */
  predicate FreshAdoption(rounds: map<nat, Observed>, adopted: seq<Adoption>, i: nat)
    requires i < |adopted|
  {
    var a := adopted[i];
    && a.beganAt in rounds && Supports(rounds[a.beganAt], a.snapshot)
    && (a.failClosed ==> i == 0 && rounds[a.beganAt].Failed?)
    && (!a.failClosed ==> a.lastRequestAt < a.beganAt && rounds[a.beganAt].Checked?)
    && (a.announced <==> i > 0)
  }

  predicate Adoptions(s: State) {
    && (s.adopted == [] <==> s.snapshot.None?)
    && (s.adopted != [] ==> s.snapshot == Some(s.adopted[|s.adopted| - 1].snapshot))
    && (forall i :: 0 <= i < |s.adopted| ==> FreshAdoption(s.rounds, s.adopted, i))
    && (forall i :: 0 <= i < |s.adopted| - 1 ==> s.adopted[i].snapshot != s.adopted[i + 1].snapshot)
  }

  ghost predicate Steady(s: State) {
    Shape(s) && Timed(s) && History(s) && Adoptions(s) && Accounted(s.requested, s.waiters, s.settled)
  }

  ghost predicate Inv(s: State) {
    Steady(s) && Served(s)
  }

  /******* Every step keeps the invariant *******/

  lemma InvStart()
    ensures Inv(START)
  {
  }

  lemma RequestKeeps(s: State, reason: string)
    requires Steady(s) && !s.disposed
    ensures Steady(Requesting(s, reason)) && Served(Requesting(s, reason))
  {
    hide Accounted, FreshSettlement, FreshAdoption;
    RequestAccounts(s.requested, s.waiters, s.settled, Waiter(s.requested + 1, s.clock, reason));
  }

  lemma DisposeKeeps(s: State)
    requires Steady(s)
    ensures Steady(DisposeAll(s)) && Served(DisposeAll(s))
  {
    DisposalAccounts(s.requested, s.waiters, s.settled);
    forall p | p in SettleAll<Snapshot>(s.waiters)
      ensures p.outcome.None? && p.cause.Disposal?
    {
      SettleAllMember(s.waiters, p);
    }
  }

  /** Calls never touch what rounds decide; of the requests numbered up to `generation` they add none. */
  predicate SameRound(s: State, s': State) {
    && s'.snapshot == s.snapshot && s'.adopted == s.adopted && s'.rounds == s.rounds
    && (!s.loop.Idle? ==> s'.loop == s.loop)
    && s.clock <= s'.clock && s.requested <= s'.requested
    && (s.disposed ==> s' == s)
    && s.settled <= s'.settled
  }

  /** Whoever asked after request `generation` left a pending reason. */
  predicate Owed(s: State, generation: nat) {
    forall w :: w in s.waiters && w.generation > generation ==> s.pendingReasons != {}
  }

  lemma CallSame(s: State, call: Call)
    ensures SameRound(s, ApplyCall(s, call))
  {
  }

  lemma StartedKeeps(s: State)
    requires Steady(s)
    ensures Steady(s.(started := true))
    ensures Served(s) ==> Served(s.(started := true))
  {
    hide Accounted, FreshSettlement, FreshAdoption;
  }

  lemma CallKeeps(s: State, call: Call)
    requires Steady(s)
    ensures Steady(ApplyCall(s, call)) && SameRound(s, ApplyCall(s, call))
    ensures Served(s) ==> Served(ApplyCall(s, call))
  {
    CallSame(s, call);
    hide Steady, Served, Requesting, DisposeAll, SameRound;
    if !s.disposed {
      StartedKeeps(s);
      match call
      case Read => RequestKeeps(s.(started := true), "start");
      case Refresh(reason) => RequestKeeps(s.(started := true), reason);
      case ConfigChanged(reason) => RequestKeeps(s, ConfigReason(reason));
      case Dispose => DisposeKeeps(s);
    }
  }

  lemma CallOwes(s: State, call: Call, generation: nat)
    requires Owed(s, generation) && !s.loop.Idle?
    ensures Owed(ApplyCall(s, call), generation)
  {
  }

  lemma {:induction false} CallsKeep(s: State, calls: seq<Call>)
    requires Steady(s)
    ensures Steady(ApplyCalls(s, calls)) && SameRound(s, ApplyCalls(s, calls))
    ensures Served(s) ==> Served(ApplyCalls(s, calls))
    decreases |calls|
  {
    hide Steady, Served, ApplyCall;
    if calls != [] {
      CallKeeps(s, calls[0]);
      CallsKeep(ApplyCall(s, calls[0]), calls[1..]);
    }
  }

  lemma {:induction false} CallsOwe(s: State, calls: seq<Call>, generation: nat)
    requires Steady(s) && Owed(s, generation) && !s.loop.Idle?
    ensures Owed(ApplyCalls(s, calls), generation)
    decreases |calls|
  {
    hide Steady, Owed, ApplyCall;
    if calls != [] {
      CallKeeps(s, calls[0]);
      CallOwes(s, calls[0], generation);
      CallsOwe(ApplyCall(s, calls[0]), calls[1..], generation);
    }
  }

  /** The requests that calls leave waiting are those that were waiting, or newer ones. */
  lemma {:induction false} OldWaiters(s: State, calls: seq<Call>, generation: nat)
    requires generation <= s.requested && !s.loop.Idle?
    ensures forall w :: w in ApplyCalls(s, calls).waiters && w.generation <= generation ==> w in s.waiters
    decreases |calls|
  {
    if calls != [] {
      OldWaiters(ApplyCall(s, calls[0]), calls[1..], generation);
    }
  }

  lemma ContinueKeeps(s: State)
    requires Steady(s) && Served(s) && !InRound(s.loop) && !(s.loop.Idle? && s.pendingReasons == {})
    requires s.snapshot.Some? || s.pendingReasons != {}
    ensures Inv(Continue(s))
  {
  }

  lemma SettleKeeps(s: State, generation: nat, outcome: Option<Snapshot>, cause: Cause)
    requires Steady(s) && s.loop.Closing? && Owed(s, generation)
    requires forall w :: w in s.waiters && w.generation <= generation ==>
      FreshSettlement(s.rounds, Settlement(w, outcome, cause))
    ensures Steady(SettleUpTo(s, generation, outcome, cause)) && Served(SettleUpTo(s, generation, outcome, cause))
  {
    hide Accounted;
    SettlingAccounts(s.requested, s.waiters, s.settled, generation, outcome, cause);
    var s' := SettleUpTo(s, generation, outcome, cause);
    forall w | w in s'.waiters
      ensures w in s.waiters && w.generation > generation
    {
      KeepMember(s.waiters, generation, w);
    }
    if s'.waiters != [] {
      assert s'.waiters[0] in s'.waiters;
    }
    forall p | p in Settle(s.waiters, generation, outcome, cause)
      ensures FreshSettlement(s.rounds, p)
    {
      SettleMember(s.waiters, generation, outcome, cause, p);
    }
  }

  /** Ending the round: everybody it answers asked before it began, everybody else left a reason. */
  lemma CloseKeeps(s: State, observed: Observed)
    requires Inv(s) && InRound(s.loop)
    ensures Steady(Close(s, s.loop.round, observed)) && Owed(Close(s, s.loop.round, observed), s.loop.round.generation)
    ensures forall w :: w in s.waiters && w.generation <= s.loop.round.generation ==> w.madeAt < s.loop.round.beganAt
    ensures s.pendingReasons == {} ==> s.lastRequestAt < s.loop.round.beganAt
  {
    hide Accounted;
    NoteExtends(s, observed);
  }

  lemma NoteExtends(s: State, observed: Observed)
    requires Inv(s) && InRound(s.loop)
    ensures s.loop.round.beganAt !in s.rounds
    ensures forall p :: p in s.settled ==> FreshSettlement(Close(s, s.loop.round, observed).rounds, p)
    ensures forall i :: 0 <= i < |s.adopted| ==> FreshAdoption(Close(s, s.loop.round, observed).rounds, s.adopted, i)
  {
    hide Supports, Accounted;
    forall i | 0 <= i < |s.adopted|
      ensures FreshAdoption(Close(s, s.loop.round, observed).rounds, s.adopted, i)
    {
      assert FreshAdoption(s.rounds, s.adopted, i);
    }
  }

  /** Adopting a snapshot that the round supports and that is not the current one. */
  lemma AdoptKeeps(s: State, round: Attempt, snapshot: Snapshot, failClosed: bool)
    requires Steady(s) && s.loop.Closing? && s.snapshot != Some(snapshot)
    requires round.beganAt in s.rounds && Supports(s.rounds[round.beganAt], snapshot)
    requires failClosed ==> s.snapshot.None? && s.rounds[round.beganAt].Failed?
    requires !failClosed ==> s.lastRequestAt < round.beganAt && s.rounds[round.beganAt].Checked?
    ensures Steady(Adopt(s, round, snapshot, failClosed))
  {
    hide Accounted, Supports;
    var t := Adopt(s, round, snapshot, failClosed);
    forall i | 0 <= i < |t.adopted|
      ensures FreshAdoption(t.rounds, t.adopted, i)
    {
      if i < |s.adopted| {
        assert FreshAdoption(s.rounds, s.adopted, i);
      }
    }
  }

  lemma ErrorKeeps(s: State, config: Option<Config>, calls: seq<Call>)
    requires Inv(s) && InRound(s.loop)
    ensures Inv(HandleError(s, s.loop.round, config, calls))
  {
    var round := s.loop.round;
    var closed := Close(s, round, Failed(config));
    CloseKeeps(s, Failed(config));
    CallsKeep(closed, calls);
    CallsOwe(closed, calls, round.generation);
    RoundIsRequested(s);
    OldWaiters(closed, calls, round.generation);
    var told := ApplyCalls(closed, calls);
    hide Steady, Served, ApplyCalls, Owed;
    if told.snapshot.None? && config.Some? {
      AdoptKeeps(told, round, FailClosed(config.value), true);
      var adopted := Adopt(told, round, FailClosed(config.value), true);
      OwedFrame(told, adopted, round.generation);
      SettleKeeps(adopted, round.generation, Some(FailClosed(config.value)), Round(round.beganAt));
      ContinueKeeps(SettleUpTo(adopted, round.generation, Some(FailClosed(config.value)), Round(round.beganAt)));
    } else {
      SettleKeeps(told, round.generation, None, Round(round.beganAt));
    }
  }

  lemma RoundIsRequested(s: State)
    requires Inv(s) && InRound(s.loop)
    ensures s.loop.round.generation <= s.requested
  {
  }

  lemma OwedFrame(s: State, s': State, generation: nat)
    requires Owed(s, generation) && s'.waiters == s.waiters && s'.pendingReasons == s.pendingReasons
    ensures Owed(s', generation)
  {
  }

  lemma RecheckKeeps(s: State, current: Config, calls: seq<Call>)
    requires Inv(s) && s.loop.Rechecking?
    ensures Inv(Recheck(s, current, calls))
  {
    hide HandleError;
    var round, config, resolution := s.loop.round, s.loop.config, s.loop.resolution;
    var observed := Checked(config, resolution, current);
    var closed := Close(s, round, observed);
    if s.disposed {
      ErrorKeeps(s, Some(config), calls);
    } else {
      CloseKeeps(s, observed);
      if Superseded(s) || current.builtinRevision != config.builtinRevision {
        var again := closed.(pendingReasons := closed.pendingReasons + {"superseded-resolution"});
        assert Steady(again) && Served(again) by {
          hide Accounted;
        }
        ContinueKeeps(again);
      } else {
        var next := Snapshot(config.builtinRevision, resolution);
        hide Steady, Served, Owed, ApplyCalls;
        if s.snapshot == Some(next) {
          SettleKeeps(closed, round.generation, Some(next), Round(round.beganAt));
          ContinueKeeps(SettleUpTo(closed, round.generation, Some(next), Round(round.beganAt)));
        } else {
          AdoptKeeps(closed, round, next, false);
          var adopted := Adopt(closed, round, next, false);
          OwedFrame(closed, adopted, round.generation);
          SettleKeeps(adopted, round.generation, Some(next), Round(round.beganAt));
          var resolved := SettleUpTo(adopted, round.generation, Some(next), Round(round.beganAt));
          CallsKeep(resolved, calls);
          ContinueKeeps(if s.snapshot.Some? then ApplyCalls(resolved, calls) else resolved);
        }
      }
    }
  }

  lemma FinishKeeps(s: State)
    requires Inv(s) && s.loop.Closing?
    ensures Inv(Finish(s))
  {
  }

  lemma ArriveKeeps(s: State, step: Step)
    requires Inv(s) && Enabled(s, step) && (step.ConfigArrived? || (step.ProvidersArrived? && !s.disposed))
    ensures Inv(Next(s, step))
  {
    hide Accounted, Supports, HandleError, Recheck;
  }

  lemma NeverUnready(s: State)
    requires Inv(s)
    ensures !s.loop.Unready?
  {
  }

  /** The invariant of one step, whichever it is. */
  lemma InvNext(s: State, step: Step)
    requires Inv(s) && Enabled(s, step)
    ensures Inv(Next(s, step))
  {
    hide Steady, Served, HandleError, Recheck, Finish, ApplyCall;
    match step
    case Called(call) => CallKeeps(s, call);
    case ConfigArrived(config) => ArriveKeeps(s, step);
    case ProvidersArrived(resolution, calls) =>
      if s.disposed {
        ErrorKeeps(s, Some(s.loop.config), calls);
      } else {
        ArriveKeeps(s, step);
      }
    case RecheckArrived(config, calls) => RecheckKeeps(s, config, calls);
    case AwaitFailed(calls) => ErrorKeeps(s, KnownConfig(s.loop), calls);
    case Finished =>
      NeverUnready(s);
      FinishKeeps(s);
  }

  /** Every reachable state, over every interleaving. */
  lemma {:induction false} InvRun(s: State, steps: seq<Step>)
    requires Inv(s) && Possible(s, steps)
    ensures Inv(Run(s, steps))
    decreases |steps|
  {
    hide Inv, Next;
    if steps != [] {
      InvNext(s, steps[0]);
      InvRun(Next(s, steps[0]), steps[1..]);
    }
  }

  /******* What holds over whole runs *******/

  /**
   * No promise is settled by a round that began before its request, and a snapshot it gets is the one that
   * its round resolved, or the fail-closed one of a failed round.
   */
  lemma Freshness(steps: seq<Step>)
    requires Possible(START, steps)
    ensures var s := Run(START, steps);
      forall p :: p in s.settled && !p.cause.Disposal? ==>
        && p.waiter.madeAt < p.cause.beganAt
        && p.cause.beganAt in s.rounds
        && (if p.outcome.Some? then Supports(s.rounds[p.cause.beganAt], p.outcome.value)
            else s.rounds[p.cause.beganAt].Failed?)
  {
    InvStart();
    InvRun(START, steps);
  }

  /** Apart from a fail-closed first snapshot, no superseded round ever replaces the snapshot. */
  lemma AdoptionIsFresh(steps: seq<Step>)
    requires Possible(START, steps)
    ensures var s := Run(START, steps);
      forall i :: 0 <= i < |s.adopted| ==> FreshAdoption(s.rounds, s.adopted, i)
  {
    InvStart();
    InvRun(START, steps);
  }

  /** No request is lost or answered twice, and a service with nothing in flight owes nothing. */
  lemma NoLostRequest(steps: seq<Step>)
    requires Possible(START, steps)
    ensures var s := Run(START, steps);
      && (s.loop.Idle? ==> s.waiters == [] && (!s.disposed ==> s.pendingReasons == {}))
      && !s.loop.Unready?
      && (forall g: nat :: 1 <= g <= s.requested ==> IsWaiting(s.waiters, g) || IsSettled(s.settled, g))
      && (forall i, j :: 0 <= i < j < |s.settled| ==> s.settled[i].waiter.generation != s.settled[j].waiter.generation)
      && (forall w, p :: w in s.waiters && p in s.settled ==> w.generation != p.waiter.generation)
  {
    InvStart();
    InvRun(START, steps);
    var s := Run(START, steps);
    hide Possible, Run, Next, Enabled;
    SettledOnce(s.requested, s.waiters, s.settled);
    forall g: nat | 1 <= g <= s.requested
      ensures IsWaiting(s.waiters, g) || IsSettled(s.settled, g)
    {
      NoneLost(s.requested, s.waiters, s.settled, g);
    }
  }

  /**
   * The exception, exactly: a superseded round adopts only the fail-closed first snapshot, when it fails after
   * its config, and a disposed service fails it as soon as its next await returns.
   */
  lemma SupersededAdoption(s: State, step: Step)
    requires Inv(s) && InRound(s.loop) && Superseded(s) && Enabled(s, step)
    ensures Next(s, step).adopted != s.adopted <==>
      && s.snapshot.None? && KnownConfig(s.loop).Some?
      && (step.AwaitFailed? || (s.disposed && (step.ProvidersArrived? || step.RecheckArrived?)))
  {
    match step
    case Called(call) => CallSame(s, call);
    case ConfigArrived(_) =>
    case ProvidersArrived(_, calls) =>
      if s.disposed {
        ErrorAdopts(s, Some(s.loop.config), calls);
      }
    case RecheckArrived(_, calls) =>
      if s.disposed {
        ErrorAdopts(s, Some(s.loop.config), calls);
      }
    case AwaitFailed(calls) => ErrorAdopts(s, KnownConfig(s.loop), calls);
    case Finished =>
  }

  /** The catch block adopts a snapshot exactly when there is none and the config is known. */
  lemma ErrorAdopts(s: State, config: Option<Config>, calls: seq<Call>)
    requires Inv(s) && InRound(s.loop)
    ensures HandleError(s, s.loop.round, config, calls).adopted != s.adopted <==> s.snapshot.None? && config.Some?
  {
    CloseKeeps(s, Failed(config));
    CallsKeep(Close(s, s.loop.round, Failed(config)), calls);
    hide Steady, ApplyCalls, FailClosed;
  }

  /** Such a run: a second request arrives before the first resolution fails. */
  lemma SupersededRoundFailsClosed(config: Config)
    ensures var steps := [Called(Refresh("a")), ConfigArrived(config), Called(Refresh("b")), AwaitFailed([])];
      && Possible(START, steps)
      && var s := Run(START, steps);
         && |s.adopted| == 1 && s.adopted[0].failClosed && s.adopted[0].lastRequestAt > s.adopted[0].beganAt
         && |s.settled| == 1 && s.settled[0].waiter.generation == 1 && s.settled[0].outcome == Some(FailClosed(config))
         && |s.waiters| == 1 && s.loop.ReadingConfig?
  {
    var a := Next(START, Called(Refresh("a")));
    var b := Next(a, ConfigArrived(config));
    var c := Next(b, Called(Refresh("b")));
    var d := Next(c, AwaitFailed([]));
    assert c.waiters == [Waiter(1, 1, "a"), Waiter(2, 3, "b")];
    assert c.waiters[1..] == [Waiter(2, 3, "b")] && c.waiters[1..][1..] == [];
    assert Keep(c.waiters[1..], 1) == c.waiters[1..] && Settle(c.waiters[1..], 1, d.snapshot, Round(2)) == [];
    assert d.loop.ReadingConfig?;
    assert Run(d, []) == d;
    assert Possible(c, [AwaitFailed([])]) && Run(c, [AwaitFailed([])]) == d;
    var tail := [Called(Refresh("b")), AwaitFailed([])];
    assert Possible(b, tail) && Run(b, tail) == d by {
      assert tail[1..] == [AwaitFailed([])];
    }
    var rest := [ConfigArrived(config), Called(Refresh("b")), AwaitFailed([])];
    assert rest[1..] == tail;
    assert Possible(a, rest) && Run(a, rest) == d;
    assert ([Called(Refresh("a"))] + rest)[1..] == rest;
    assert [Called(Refresh("a")), ConfigArrived(config), Called(Refresh("b")), AwaitFailed([])]
      == [Called(Refresh("a"))] + rest;
  }

  /** Every step only extends the history; disposal settles everything; a failure keeps the last good snapshot. */
  predicate Extends(s: State, s': State) {
    && s.settled <= s'.settled
    && s.adopted <= s'.adopted
    && (s.snapshot.Some? ==> s'.snapshot.Some?)
    && (s.disposed ==> s'.disposed && s'.settled == s.settled && (s.snapshot.Some? ==> s'.snapshot == s.snapshot))
  }

  lemma HandleErrorExtends(s: State, config: Option<Config>, calls: seq<Call>)
    requires Inv(s) && InRound(s.loop)
    ensures Extends(s, HandleError(s, s.loop.round, config, calls))
    ensures s.snapshot.Some? ==> HandleError(s, s.loop.round, config, calls).snapshot == s.snapshot
  {
    var closed := Close(s, s.loop.round, Failed(config));
    CloseKeeps(s, Failed(config));
    CallsKeep(closed, calls);
    var told := ApplyCalls(closed, calls);
    if s.disposed {
      assert told == closed;
      assert Keep([], s.loop.round.generation) == [];
    }
  }

  lemma RecheckExtends(s: State, current: Config, calls: seq<Call>)
    requires Inv(s) && s.loop.Rechecking?
    ensures Extends(s, Recheck(s, current, calls))
  {
    hide HandleError;
    if s.disposed {
      HandleErrorExtends(s, Some(s.loop.config), calls);
    } else if !Superseded(s) && current.builtinRevision == s.loop.config.builtinRevision {
      var observed := Checked(s.loop.config, s.loop.resolution, current);
      var next := Snapshot(s.loop.config.builtinRevision, s.loop.resolution);
      if s.snapshot != Some(next) && s.snapshot.Some? {
        var resolved := SettleUpTo(Adopt(Close(s, s.loop.round, observed), s.loop.round, next, false),
                                   s.loop.round.generation, Some(next), Round(s.loop.round.beganAt));
        CallsExtend(resolved, calls);
      }
    }
  }

  lemma {:induction false} CallsExtend(s: State, calls: seq<Call>)
    ensures Extends(s, ApplyCalls(s, calls))
    decreases |calls|
  {
    if calls != [] {
      CallsExtend(ApplyCall(s, calls[0]), calls[1..]);
    }
  }

  lemma HistoryOnlyGrows(s: State, step: Step)
    requires Inv(s) && Enabled(s, step)
    ensures Extends(s, Next(s, step))
    ensures step.AwaitFailed? && s.snapshot.Some? ==> Next(s, step).snapshot == s.snapshot
  {
    hide HandleError, Recheck, ApplyCalls;
    match step
    case Called(call) =>
      CallKeeps(s, call);
      CallsExtend(s, [call]);
      OneCall(s, call);
    case ConfigArrived(_) =>
    case ProvidersArrived(_, calls) => HandleErrorExtends(s, Some(s.loop.config), calls);
    case RecheckArrived(config, calls) => RecheckExtends(s, config, calls);
    case AwaitFailed(calls) => HandleErrorExtends(s, KnownConfig(s.loop), calls);
    case Finished =>
  }

  lemma OneCall(s: State, call: Call)
    ensures ApplyCalls(s, [call]) == ApplyCall(s, call)
  {
    assert [call][1..] == [];
  }

  /******* Progress *******/

  /** What the service does next when nobody calls it and its config and account stay as given. */
  function LoopStep(s: State, config: Config, resolution: Resolution): State {
    match s.loop
    case Idle => s
    case ReadingConfig(_) => Next(s, ConfigArrived(config))
    case Resolving(_, _) => ArriveProviders(s, resolution, [])
    case Rechecking(_, _, _) => Recheck(s, config, [])
    case Closing => Finish(s)
    case Unready => Finish(s)
  }

  function Drain(s: State, config: Config, resolution: Resolution, n: nat): State
    decreases n
  {
    if n == 0 then s else Drain(LoopStep(s, config, resolution), config, resolution, n - 1)
  }

  predicate AnsweredFrom(settled: seq<Settlement<Snapshot>>, w: Waiter, config: Config) {
    exists p :: p in settled && p.waiter == w && p.outcome.Some? && p.outcome.value.basedOn == config.builtinRevision
  }

  predicate AnswersAll(waiters: seq<Waiter>, s: State, config: Config) {
    forall w :: w in waiters ==> w in s.waiters || AnsweredFrom(s.settled, w, config)
  }

  /** Steps left until the service is idle. */
  function Left(s: State, config: Config): nat {
    match s.loop
    case Idle => 0
    case Closing => if s.pendingReasons == {} then 1 else 5
    case Unready => 1
    case ReadingConfig(_) => if s.pendingReasons == {} then 4 else 7
    case Resolving(_, known) =>
      if s.pendingReasons == {} && known.builtinRevision == config.builtinRevision then 3 else 6
    case Rechecking(_, known, _) =>
      if s.pendingReasons == {} && known.builtinRevision == config.builtinRevision then 2 else 5
  }

  lemma RecheckAnswers(s: State, config: Config)
    requires Inv(s) && s.loop.Rechecking? && !s.disposed
    ensures var t := Recheck(s, config, []);
      AnswersAll(s.waiters, t, config) && s.settled <= t.settled && t.requested == s.requested && !t.disposed
      && Left(t, config) < Left(s, config)
  {
    hide Inv, FailClosed, HandleError;
    var round, known := s.loop.round, s.loop.config;
    var t := Recheck(s, config, []);
    var next := Snapshot(known.builtinRevision, s.loop.resolution);
    if !Superseded(s) && config.builtinRevision == known.builtinRevision {
      forall w | w in s.waiters
        ensures w in t.waiters || AnsweredFrom(t.settled, w, config)
      {
        KeepMember(s.waiters, round.generation, w);
        SettleMember(s.waiters, round.generation, Some(next), Round(round.beganAt),
                     Settlement(w, Some(next), Round(round.beganAt)));
        if w.generation <= round.generation {
          assert Settlement(w, Some(next), Round(round.beganAt)) in t.settled;
        }
      }
    }
  }

  lemma LoopStepAnswers(s: State, config: Config, resolution: Resolution)
    requires Inv(s) && !s.disposed && !s.loop.Idle?
    ensures var t := LoopStep(s, config, resolution);
      && Inv(t) && !t.disposed && t.requested == s.requested
      && AnswersAll(s.waiters, t, config) && s.settled <= t.settled
      && Left(t, config) < Left(s, config)
  {
    NeverUnready(s);
    hide Inv, Recheck, HandleError, AnsweredFrom;
    match s.loop
    case ReadingConfig(_) => InvNext(s, ConfigArrived(config));
    case Resolving(_, _) => InvNext(s, ProvidersArrived(resolution, []));
    case Rechecking(_, _, _) =>
      InvNext(s, RecheckArrived(config, []));
      RecheckAnswers(s, config);
    case Closing => InvNext(s, Finished);
    case Unready =>
  }

  lemma {:induction false} DrainAnswers(s: State, config: Config, resolution: Resolution, n: nat, asked: seq<Waiter>)
    requires Inv(s) && !s.disposed && Left(s, config) <= n && AnswersAll(asked, s, config)
    ensures var t := Drain(s, config, resolution, n);
      Inv(t) && t.loop.Idle? && !t.disposed && t.requested == s.requested && AnswersAll(asked, t, config)
    decreases n
  {
    hide Inv, LoopStep, AnsweredFrom;
    if n > 0 {
      var t := LoopStep(s, config, resolution);
      if s.loop.Idle? {
        IdleStays(s, config, resolution);
      } else {
        LoopStepAnswers(s, config, resolution);
        AnswersChain(asked, s, t, config);
      }
      DrainAnswers(t, config, resolution, n - 1, asked);
    }
  }

  lemma IdleStays(s: State, config: Config, resolution: Resolution)
    requires s.loop.Idle?
    ensures LoopStep(s, config, resolution) == s
  {
  }

  lemma AnswersChain(asked: seq<Waiter>, s: State, t: State, config: Config)
    requires AnswersAll(asked, s, config) && AnswersAll(s.waiters, t, config) && s.settled <= t.settled
    ensures AnswersAll(asked, t, config)
  {
    forall w | w in asked
      ensures w in t.waiters || AnsweredFrom(t.settled, w, config)
    {
      if w !in s.waiters {
        var p :| p in s.settled && p.waiter == w && p.outcome.Some?
          && p.outcome.value.basedOn == config.builtinRevision;
        assert p in t.settled;
      }
    }
  }

  /**
   * Progress: left alone with a working resolver, the service is idle after at most seven steps and every
   * request that was waiting has been answered with a snapshot based on the current built-in revision.
   */
  lemma Quiesces(s: State, config: Config, resolution: Resolution)
    requires Inv(s) && !s.disposed
    ensures var t := Drain(s, config, resolution, 7);
      && t.loop.Idle? && t.requested == s.requested && t.waiters == [] && t.pendingReasons == {}
      && forall w :: w in s.waiters ==> AnsweredFrom(t.settled, w, config)
  {
    DrainAnswers(s, config, resolution, 7, s.waiters);
    hide Drain, AnsweredFrom, Accounted;
  }

  /******* The service *******/

  /**
   * The ghost fields are the history of the service. `clock` is the one addition to the original's fields
   * that is not ghost: waiters and rounds are stamped with it.
   */
  class AccountProviderService {
    var started: bool
    var requestedGeneration: nat
    var refreshWaiters: seq<Waiter>
    var snapshot: Option<Snapshot>
    var pendingReasons: set<string>
    var refreshInFlight: Loop
    var disposed: bool
    ghost var settled: seq<Settlement<Snapshot>>
    ghost var adopted: seq<Adoption>
    ghost var rounds: map<nat, Observed>
    var clock: nat
    ghost var lastRequestAt: nat

    ghost function Current(): State
      reads this
    {
      State(started, requestedGeneration, refreshWaiters, snapshot, pendingReasons, refreshInFlight, disposed,
            settled, adopted, rounds, clock, lastRequestAt)
    }

    ghost predicate Valid()
      reads this
    {
      Inv(Current())
    }

    constructor ()
      ensures Valid() && Current() == START
    {
      started, requestedGeneration, refreshWaiters, snapshot, pendingReasons := false, 0, [], None, {};
      refreshInFlight, disposed, settled, adopted, rounds := Idle, false, [], [], map[];
      clock, lastRequestAt := 1, 0;
      new;
      InvStart();
    }

    /** The loop condition and, if it holds, the round's start up to its first read. */
    method ContinueLoop()
      modifies this
      ensures Current() == Continue(old(Current()))
    {
      if pendingReasons != {} {
        refreshInFlight := ReadingConfig(Attempt(requestedGeneration, pendingReasons, clock));
        pendingReasons := {};
        clock := clock + 1;
      } else {
        refreshInFlight := if snapshot.Some? then Closing else Unready;
      }
    }

    method RequestRefresh(reason: string)
      modifies this
      ensures Current() == Requesting(old(Current()), reason)
    {
      var generation := requestedGeneration + 1;
      requestedGeneration := generation;
      pendingReasons := pendingReasons + {reason};
      refreshWaiters := refreshWaiters + [Waiter(generation, clock, reason)];
      lastRequestAt := clock;
      clock := clock + 1;
      if refreshInFlight.Idle? {
        ContinueLoop();
      }
    }

    method DisposeService()
      requires !disposed
      modifies this
      ensures Current() == DisposeAll(old(Current()))
    {
      disposed := true;
      ghost var waiting := refreshWaiters;
      while refreshWaiters != []
        invariant settled + SettleAll(refreshWaiters) == old(settled) + SettleAll(waiting)
        invariant Current() == old(Current()).(disposed := true, waiters := refreshWaiters, settled := settled)
        decreases |refreshWaiters|
      {
        AppendLaws(settled, [Settlement(refreshWaiters[0], None, Disposal)], SettleAll(refreshWaiters[1..]));
        settled := settled + [Settlement(refreshWaiters[0], None, Disposal)];
        refreshWaiters := refreshWaiters[1..];
      }
      AppendLaws(settled, [], []);
    }

    method Receive(call: Call)
      modifies this
      ensures Current() == ApplyCall(old(Current()), call)
    {
      if !disposed {
        match call
        case Read =>
          started := true;
          if snapshot.None? && refreshInFlight.Idle? {
            RequestRefresh("start");
          }
        case Refresh(reason) =>
          started := true;
          RequestRefresh(reason);
        case ConfigChanged(reason) =>
          if started {
            RequestRefresh(ConfigReason(reason));
          }
        case Dispose => DisposeService();
      }
    }

    /** The calls that listeners make back into the service, one after the other. */
    method RunListeners(calls: seq<Call>)
      modifies this
      ensures Current() == ApplyCalls(old(Current()), calls)
    {
      var left := calls;
      while left != []
        invariant ApplyCalls(Current(), left) == ApplyCalls(old(Current()), calls)
        decreases |left|
      {
        Receive(left[0]);
        left := left[1..];
      }
    }

    method SettleRefreshWaiters(generation: nat, outcome: Option<Snapshot>, cause: Cause)
      modifies this`refreshWaiters, this`settled
      ensures Current() == SettleUpTo(old(Current()), generation, outcome, cause)
    {
      var remaining, answered := SettleWaiters(refreshWaiters, generation, outcome, cause);
      refreshWaiters, settled := remaining, settled + answered;
    }

    method AdoptSnapshot(round: Attempt, next: Snapshot, failClosed: bool)
      modifies this`snapshot, this`adopted
      ensures Current() == Adopt(old(Current()), round, next, failClosed)
    {
      adopted := adopted
        + [Adoption(next, round.beganAt, lastRequestAt, failClosed, !failClosed && snapshot.Some?)];
      snapshot := Some(next);
    }

    /** The catch block of the loop. */
    method CatchError(round: Attempt, config: Option<Config>, calls: seq<Call>)
      modifies this
      ensures Current() == HandleError(old(Current()), round, config, calls)
    {
      hide ApplyCalls;
      refreshInFlight, rounds := Closing, rounds[round.beganAt := Failed(config)];
      RunListeners(calls);
      if snapshot.None? && config.Some? {
        var failClosed := FailClosed(config.value);
        AdoptSnapshot(round, failClosed, true);
        SettleRefreshWaiters(round.generation, Some(failClosed), Round(round.beganAt));
        ContinueLoop();
      } else {
        SettleRefreshWaiters(round.generation, None, Round(round.beganAt));
      }
    }

    method ReceiveConfig(config: Config)
      requires Valid() && refreshInFlight.ReadingConfig?
      modifies this
      ensures Valid() && Current() == Next(old(Current()), ConfigArrived(config))
    {
      InvNext(Current(), ConfigArrived(config));
      hide Inv;
      refreshInFlight := Resolving(refreshInFlight.round, config);
    }

    method ReceiveProviders(resolution: Resolution, calls: seq<Call>)
      requires Valid() && refreshInFlight.Resolving?
      modifies this
      ensures Valid() && Current() == ArriveProviders(old(Current()), resolution, calls)
    {
      InvNext(Current(), ProvidersArrived(resolution, calls));
      hide Inv, HandleError;
      if disposed {
        CatchError(refreshInFlight.round, Some(refreshInFlight.config), calls);
      } else {
        refreshInFlight := Rechecking(refreshInFlight.round, refreshInFlight.config, resolution);
      }
    }

    method ReceiveRecheck(current: Config, calls: seq<Call>)
      requires Valid() && refreshInFlight.Rechecking?
      modifies this
      ensures Valid() && Current() == Recheck(old(Current()), current, calls)
    {
      RecheckKeeps(Current(), current, calls);
      hide Inv, HandleError, ApplyCalls;
      var round, config, resolution := refreshInFlight.round, refreshInFlight.config, refreshInFlight.resolution;
      if disposed {
        CatchError(round, Some(config), calls);
        return;
      }
      refreshInFlight, rounds := Closing, rounds[round.beganAt := Checked(config, resolution, current)];
      if pendingReasons != {} || current.builtinRevision != config.builtinRevision {
        pendingReasons := pendingReasons + {"superseded-resolution"};
        ContinueLoop();
        return;
      }
      var next := Snapshot(config.builtinRevision, resolution);
      if snapshot == Some(next) {
        SettleRefreshWaiters(round.generation, Some(next), Round(round.beganAt));
      } else {
        var hadSnapshot := snapshot.Some?;
        AdoptSnapshot(round, next, false);
        SettleRefreshWaiters(round.generation, Some(next), Round(round.beganAt));
        if hadSnapshot {
          RunListeners(calls);
        }
      }
      ContinueLoop();
    }

    method ReceiveFailure(calls: seq<Call>)
      requires Valid() && InRound(refreshInFlight)
      modifies this
      ensures Valid() && Current() == Next(old(Current()), AwaitFailed(calls))
    {
      InvNext(Current(), AwaitFailed(calls));
      hide Inv, HandleError;
      CatchError(refreshInFlight.round, KnownConfig(refreshInFlight), calls);
    }

    /** The handlers of the loop's promise. */
    method FinishRefresh()
      requires Valid() && refreshInFlight.Closing?
      modifies this
      ensures Valid() && Current() == Finish(old(Current()))
    {
      FinishKeeps(Current());
      hide Inv;
      refreshInFlight := Idle;
      if !disposed && pendingReasons != {} {
        ContinueLoop();
      }
    }

    method Handle(call: Call)
      requires Valid()
      modifies this
      ensures Valid() && Current() == ApplyCall(old(Current()), call)
    {
      CallKeeps(Current(), call);
      hide Steady, Served, ApplyCall;
      Receive(call);
    }
  }
}
