/**
 * The provider registry service as a state machine: every stretch of code between two awaits is one step,
 * so a run is any interleaving of calls, source reads and finish handlers.
 */
module RegistryRefresh {
  import opened Common
  import opened RefreshWaiters

  /******* State *******/

  datatype ConfigSnapshot = ConfigSnapshot(
    revision: string, builtinRevision: string, saveGenerations: Option<map<string, string>>)

  datatype AccountSnapshot = AccountSnapshot(revision: string, basedOn: string)

  datatype Snapshot = Snapshot(config: ConfigSnapshot, account: AccountSnapshot, viewRevision: nat)

  /**
   * Where `#runRefreshLoop` stands: not in flight; suspended on the reads of a round; past its last await
   * with its finish handler still due; or ended by an exception with its handlers still due.
   */
  datatype Loop =
    | Idle
    | Reading(generation: nat, reasons: set<string>, beganAt: nat)
    | Closing
    | Threw

  /** A change event, with the moments at which its round began and the last request before it was made. */
  datatype Publication = Publication(snapshot: Snapshot, reasons: set<string>, beganAt: nat, lastRequestAt: nat)

  /**
   * The fields of the service, and the history of the run: settled promises, change events, what each
   * round read (by the moment it began) and a clock that ticks at every request and at every round.
   */
  datatype State = State(
    started: bool,
    requested: nat,
    completed: nat,
    waiters: seq<Waiter>,
    snapshot: Option<Snapshot>,
    viewRevision: nat,
    pendingReasons: set<string>,
    loop: Loop,
    disposed: bool,
    settled: seq<Settlement<Snapshot>>,
    published: seq<Publication>,
    rounds: map<nat, (ConfigSnapshot, AccountSnapshot)>,
    clock: nat,
    lastRequestAt: nat)

  const START := State(false, 0, 0, [], None, 0, {}, Idle, false, [], [], map[], 1, 0)

  datatype Source = Config | Account

  datatype Call = Start | Refresh(reason: string) | SourceChanged(source: Source, reason: string) | Dispose

  /** `calls` are the calls that the listeners of the emitted event make back into the service. */
  datatype Step =
    | Called(call: Call)
    | SourcesRead(config: ConfigSnapshot, account: AccountSnapshot, resolves: bool, calls: seq<Call>)
    | SourcesFailed(calls: seq<Call>)
    | Finished

  /******* Steps *******/

  /** The top of the loop body, up to its first await. */
  function Begin(s: State, reasons: set<string>): State {
    s.(loop := Reading(s.requested, reasons + s.pendingReasons, s.clock), pendingReasons := {}, clock := s.clock + 1)
  }

  function Continue(s: State, reasons: set<string>): State {
    if s.completed < s.requested then Begin(s, reasons) else s.(loop := Closing)
  }

  function AddRequest(s: State, reason: string): State {
    s.(requested := s.requested + 1,
       pendingReasons := s.pendingReasons + {reason},
       waiters := s.waiters + [Waiter(s.requested + 1, s.clock, reason)],
       lastRequestAt := s.clock,
       clock := s.clock + 1)
  }

  function EnsureLoop(s: State): State {
    if !s.loop.Idle? || s.disposed then s else Continue(s, {})
  }

  function Requesting(s: State, reason: string): State {
    EnsureLoop(AddRequest(s, reason))
  }

  function DisposeAll(s: State): State {
    s.(disposed := true, waiters := [], settled := s.settled + SettleAll(s.waiters))
  }

  function SourceReason(source: Source, reason: string): string {
    (if source.Config? then "config:" else "account:") + (if reason == "" then "changed" else reason)
  }

  /** Calls after disposal throw, and sources are heard from `start` to disposal. */
  function ApplyCall(s: State, call: Call): State {
    if s.disposed then s
    else
      match call
      case Start =>
        if !s.started then Requesting(s.(started := true), "start")
        else if s.snapshot.None? then Requesting(s, "start")
        else s
      case Refresh(reason) => if s.started then Requesting(s, reason) else s
      case SourceChanged(source, reason) => if s.started then Requesting(s, SourceReason(source, reason)) else s
      case Dispose => DisposeAll(s)
  }

  function ApplyCalls(s: State, calls: seq<Call>): State
    decreases |calls|
  {
    if calls == [] then s else ApplyCalls(ApplyCall(s, calls[0]), calls[1..])
  }

  function SettleUpTo(s: State, generation: nat, outcome: Option<Snapshot>, cause: Cause): State {
    s.(waiters := Keep(s.waiters, generation), settled := s.settled + Settle(s.waiters, generation, outcome, cause))
  }

  function SaveMap(saveGenerations: Option<map<string, string>>): map<string, string> {
    if saveGenerations.Some? then saveGenerations.value else map[]
  }

  /** Whether a re-read config makes a new snapshot object, and the save generations it then holds. */
  predicate NewSaveGenerations(snapshot: Snapshot, config: ConfigSnapshot) {
    SaveMap(snapshot.config.saveGenerations) != SaveMap(config.saveGenerations)
  }

  function WithSaveGenerations(snapshot: Snapshot, config: ConfigSnapshot): Snapshot {
    if NewSaveGenerations(snapshot, config) && config.saveGenerations.Some? then
      snapshot.(config := snapshot.config.(saveGenerations := config.saveGenerations))
    else
      snapshot
  }

  predicate SameSources(s: State, config: ConfigSnapshot, account: AccountSnapshot) {
    && s.snapshot.Some?
    && s.snapshot.value.config.revision == config.revision
    && s.snapshot.value.account.revision == account.revision
  }

  function Close(s: State, generation: nat): State {
    s.(completed := generation, loop := Closing)
  }

  function Resolve(s: State, round: Loop, snapshot: Snapshot): State
    requires round.Reading?
  {
    var kept := Close(s, round.generation).(snapshot := Some(snapshot), viewRevision := snapshot.viewRevision);
    SettleUpTo(kept, round.generation, Some(snapshot), Round(round.beganAt))
  }

  /** Resolves every request up to the round's generation with `snapshot`, then emits it if `emits`. */
  function Publish(s: State, round: Loop, snapshot: Snapshot, emits: bool, calls: seq<Call>): State
    requires round.Reading?
  {
    var resolved := Resolve(s, round, snapshot);
    if emits then
      ApplyCalls(resolved.(published := s.published
                             + [Publication(snapshot, round.reasons, round.beganAt, s.lastRequestAt)]), calls)
    else
      resolved
  }

  function RejectRound(s: State, round: Loop, calls: seq<Call>): State
    requires round.Reading?
  {
    SettleUpTo(ApplyCalls(Close(s, round.generation), calls), round.generation, None, Round(round.beganAt))
  }

  function KeepServing(s: State, round: Loop): State
    requires round.Reading?
  {
    var closed := Close(s, round.generation);
    if s.snapshot.Some? then SettleUpTo(closed, round.generation, s.snapshot, Retained(round.beganAt)) else closed
  }

  predicate Superseded(s: State)
    requires s.loop.Reading?
  {
    s.loop.generation < s.requested
  }

  predicate Mismatched(config: ConfigSnapshot, account: AccountSnapshot) {
    account.basedOn != config.builtinRevision
  }

  function NoteRound(s: State, config: ConfigSnapshot, account: AccountSnapshot): State
    requires s.loop.Reading?
  {
    s.(rounds := s.rounds[s.loop.beganAt := (config, account)])
  }

  /** The revisions do not match: the kept snapshot, if there is one, is handed out once more. */
  function ServeKept(s: State, round: Loop): State
    requires round.Reading?
  {
    Continue(KeepServing(s, round), {})
  }

  /** The revisions are those of the snapshot: only its save generations can be new. */
  function ServeSame(s: State, round: Loop, config: ConfigSnapshot, calls: seq<Call>): State
    requires round.Reading? && s.snapshot.Some?
  {
    Continue(Publish(s, round, WithSaveGenerations(s.snapshot.value, config),
                     NewSaveGenerations(s.snapshot.value, config), calls), {})
  }

  function ServeResolved(
    s: State, round: Loop, config: ConfigSnapshot, account: AccountSnapshot, calls: seq<Call>): State
    requires round.Reading?
  {
    Continue(Publish(s, round, Snapshot(config, account, s.viewRevision + 1), true, calls), {})
  }

  /** A round that nobody superseded, read by a service that is not disposed. */
  function ServeRound(
    s: State, round: Loop, config: ConfigSnapshot, account: AccountSnapshot, resolves: bool, calls: seq<Call>): State
    requires round.Reading?
  {
    if Mismatched(config, account) then ServeKept(s, round)
    else if SameSources(s, config, account) then ServeSame(s, round, config, calls)
    else if resolves then ServeResolved(s, round, config, account, calls)
    else RejectRound(s, round, calls)
  }

  function ApplyRead(
    s0: State, config: ConfigSnapshot, account: AccountSnapshot, resolves: bool, calls: seq<Call>): State
    requires s0.loop.Reading?
  {
    var s, round := NoteRound(s0, config, account), s0.loop;
    if Superseded(s) then Begin(s, round.reasons)
    else if s.disposed then s.(loop := Threw)
    else ServeRound(s, round, config, account, resolves, calls)
  }

  function ApplyFailure(s: State, calls: seq<Call>): State
    requires s.loop.Reading?
  {
    if Superseded(s) then Begin(s, s.loop.reasons) else RejectRound(s, s.loop, calls)
  }

  function ApplyFinish(s: State): State {
    var s' := if s.loop.Threw? then SettleUpTo(s, s.requested, None, Disposal) else s;
    var idle := s'.(loop := Idle);
    if idle.completed < idle.requested then EnsureLoop(idle) else idle
  }

  predicate Enabled(s: State, step: Step) {
    match step
    case Called(_) => true
    case SourcesRead(_, _, _, _) => s.loop.Reading?
    case SourcesFailed(_) => s.loop.Reading?
    case Finished => s.loop.Closing? || s.loop.Threw?
  }

  function Next(s: State, step: Step): State
    requires Enabled(s, step)
  {
    match step
    case Called(call) => ApplyCall(s, call)
    case SourcesRead(config, account, resolves, calls) => ApplyRead(s, config, account, resolves, calls)
    case SourcesFailed(calls) => ApplyFailure(s, calls)
    case Finished => ApplyFinish(s)
  }

  predicate Possible(s: State, steps: seq<Step>)
    decreases |steps|
  {
    steps == [] || (Enabled(s, steps[0]) && Possible(Next(s, steps[0]), steps[1..]))
  }

  function Run(s: State, steps: seq<Step>): State
    requires Possible(s, steps)
    decreases |steps|
  {
    if steps == [] then s else Run(Next(s, steps[0]), steps[1..])
  }

  /******* Invariant *******/

  /** No request is lost: in an idle, undisposed service nothing remains to be done. */
  predicate Shape(s: State) {
    && s.completed <= s.requested
    && (s.loop.Reading? ==> s.completed < s.loop.generation <= s.requested)
    && (s.loop.Idle? && !s.disposed ==> s.completed == s.requested)
    && (s.loop.Threw? ==> s.disposed)
    && (s.disposed ==> s.waiters == [])
  }

  /** A round answers exactly the requests made before it began, and nobody asked since when it is not superseded. */
  predicate Timed(s: State) {
    && s.lastRequestAt < s.clock
    && (forall w :: w in s.waiters ==> 1 <= w.generation <= s.requested && w.madeAt < s.clock)
    && (s.loop.Reading? ==>
          && s.loop.beganAt < s.clock
          && (s.loop.generation == s.requested <==> s.lastRequestAt < s.loop.beganAt)
          && forall w :: w in s.waiters ==> (w.generation <= s.loop.generation <==> w.madeAt < s.loop.beganAt))
  }

  /** Every unanswered request is named by the reasons of the round that will answer it. */
  predicate Named(s: State) {
    && (s.loop.Reading? && s.loop.generation == s.requested ==> s.pendingReasons == {})
    && forall w :: w in s.waiters && w.generation > s.completed ==>
      || w.reason in s.pendingReasons
      || (s.loop.Reading? && w.generation <= s.loop.generation && w.reason in s.loop.reasons)
  }

  /** Once something was published, nobody is left behind by a finished round. */
  predicate Served(s: State) {
    s.snapshot.Some? ==> forall w :: w in s.waiters ==> w.generation > s.completed
  }

  predicate Coherent(snapshot: Snapshot) {
    snapshot.account.basedOn == snapshot.config.builtinRevision
  }

  /** `snapshot` is what a round that read `config` and `account` stands for. */
  predicate Reflects(snapshot: Snapshot, config: ConfigSnapshot, account: AccountSnapshot) {
    && snapshot.config.revision == config.revision
    && snapshot.account.revision == account.revision
    && (config.saveGenerations.Some? ==> SaveMap(snapshot.config.saveGenerations) == config.saveGenerations.value)
  }

  /**
   * A settled promise was settled by a round that began after its request. A snapshot from such a round
   * reflects what that round read; only a round that read mismatched revisions hands out the kept one.
   */
  predicate FreshSettlement(rounds: map<nat, (ConfigSnapshot, AccountSnapshot)>, p: Settlement<Snapshot>) {
    && (p.outcome.Some? ==> Coherent(p.outcome.value))
    && match p.cause
       case Round(b) =>
         && p.waiter.madeAt < b
         && (p.outcome.Some? ==> b in rounds && Reflects(p.outcome.value, rounds[b].0, rounds[b].1))
       case Retained(b) =>
         && p.waiter.madeAt < b
         && p.outcome.Some?
         && b in rounds && Mismatched(rounds[b].0, rounds[b].1)
       case Disposal => p.outcome.None?
  }

  predicate FreshHistory(s: State) {
    && (forall b :: b in s.rounds ==> b < s.clock && (s.loop.Reading? ==> b < s.loop.beganAt))
    && (forall p :: p in s.settled ==> FreshSettlement(s.rounds, p))
  }

  /** Publications are coherent, unsuperseded, reflect their round, and never go back in revision. */
  predicate FreshPublication(rounds: map<nat, (ConfigSnapshot, AccountSnapshot)>, p: Publication) {
    && Coherent(p.snapshot)
    && p.lastRequestAt < p.beganAt
    && p.beganAt in rounds && Reflects(p.snapshot, rounds[p.beganAt].0, rounds[p.beganAt].1)
  }

  predicate Views(s: State) {
    && (s.snapshot.Some? ==> Coherent(s.snapshot.value) && s.snapshot.value.viewRevision == s.viewRevision)
    && (s.snapshot.None? ==> s.viewRevision == 0 && s.published == [])
    && (forall p :: p in s.published ==> FreshPublication(s.rounds, p) && p.snapshot.viewRevision <= s.viewRevision)
    && (forall i, j :: 0 <= i < j < |s.published| ==>
          s.published[i].snapshot.viewRevision <= s.published[j].snapshot.viewRevision)
  }

  /** What also holds in the middle of a step, while listeners run. */
  ghost predicate Steady(s: State) {
    Shape(s) && Timed(s) && Named(s) && FreshHistory(s) && Views(s) && Accounted(s.requested, s.waiters, s.settled)
  }

  ghost predicate Inv(s: State) {
    Steady(s) && Served(s)
  }

  /******* Every step keeps the invariant *******/

  lemma InvStart()
    ensures Inv(START)
  {
  }

  lemma RequestKeeps(s: State, reason: string)
    requires Steady(s) && !s.disposed
    ensures Steady(Requesting(s, reason))
    ensures Served(s) ==> Served(Requesting(s, reason))
  {
    RequestAccounts(s.requested, s.waiters, s.settled, Waiter(s.requested + 1, s.clock, reason));
    assert Timed(Requesting(s, reason)) && Named(Requesting(s, reason)) by {
      RequestNames(s, reason);
    }
    hide Accounted, FreshSettlement, FreshPublication, Timed, Named;
    assert s.clock <= Requesting(s, reason).clock;
  }

  lemma RequestNames(s: State, reason: string)
    requires Steady(s) && !s.disposed
    ensures Timed(Requesting(s, reason)) && Named(Requesting(s, reason))
  {
    hide Accounted, FreshHistory, Views;
  }

  lemma DisposeKeeps(s: State)
    requires Steady(s)
    ensures Steady(DisposeAll(s)) && Served(DisposeAll(s))
  {
    DisposalAccounts(s.requested, s.waiters, s.settled);
    forall p | p in SettleAll<Snapshot>(s.waiters)
      ensures p.outcome.None? && p.cause.Disposal?
    {
      SettleAllMember(s.waiters, p);
    }
  }

  /** Calls never touch what rounds decide. */
  predicate SameRound(s: State, s': State) {
    && s'.completed == s.completed && s'.snapshot == s.snapshot && s'.viewRevision == s.viewRevision
    && s'.published == s.published && s'.rounds == s.rounds
    && (!s.loop.Idle? ==> s'.loop == s.loop)
    && s.clock <= s'.clock && s.requested <= s'.requested
    && (s.disposed ==> s' == s)
  }

  lemma CallSame(s: State, call: Call)
    ensures SameRound(s, ApplyCall(s, call))
  {
  }

  lemma StartedKeeps(s: State)
    requires Steady(s)
    ensures Steady(s.(started := true))
    ensures Served(s) ==> Served(s.(started := true))
  {
    hide Accounted, FreshSettlement, FreshPublication;
  }

  lemma CallKeeps(s: State, call: Call)
    requires Steady(s)
    ensures Steady(ApplyCall(s, call)) && SameRound(s, ApplyCall(s, call))
    ensures Served(s) ==> Served(ApplyCall(s, call))
  {
    CallSame(s, call);
    hide Steady, Served, Requesting, DisposeAll, SameRound;
    if !s.disposed {
      StartedKeeps(s);
      match call
      case Start =>
        RequestKeeps(s, "start");
        RequestKeeps(s.(started := true), "start");
      case Refresh(reason) => RequestKeeps(s, reason);
      case SourceChanged(source, reason) => RequestKeeps(s, SourceReason(source, reason));
      case Dispose => DisposeKeeps(s);
    }
  }

  lemma {:induction false} CallsKeep(s: State, calls: seq<Call>)
    requires Steady(s)
    ensures Steady(ApplyCalls(s, calls)) && SameRound(s, ApplyCalls(s, calls))
    ensures Served(s) ==> Served(ApplyCalls(s, calls))
    decreases |calls|
  {
    hide Steady, Served, ApplyCall;
    if calls != [] {
      CallKeeps(s, calls[0]);
      CallsKeep(ApplyCall(s, calls[0]), calls[1..]);
    }
  }

  lemma BeginKeeps(s: State, reasons: set<string>)
    requires Steady(s) && s.completed < s.requested
    requires s.loop.Reading? ==> reasons == s.loop.reasons
    ensures Steady(Begin(s, reasons))
    ensures Served(s) ==> Served(Begin(s, reasons))
  {
  }

  lemma ContinueKeeps(s: State)
    requires Inv(s) && s.loop.Closing?
    ensures Inv(Continue(s, {}))
  {
    if s.completed < s.requested {
      BeginKeeps(s, {});
    }
  }

  /** Settling the requests of a finished round, whose settlements must be fresh. */
  lemma SettleKeeps(s: State, outcome: Option<Snapshot>, cause: Cause)
    requires Steady(s) && !s.loop.Reading?
    requires forall w :: w in s.waiters && w.generation <= s.completed ==>
      FreshSettlement(s.rounds, Settlement(w, outcome, cause))
    ensures Steady(SettleUpTo(s, s.completed, outcome, cause)) && Served(SettleUpTo(s, s.completed, outcome, cause))
  {
    hide Accounted;
    SettlingAccounts(s.requested, s.waiters, s.settled, s.completed, outcome, cause);
    var s' := SettleUpTo(s, s.completed, outcome, cause);
    forall w | w in s'.waiters
      ensures w in s.waiters && w.generation > s.completed
    {
      KeepMember(s.waiters, s.completed, w);
    }
    forall p | p in Settle(s.waiters, s.completed, outcome, cause)
      ensures FreshSettlement(s.rounds, p)
    {
      SettleMember(s.waiters, s.completed, outcome, cause, p);
    }
  }

  lemma CloseKeeps(s: State, config: ConfigSnapshot, account: AccountSnapshot)
    requires Inv(s) && s.loop.Reading? && !Superseded(s)
    ensures Steady(Close(s, s.loop.generation)) && Steady(Close(NoteRound(s, config, account), s.loop.generation))
    ensures forall w :: w in s.waiters ==> w.madeAt < s.loop.beganAt
  {
    hide Accounted;
    NoteExtends(s, config, account);
  }

  /** Noting what a round read changes nothing that was said about earlier rounds. */
  lemma NoteExtends(s: State, config: ConfigSnapshot, account: AccountSnapshot)
    requires Inv(s) && s.loop.Reading?
    ensures s.loop.beganAt !in s.rounds
    ensures forall p :: p in s.settled ==> FreshSettlement(NoteRound(s, config, account).rounds, p)
    ensures forall p :: p in s.published ==> FreshPublication(NoteRound(s, config, account).rounds, p)
  {
  }

  lemma SupersededKeeps(s: State, config: ConfigSnapshot, account: AccountSnapshot)
    requires Inv(s) && s.loop.Reading? && Superseded(s)
    ensures Inv(Begin(NoteRound(s, config, account), s.loop.reasons)) && Inv(Begin(s, s.loop.reasons))
  {
    hide Accounted;
    NoteExtends(s, config, account);
  }

  lemma RejectKeeps(s: State, round: Loop, calls: seq<Call>)
    requires round.Reading? && Steady(Close(s, round.generation))
    requires forall w :: w in s.waiters ==> w.generation <= round.generation ==> w.madeAt < round.beganAt
    requires s.requested == round.generation
    ensures Inv(RejectRound(s, round, calls))
  {
    var t := ApplyCalls(Close(s, round.generation), calls);
    CallsKeep(Close(s, round.generation), calls);
    OldWaiters(Close(s, round.generation), calls, round.generation);
    hide Steady, Served, ApplyCalls;
    SettleKeeps(t, None, Round(round.beganAt));
  }

  /** The requests that calls leave waiting are those that were waiting, or newer ones. */
  lemma {:induction false} OldWaiters(s: State, calls: seq<Call>, generation: nat)
    requires generation <= s.requested && !s.loop.Idle?
    ensures forall w :: w in ApplyCalls(s, calls).waiters && w.generation <= generation ==> w in s.waiters
    decreases |calls|
  {
    if calls != [] {
      OldWaiters(ApplyCall(s, calls[0]), calls[1..], generation);
    }
  }

  lemma PublishKeeps(s: State, round: Loop, snapshot: Snapshot, emits: bool, calls: seq<Call>)
    requires round.Reading? && Steady(Close(s, round.generation))
    requires Coherent(snapshot) && s.viewRevision <= snapshot.viewRevision
    requires s.snapshot.None? ==> emits
    requires round.beganAt in s.rounds && Reflects(snapshot, s.rounds[round.beganAt].0, s.rounds[round.beganAt].1)
    requires s.lastRequestAt < round.beganAt && forall w :: w in s.waiters ==> w.madeAt < round.beganAt
    ensures Inv(Publish(s, round, snapshot, emits, calls))
    ensures Publish(s, round, snapshot, emits, calls).loop.Closing?
  {
    var closed := Close(s, round.generation).(snapshot := Some(snapshot), viewRevision := snapshot.viewRevision);
    assert Steady(closed) by {
      hide Accounted;
    }
    SettleKeeps(closed, Some(snapshot), Round(round.beganAt));
    var resolved := SettleUpTo(closed, round.generation, Some(snapshot), Round(round.beganAt));
    if emits {
      var emitted := resolved.(published := s.published
                                + [Publication(snapshot, round.reasons, round.beganAt, s.lastRequestAt)]);
      assert Steady(emitted) && Served(emitted) by {
        hide Accounted, SettleUpTo;
      }
      CallsKeep(emitted, calls);
    }
  }

  /** A round whose requests all came before it, ready to be closed, and what it read. */
  ghost predicate Answerable(s: State, round: Loop, config: ConfigSnapshot, account: AccountSnapshot) {
    && round.Reading? && Steady(Close(s, round.generation)) && s.requested == round.generation
    && s.lastRequestAt < round.beganAt && (forall w :: w in s.waiters ==> w.madeAt < round.beganAt)
    && round.beganAt in s.rounds && s.rounds[round.beganAt] == (config, account)
  }

  lemma NoteAnswerable(s: State, config: ConfigSnapshot, account: AccountSnapshot)
    requires Inv(s) && s.loop.Reading? && !Superseded(s)
    ensures Answerable(NoteRound(s, config, account), s.loop, config, account)
  {
    CloseKeeps(s, config, account);
    hide Steady, Accounted;
  }

  lemma KeptKeeps(s: State, round: Loop, config: ConfigSnapshot, account: AccountSnapshot)
    requires Answerable(s, round, config, account) && Mismatched(config, account)
    ensures Inv(ServeKept(s, round))
  {
    var closed := Close(s, round.generation);
    ViewsAt(closed);
    if s.snapshot.Some? {
      hide Steady, Served;
      SettleKeeps(closed, s.snapshot, Retained(round.beganAt));
    }
    ContinueKeeps(KeepServing(s, round));
  }

  lemma ViewsAt(s: State)
    requires Steady(s)
    ensures s.snapshot.Some? ==> Coherent(s.snapshot.value) && s.snapshot.value.viewRevision == s.viewRevision
  {
  }

  lemma SameKeeps(s: State, round: Loop, config: ConfigSnapshot, account: AccountSnapshot, calls: seq<Call>)
    requires Answerable(s, round, config, account) && SameSources(s, config, account)
    ensures Inv(ServeSame(s, round, config, calls))
  {
    ViewsAt(Close(s, round.generation));
    hide Inv, Steady, Publish, Continue;
    var next := WithSaveGenerations(s.snapshot.value, config);
    PublishKeeps(s, round, next, NewSaveGenerations(s.snapshot.value, config), calls);
    ContinueKeeps(Publish(s, round, next, NewSaveGenerations(s.snapshot.value, config), calls));
  }

  lemma ResolvedKeeps(s: State, round: Loop, config: ConfigSnapshot, account: AccountSnapshot, calls: seq<Call>)
    requires Answerable(s, round, config, account) && !Mismatched(config, account)
    ensures Inv(ServeResolved(s, round, config, account, calls))
  {
    hide Inv, Steady, Publish, Continue;
    var next := Snapshot(config, account, s.viewRevision + 1);
    PublishKeeps(s, round, next, true, calls);
    ContinueKeeps(Publish(s, round, next, true, calls));
  }

  lemma ServeKeeps(
    s: State, round: Loop, config: ConfigSnapshot, account: AccountSnapshot, resolves: bool, calls: seq<Call>)
    requires Answerable(s, round, config, account)
    ensures Inv(ServeRound(s, round, config, account, resolves, calls))
  {
    hide Inv, Steady, ServeKept, ServeSame, ServeResolved, RejectRound;
    if Mismatched(config, account) {
      KeptKeeps(s, round, config, account);
    } else if SameSources(s, config, account) {
      SameKeeps(s, round, config, account, calls);
    } else if resolves {
      ResolvedKeeps(s, round, config, account, calls);
    } else {
      RejectKeeps(s, round, calls);
    }
  }

  lemma ThrewKeeps(s: State, config: ConfigSnapshot, account: AccountSnapshot)
    requires Inv(s) && s.loop.Reading? && s.disposed
    ensures Inv(NoteRound(s, config, account).(loop := Threw))
  {
    NoteExtends(s, config, account);
    hide Accounted, FreshSettlement, FreshPublication;
  }

  lemma ReadKeeps(s: State, config: ConfigSnapshot, account: AccountSnapshot, resolves: bool, calls: seq<Call>)
    requires Inv(s) && s.loop.Reading?
    ensures Inv(ApplyRead(s, config, account, resolves, calls))
  {
    hide Inv, Answerable, ServeRound, Begin;
    if Superseded(s) {
      SupersededKeeps(s, config, account);
    } else if s.disposed {
      ThrewKeeps(s, config, account);
    } else {
      NoteAnswerable(s, config, account);
      AnswerableRound(NoteRound(s, config, account), s.loop, config, account);
      ServeKeeps(NoteRound(s, config, account), s.loop, config, account, resolves, calls);
    }
  }

  lemma AnswerableRound(s: State, round: Loop, config: ConfigSnapshot, account: AccountSnapshot)
    requires Answerable(s, round, config, account)
    ensures round.Reading?
  {
  }

  lemma FinishKeeps(s: State)
    requires Inv(s) && (s.loop.Closing? || s.loop.Threw?)
    ensures Inv(ApplyFinish(s))
  {
    if s.loop.Threw? {
      assert SettleUpTo(s, s.requested, None, Disposal) == s;
    }
  }

  /** The invariant of one step, whichever it is. */
  lemma InvNext(s: State, step: Step)
    requires Inv(s) && Enabled(s, step)
    ensures Inv(Next(s, step))
  {
    hide Steady, Served, ApplyRead, ApplyFinish, RejectRound, ApplyCall;
    match step
    case Called(call) => CallKeeps(s, call);
    case SourcesRead(config, account, resolves, calls) => ReadKeeps(s, config, account, resolves, calls);
    case SourcesFailed(calls) => FailureKeeps(s, calls);
    case Finished => FinishKeeps(s);
  }

  lemma FailureKeeps(s: State, calls: seq<Call>)
    requires Inv(s) && s.loop.Reading?
    ensures Inv(ApplyFailure(s, calls))
  {
    var any := (ConfigSnapshot("", "", None), AccountSnapshot("", ""));
    if Superseded(s) {
      SupersededKeeps(s, any.0, any.1);
    } else {
      CloseKeeps(s, any.0, any.1);
      RejectKeeps(s, s.loop, calls);
    }
  }

  /** Every reachable state, over every interleaving. */
  lemma {:induction false} InvRun(s: State, steps: seq<Step>)
    requires Inv(s) && Possible(s, steps)
    ensures Inv(Run(s, steps))
    decreases |steps|
  {
    hide Inv, Next;
    if steps != [] {
      InvNext(s, steps[0]);
      InvRun(Next(s, steps[0]), steps[1..]);
    }
  }

  /******* What holds over whole runs *******/

  /** No promise is resolved or failed by a round that began before its request, and no such round publishes. */
  lemma Freshness(steps: seq<Step>)
    requires Possible(START, steps)
    ensures var s := Run(START, steps);
      && (forall p :: p in s.settled && !p.cause.Disposal? ==> p.waiter.madeAt < p.cause.beganAt)
      && (forall p :: p in s.settled && p.outcome.Some? ==>
            && Coherent(p.outcome.value)
            && !p.cause.Disposal?
            && p.cause.beganAt in s.rounds
            && var read := s.rounds[p.cause.beganAt];
               if p.cause.Round? then Reflects(p.outcome.value, read.0, read.1) else Mismatched(read.0, read.1))
      && (forall p :: p in s.published ==> p.lastRequestAt < p.beganAt && Coherent(p.snapshot))
  {
    InvStart();
    InvRun(START, steps);
  }

  /** No request is lost or answered twice, and an idle service owes nothing once it has published. */
  lemma NoLostRequest(steps: seq<Step>)
    requires Possible(START, steps)
    ensures var s := Run(START, steps);
      && (!s.disposed && s.completed < s.requested ==> !s.loop.Idle?)
      && (s.loop.Idle? && s.waiters != [] ==> s.snapshot.None? && !s.disposed)
      && (forall g: nat :: 1 <= g <= s.requested ==> IsWaiting(s.waiters, g) || IsSettled(s.settled, g))
      && (forall i, j :: 0 <= i < j < |s.settled| ==> s.settled[i].waiter.generation != s.settled[j].waiter.generation)
      && (forall w, p :: w in s.waiters && p in s.settled ==> w.generation != p.waiter.generation)
  {
    InvStart();
    InvRun(START, steps);
    var s := Run(START, steps);
    hide Possible, Run, Next, Enabled;
    SettledOnce(s.requested, s.waiters, s.settled);
    forall g: nat | 1 <= g <= s.requested
      ensures IsWaiting(s.waiters, g) || IsSettled(s.settled, g)
    {
      NoneLost(s.requested, s.waiters, s.settled, g);
    }
    if s.loop.Idle? && s.waiters != [] {
      assert s.waiters[0] in s.waiters;
    }
  }

  /** A change event names the reason of every request it is the first to answer. */
  lemma EventsNameTheirRequests(s: State, w: Waiter)
    requires Inv(s) && s.loop.Reading? && !Superseded(s)
    requires w in s.waiters && w.generation > s.completed
    ensures w.reason in s.loop.reasons
  {
  }

  /** `s'` extends the history of `s`; a disposed service settles, publishes and replaces nothing any more. */
  predicate Extends(s: State, s': State) {
    && s.viewRevision <= s'.viewRevision
    && s.settled <= s'.settled
    && s.published <= s'.published
    && (s.snapshot.Some? ==> s'.snapshot.Some?)
    && (s.disposed ==>
          s'.disposed && s'.settled == s.settled && s'.published == s.published && s'.snapshot == s.snapshot)
  }

  lemma {:induction false} CallsExtend(s: State, calls: seq<Call>)
    ensures Extends(s, ApplyCalls(s, calls))
    decreases |calls|
  {
    if calls != [] {
      CallsExtend(ApplyCall(s, calls[0]), calls[1..]);
    }
  }

  lemma ResolveExtends(s: State, round: Loop, snapshot: Snapshot)
    requires round.Reading?
    ensures Resolve(s, round, snapshot).published == s.published
    ensures Resolve(s, round, snapshot).lastRequestAt == s.lastRequestAt
  {
  }

  lemma SettleExtends(s: State, generation: nat, outcome: Option<Snapshot>, cause: Cause)
    requires s.disposed ==> s.waiters == []
    ensures Extends(s, SettleUpTo(s, generation, outcome, cause))
  {
    if s.waiters == [] {
      assert SettleUpTo(s, generation, outcome, cause) == s;
    }
  }

  lemma RejectExtends(s: State, round: Loop, calls: seq<Call>)
    requires round.Reading? && (s.disposed ==> s.waiters == [])
    requires Steady(Close(s, round.generation))
    ensures Extends(s, RejectRound(s, round, calls))
  {
    var closed := Close(s, round.generation);
    CallsExtend(closed, calls);
    CallsKeep(closed, calls);
    SettleExtends(ApplyCalls(closed, calls), round.generation, None, Round(round.beganAt));
  }

  lemma PublishExtends(s: State, round: Loop, snapshot: Snapshot, emits: bool, calls: seq<Call>)
    requires round.Reading? && !s.disposed && s.viewRevision <= snapshot.viewRevision
    ensures Extends(s, Publish(s, round, snapshot, emits, calls))
  {
    var resolved := Resolve(s, round, snapshot);
    CallsExtend(resolved.(published := s.published
                  + [Publication(snapshot, round.reasons, round.beganAt, s.lastRequestAt)]), calls);
  }

  lemma ServeExtends(
    s: State, round: Loop, config: ConfigSnapshot, account: AccountSnapshot, resolves: bool, calls: seq<Call>)
    requires Answerable(s, round, config, account) && !s.disposed
    ensures Extends(s, ServeRound(s, round, config, account, resolves, calls))
  {
    ViewsAt(Close(s, round.generation));
    hide Steady, Publish, RejectRound;
    if Mismatched(config, account) {
      SettleExtends(Close(s, round.generation), round.generation, s.snapshot, Retained(round.beganAt));
    } else if SameSources(s, config, account) {
      PublishExtends(s, round, WithSaveGenerations(s.snapshot.value, config),
                     NewSaveGenerations(s.snapshot.value, config), calls);
    } else if resolves {
      PublishExtends(s, round, Snapshot(config, account, s.viewRevision + 1), true, calls);
    } else {
      RejectExtends(s, round, calls);
    }
  }

  lemma ReadExtends(s: State, config: ConfigSnapshot, account: AccountSnapshot, resolves: bool, calls: seq<Call>)
    requires Inv(s) && s.loop.Reading?
    ensures Extends(s, ApplyRead(s, config, account, resolves, calls))
  {
    hide Inv, Answerable, ServeRound;
    if !Superseded(s) && !s.disposed {
      NoteAnswerable(s, config, account);
      AnswerableRound(NoteRound(s, config, account), s.loop, config, account);
      ServeExtends(NoteRound(s, config, account), s.loop, config, account, resolves, calls);
    }
  }

  /** Every step only extends the history: the view revision never goes back and disposal is final. */
  lemma HistoryOnlyGrows(s: State, step: Step)
    requires Inv(s) && Enabled(s, step)
    ensures Extends(s, Next(s, step))
  {
    hide ApplyRead, RejectRound, ApplyCalls;
    match step
    case Called(call) => CallsExtend(s, [call]); OneCall(s, call);
    case SourcesRead(config, account, resolves, calls) => ReadExtends(s, config, account, resolves, calls);
    case SourcesFailed(calls) =>
      if !Superseded(s) {
        CloseKeeps(s, ConfigSnapshot("", "", None), AccountSnapshot("", ""));
        RejectExtends(s, s.loop, calls);
      }
    case Finished =>
      SettleExtends(s, s.requested, None, Disposal);
  }

  lemma OneCall(s: State, call: Call)
    ensures ApplyCalls(s, [call]) == ApplyCall(s, call)
  {
    assert [call][1..] == [];
  }

  /******* Progress *******/

  /** What the service does next when nobody calls it and the sources return these snapshots. */
  function LoopStep(s: State, config: ConfigSnapshot, account: AccountSnapshot): State {
    if s.loop.Idle? then s
    else if s.loop.Reading? then ApplyRead(s, config, account, true, [])
    else ApplyFinish(s)
  }

  function Drain(s: State, config: ConfigSnapshot, account: AccountSnapshot, n: nat): State
    decreases n
  {
    if n == 0 then s else Drain(LoopStep(s, config, account), config, account, n - 1)
  }

  /** Whether some request still needs a round to finish. */
  predicate Unfinished(s: State) {
    s.completed < s.requested
  }

  predicate AnsweredFrom(
    settled: seq<Settlement<Snapshot>>, w: Waiter, config: ConfigSnapshot, account: AccountSnapshot)
  {
    exists p ::
      p in settled && p.waiter == w && p.cause.Round? && p.outcome.Some? && Reflects(p.outcome.value, config, account)
  }

  /** What one read of these snapshots leaves behind for those who were waiting in `s`. */
  predicate Answered(s: State, t: State, config: ConfigSnapshot, account: AccountSnapshot) {
    && t.loop.Closing? && t.completed == t.requested == s.requested && t.disposed == s.disposed
    && (!Mismatched(config, account) ==>
          && t.waiters == [] && t.snapshot.Some? && Reflects(t.snapshot.value, config, account)
          && forall w :: w in s.waiters ==> AnsweredFrom(t.settled, w, config, account))
    && (Mismatched(config, account) ==> t.waiters == if s.snapshot.Some? then [] else s.waiters)
    && t.snapshot.Some? == (s.snapshot.Some? || !Mismatched(config, account))
  }

  lemma PublishAnswers(
    s: State, round: Loop, snapshot: Snapshot, emits: bool, config: ConfigSnapshot, account: AccountSnapshot)
    requires round.Reading? && round.generation == s.requested && AllUpTo(s)
    requires !Mismatched(config, account) && Reflects(snapshot, config, account)
    ensures Answered(s, Continue(Publish(s, round, snapshot, emits, []), {}), config, account)
  {
    hide Mismatched, Reflects;
    var t := Publish(s, round, snapshot, emits, []);
    KeepNone(s.waiters, round.generation);
    var cause := Round(round.beganAt);
    forall w | w in s.waiters
      ensures AnsweredFrom(t.settled, w, config, account)
    {
      SettleMember(s.waiters, round.generation, Some(snapshot), cause, Settlement(w, Some(snapshot), cause));
      assert Settlement(w, Some(snapshot), cause) in t.settled;
    }
  }

  lemma KeptAnswers(s: State, round: Loop, config: ConfigSnapshot, account: AccountSnapshot)
    requires round.Reading? && round.generation == s.requested && AllUpTo(s) && Mismatched(config, account)
    ensures Answered(s, ServeKept(s, round), config, account)
  {
    KeepNone(s.waiters, round.generation);
    hide Settle, Keep;
  }

  lemma SameReflects(s: State, config: ConfigSnapshot, account: AccountSnapshot)
    requires SameSources(s, config, account)
    ensures Reflects(WithSaveGenerations(s.snapshot.value, config), config, account)
  {
  }

  lemma ServeAnswers(s: State, round: Loop, config: ConfigSnapshot, account: AccountSnapshot)
    requires round.Reading? && round.generation == s.requested && AllUpTo(s)
    ensures Answered(s, ServeRound(s, round, config, account, true, []), config, account)
  {
    hide Answered, AllUpTo, ServeKept, Publish, Reflects, WithSaveGenerations, NewSaveGenerations;
    if Mismatched(config, account) {
      KeptAnswers(s, round, config, account);
    } else if SameSources(s, config, account) {
      SameReflects(s, config, account);
      PublishAnswers(s, round, WithSaveGenerations(s.snapshot.value, config),
                     NewSaveGenerations(s.snapshot.value, config), config, account);
    } else {
      var next := Snapshot(config, account, s.viewRevision + 1);
      assert Reflects(next, config, account) by {
        ReadReflects(config, account, s.viewRevision + 1);
      }
      PublishAnswers(s, round, next, true, config, account);
    }
  }

  lemma ReadReflects(config: ConfigSnapshot, account: AccountSnapshot, viewRevision: nat)
    ensures Reflects(Snapshot(config, account, viewRevision), config, account)
  {
  }

  /** One unsuperseded read of matching snapshots answers everybody. */
  lemma ReadAnswers(s: State, config: ConfigSnapshot, account: AccountSnapshot)
    requires Inv(s) && !s.disposed && s.loop.Reading? && !Superseded(s)
    ensures Inv(ApplyRead(s, config, account, true, []))
    ensures Answered(s, ApplyRead(s, config, account, true, []), config, account)
  {
    ReadKeeps(s, config, account, true, []);
    WaitersAreRequested(s);
    NothingNewer(s);
    hide Inv, Answered, ServeRound;
    var n := NoteRound(s, config, account);
    ServeAnswers(n, s.loop, config, account);
    SameDebts(s, n, ApplyRead(s, config, account, true, []), config, account);
  }

  lemma NothingNewer(s: State)
    requires Inv(s) && s.loop.Reading? && !Superseded(s)
    ensures s.loop.generation == s.requested
  {
  }

  lemma SameDebts(s: State, n: State, t: State, config: ConfigSnapshot, account: AccountSnapshot)
    requires Answered(n, t, config, account)
    requires n.requested == s.requested && n.waiters == s.waiters
    requires n.snapshot == s.snapshot && n.disposed == s.disposed
    ensures Answered(s, t, config, account)
  {
  }

  predicate AllUpTo(s: State) {
    forall w :: w in s.waiters ==> w.generation <= s.requested
  }

  lemma WaitersAreRequested(s: State)
    requires Inv(s)
    ensures AllUpTo(s)
  {
  }

  lemma {:induction false} KeepNone(waiters: seq<Waiter>, generation: nat)
    requires forall w :: w in waiters ==> w.generation <= generation
    ensures Keep(waiters, generation) == []
    decreases |waiters|
  {
    if waiters != [] {
      KeepNone(waiters[1..], generation);
    }
  }

  /** What a drained service has done for those who were waiting in `s`. */
  predicate Drained(s: State, t: State, config: ConfigSnapshot, account: AccountSnapshot) {
    && t.loop.Idle? && t.completed == t.requested == s.requested
    && (t.waiters == [] <==>
          s.waiters == [] || (if Mismatched(config, account) then s.snapshot.Some? else Unfinished(s)))
    && (Unfinished(s) && !Mismatched(config, account) ==>
          && t.snapshot.Some? && Reflects(t.snapshot.value, config, account)
          && forall w :: w in s.waiters ==> AnsweredFrom(t.settled, w, config, account))
  }

  lemma DrainsFromRead(s: State, config: ConfigSnapshot, account: AccountSnapshot)
    requires Inv(s) && !s.disposed && s.loop.Reading? && !Superseded(s)
    ensures Drained(s, Drain(s, config, account, 2), config, account)
    ensures Drain(s, config, account, 3) == Drain(s, config, account, 2)
  {
    ReadAnswers(s, config, account);
    var t := ApplyRead(s, config, account, true, []);
    assert LoopStep(s, config, account) == t;
    hide ApplyRead, Inv, AnsweredFrom, Mismatched, Reflects;
    var u := ApplyFinish(t);
    assert Drain(t, config, account, 1) == u;
    assert Drain(t, config, account, 2) == u;
  }

  /**
   * Progress: left alone, the service is idle after at most four steps. With matching snapshots every
   * unfinished request is answered from them; somebody stays waiting only if the snapshots never matched.
   */
  lemma Quiesces(s: State, config: ConfigSnapshot, account: AccountSnapshot)
    requires Inv(s) && !s.disposed
    ensures Drained(s, Drain(s, config, account, 4), config, account)
  {
    var t := LoopStep(s, config, account);
    var u := LoopStep(t, config, account);
    assert Drain(s, config, account, 4) == Drain(t, config, account, 3) == Drain(u, config, account, 2);
    if s.loop.Reading? && !Superseded(s) {
      DrainsFromRead(s, config, account);
      FixedWhenIdle(Drain(s, config, account, 3), config, account);
      DrainAdds(s, config, account, 3);
    } else if s.loop.Reading? {
      SupersededKeeps(s, config, account);
      assert t == Begin(NoteRound(s, config, account), s.loop.reasons);
      DrainsFromRead(t, config, account);
    } else if Unfinished(s) {
      FinishKeeps(s);
      DrainsFromRead(t, config, account);
      DrainAdds(s, config, account, 2);
    } else {
      StaysWaiting(s);
      assert t == s.(loop := Idle);
      assert u == t;
      FixedWhenIdle(t, config, account);
    }
  }

  lemma StaysWaiting(s: State)
    requires Inv(s) && !s.disposed && !Unfinished(s)
    ensures s.snapshot.Some? ==> s.waiters == []
  {
    if s.waiters != [] {
      assert s.waiters[0] in s.waiters;
    }
  }

  lemma FixedWhenIdle(s: State, config: ConfigSnapshot, account: AccountSnapshot)
    requires s.loop.Idle?
    ensures Drain(s, config, account, 1) == s && Drain(s, config, account, 2) == s
  {
    assert Drain(s, config, account, 1) == Drain(s, config, account, 0);
  }

  lemma {:induction false} DrainAdds(s: State, config: ConfigSnapshot, account: AccountSnapshot, n: nat)
    ensures Drain(s, config, account, n + 1) == LoopStep(Drain(s, config, account, n), config, account)
    decreases n
  {
    hide LoopStep;
    if n > 0 {
      DrainAdds(LoopStep(s, config, account), config, account, n - 1);
    }
  }

  /** Somebody is left waiting: the first round ever reads snapshots that do not match. */
  lemma FirstMismatchLeavesWaiting(config: ConfigSnapshot, account: AccountSnapshot)
    requires Mismatched(config, account)
    ensures var steps := [Called(Start), SourcesRead(config, account, true, []), Finished];
      && Possible(START, steps)
      && var s := Run(START, steps);
         && s.loop.Idle? && !s.disposed && s.snapshot.None? && s.settled == []
         && s.waiters == [Waiter(1, 1, "start")]
  {
    var steps := [Called(Start), SourcesRead(config, account, true, []), Finished];
    var s1 := Next(START, steps[0]);
    var s2 := Next(s1, steps[1]);
    var s3 := Next(s2, steps[2]);
    assert s3.waiters == [Waiter(1, 1, "start")] && s3.loop.Idle?;
    hide Next, Enabled;
    assert steps[2..][1..] == [] && Possible(s2, steps[2..]) && Run(s2, steps[2..]) == s3;
    assert steps[1..][1..] == steps[2..] && Possible(s1, steps[1..]) && Run(s1, steps[1..]) == s3;
  }

  /******* The service *******/

  /**
   * The ghost fields are the history of the service. `clock` is the one addition to the original's fields
   * that is not ghost: waiters and rounds are stamped with it.
   */
  class ProviderRegistryService {
    var started: bool
    var requestedGeneration: nat
    var completedGeneration: nat
    var refreshWaiters: seq<Waiter>
    var snapshot: Option<Snapshot>
    var viewRevision: nat
    var pendingReasons: set<string>
    var refreshInFlight: Loop
    var disposed: bool
    ghost var settled: seq<Settlement<Snapshot>>
    ghost var published: seq<Publication>
    ghost var rounds: map<nat, (ConfigSnapshot, AccountSnapshot)>
    var clock: nat
    ghost var lastRequestAt: nat

    ghost function Current(): State
      reads this
    {
      State(started, requestedGeneration, completedGeneration, refreshWaiters, snapshot, viewRevision, pendingReasons,
            refreshInFlight, disposed, settled, published, rounds, clock, lastRequestAt)
    }

    ghost predicate Valid()
      reads this
    {
      Inv(Current())
    }

    constructor ()
      ensures Valid() && Current() == START
    {
      started, requestedGeneration, completedGeneration, refreshWaiters := false, 0, 0, [];
      snapshot, viewRevision, pendingReasons, refreshInFlight, disposed := None, 0, {}, Idle, false;
      settled, published, rounds, clock, lastRequestAt := [], [], map[], 1, 0;
      new;
      InvStart();
    }

    /** The loop condition and, if it holds, the round's start up to its reads. */
    method ContinueLoop(reasons: set<string>)
      modifies this
      ensures Current() == Continue(old(Current()), reasons)
    {
      if completedGeneration < requestedGeneration {
        refreshInFlight := Reading(requestedGeneration, reasons + pendingReasons, clock);
        pendingReasons := {};
        clock := clock + 1;
      } else {
        refreshInFlight := Closing;
      }
    }

    method EnsureRefreshLoop()
      modifies this
      ensures Current() == EnsureLoop(old(Current()))
    {
      if !refreshInFlight.Idle? || disposed {
        return;
      }
      ContinueLoop({});
    }

    method RequestRefresh(reason: string)
      modifies this
      ensures Current() == Requesting(old(Current()), reason)
    {
      hide EnsureLoop;
      var generation := requestedGeneration + 1;
      requestedGeneration := generation;
      pendingReasons := pendingReasons + {reason};
      refreshWaiters := refreshWaiters + [Waiter(generation, clock, reason)];
      lastRequestAt := clock;
      clock := clock + 1;
      EnsureRefreshLoop();
    }

    method DisposeService()
      requires !disposed
      modifies this
      ensures Current() == DisposeAll(old(Current()))
    {
      disposed := true;
      ghost var waiting := refreshWaiters;
      assert SettleAll<Snapshot>(waiting) == [] + SettleAll(waiting);
      while refreshWaiters != []
        invariant settled + SettleAll(refreshWaiters) == old(settled) + SettleAll(waiting)
        invariant Current() == old(Current()).(disposed := true, waiters := refreshWaiters, settled := settled)
        decreases |refreshWaiters|
      {
        AppendLaws(settled, [Settlement(refreshWaiters[0], None, Disposal)], SettleAll(refreshWaiters[1..]));
        settled := settled + [Settlement(refreshWaiters[0], None, Disposal)];
        refreshWaiters := refreshWaiters[1..];
      }
      AppendLaws(settled, [], []);
    }

    method Receive(call: Call)
      modifies this
      ensures Current() == ApplyCall(old(Current()), call)
    {
      if !disposed {
        match call
        case Start =>
          if !started {
            started := true;
            RequestRefresh("start");
          } else if snapshot.None? {
            RequestRefresh("start");
          }
        case Refresh(reason) =>
          if started {
            RequestRefresh(reason);
          }
        case SourceChanged(source, reason) =>
          if started {
            RequestRefresh(SourceReason(source, reason));
          }
        case Dispose => DisposeService();
      }
    }

    /** The calls that listeners make back into the service, one after the other. */
    method RunListeners(calls: seq<Call>)
      modifies this
      ensures Current() == ApplyCalls(old(Current()), calls)
    {
      var left := calls;
      while left != []
        invariant ApplyCalls(Current(), left) == ApplyCalls(old(Current()), calls)
        decreases |left|
      {
        Receive(left[0]);
        left := left[1..];
      }
    }

    method SettleRefreshWaiters(generation: nat, outcome: Option<Snapshot>, cause: Cause)
      modifies this`refreshWaiters, this`settled
      ensures Current() == SettleUpTo(old(Current()), generation, outcome, cause)
    {
      var remaining, answered := SettleWaiters(refreshWaiters, generation, outcome, cause);
      refreshWaiters, settled := remaining, settled + answered;
    }

    method RejectAfterListeners(round: Loop, calls: seq<Call>)
      requires round.Reading?
      modifies this
      ensures Current() == RejectRound(old(Current()), round, calls)
    {
      completedGeneration, refreshInFlight := round.generation, Closing;
      RunListeners(calls);
      SettleRefreshWaiters(round.generation, None, Round(round.beganAt));
    }

    method ResolveRequests(round: Loop, next: Snapshot)
      requires round.Reading?
      modifies this
      ensures Current() == Resolve(old(Current()), round, next)
    {
      hide Keep, Settle;
      snapshot, viewRevision := Some(next), next.viewRevision;
      completedGeneration, refreshInFlight := round.generation, Closing;
      SettleRefreshWaiters(round.generation, Some(next), Round(round.beganAt));
    }

    method PublishSnapshot(round: Loop, next: Snapshot, emits: bool, calls: seq<Call>)
      requires round.Reading?
      modifies this
      ensures Current() == Publish(old(Current()), round, next, emits, calls)
    {
      hide ApplyCalls, Resolve;
      ResolveExtends(Current(), round, next);
      ResolveRequests(round, next);
      if emits {
        published := published + [Publication(next, round.reasons, round.beganAt, lastRequestAt)];
        RunListeners(calls);
      }
    }

    method ServeKeptSnapshot(round: Loop)
      requires round.Reading?
      modifies this
      ensures Current() == ServeKept(old(Current()), round)
    {
      hide Keep, Settle;
      completedGeneration, refreshInFlight := round.generation, Closing;
      if snapshot.Some? {
        SettleRefreshWaiters(round.generation, snapshot, Retained(round.beganAt));
      }
      ContinueLoop({});
    }

    method ServeSameSources(round: Loop, config: ConfigSnapshot, calls: seq<Call>)
      requires round.Reading? && snapshot.Some?
      modifies this
      ensures Current() == ServeSame(old(Current()), round, config, calls)
    {
      hide Publish;
      PublishSnapshot(round, WithSaveGenerations(snapshot.value, config),
                      NewSaveGenerations(snapshot.value, config), calls);
      ContinueLoop({});
    }

    method ServeResolution(round: Loop, config: ConfigSnapshot, account: AccountSnapshot, calls: seq<Call>)
      requires round.Reading?
      modifies this
      ensures Current() == ServeResolved(old(Current()), round, config, account, calls)
    {
      hide Publish;
      PublishSnapshot(round, Snapshot(config, account, viewRevision + 1), true, calls);
      ContinueLoop({});
    }

    /** What follows the two guards of a round that was read. */
    method Serve(round: Loop, config: ConfigSnapshot, account: AccountSnapshot, resolves: bool, calls: seq<Call>)
      requires round.Reading?
      modifies this
      ensures Current() == ServeRound(old(Current()), round, config, account, resolves, calls)
    {
      hide ServeKept, ServeSame, ServeResolved, RejectRound;
      if account.basedOn != config.builtinRevision {
        ServeKeptSnapshot(round);
      } else if snapshot.Some? && snapshot.value.config.revision == config.revision
                && snapshot.value.account.revision == account.revision {
        ServeSameSources(round, config, calls);
      } else if resolves {
        ServeResolution(round, config, account, calls);
      } else {
        RejectAfterListeners(round, calls);
      }
    }

    /** Both sources answered the round's reads. */
    method ReceiveSources(config: ConfigSnapshot, account: AccountSnapshot, resolves: bool, calls: seq<Call>)
      requires Valid() && refreshInFlight.Reading?
      modifies this
      ensures Valid() && Current() == ApplyRead(old(Current()), config, account, resolves, calls)
    {
      ReadKeeps(Current(), config, account, resolves, calls);
      hide Inv, ServeRound;
      var round := refreshInFlight;
      rounds := rounds[round.beganAt := (config, account)];
      if round.generation < requestedGeneration {
        ContinueLoop(round.reasons);
        return;
      }
      if disposed {
        refreshInFlight := Threw;
        return;
      }
      Serve(round, config, account, resolves, calls);
    }

    /** One of the round's reads failed. */
    method ReceiveFailure(calls: seq<Call>)
      requires Valid() && refreshInFlight.Reading?
      modifies this
      ensures Valid() && Current() == ApplyFailure(old(Current()), calls)
    {
      FailureKeeps(Current(), calls);
      hide Inv, ApplyCalls;
      if refreshInFlight.generation < requestedGeneration {
        ContinueLoop(refreshInFlight.reasons);
      } else {
        RejectAfterListeners(refreshInFlight, calls);
      }
    }

    /** The handlers of the loop's promise. */
    method FinishRefresh()
      requires Valid() && (refreshInFlight.Closing? || refreshInFlight.Threw?)
      modifies this
      ensures Valid() && Current() == ApplyFinish(old(Current()))
    {
      FinishKeeps(Current());
      hide Inv;
      if refreshInFlight.Threw? {
        SettleRefreshWaiters(requestedGeneration, None, Disposal);
      }
      refreshInFlight := Idle;
      if completedGeneration < requestedGeneration {
        EnsureRefreshLoop();
      }
    }

    method Handle(call: Call)
      requires Valid()
      modifies this
      ensures Valid() && Current() == ApplyCall(old(Current()), call)
    {
      CallKeeps(Current(), call);
      hide Steady, Served, ApplyCall;
      Receive(call);
    }
  }
}
