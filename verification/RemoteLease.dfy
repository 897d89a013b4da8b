/**
 * Refreshing the built-in release from several processes. They share a control file that holds a lease;
 * the body of every file lock is one step, and so is every stretch between two awaits.
 */
module RemoteLease {
  import opened Common

  /******* The control file *******/

  type LeaseId = nat

  type ProcessId = nat

  datatype Control = Control(
    endpointKey: string, leaseId: Option<LeaseId>, leaseUntil: nat, nextEligibleAt: nat, failureCount: nat)

  const EMPTY_CONTROL := Control("", None, 0, 0, 0)

  /** A lease that expires at once would protect nothing. */
  type Duration = n: nat | 0 < n witness 1

  datatype Options = Options(successInterval: nat, leaseDuration: Duration, failureBase: nat, failureMax: nat)

  const HOUR_MS := 60 * 60 * 1_000

  const DEFAULT_OPTIONS := Options(HOUR_MS, 30_000, 60_000, HOUR_MS)

  datatype Verdict = Granted | LeaseHeld | NotDue

  datatype Outcome = Success | Failure | Cancelled

  /** A missing or unreadable file counts as an empty one. */
  function ReadControl(file: Option<Control>): Control {
    if file.Some? then file.value else EMPTY_CONTROL
  }

  function Judge(current: Control, endpointKey: string, force: bool, now: nat): Verdict {
    if current.endpointKey == endpointKey && current.leaseUntil > now then LeaseHeld
    else if !force && current.endpointKey == endpointKey && current.nextEligibleAt > now then NotDue
    else Granted
  }

  function GrantedControl(current: Control, endpointKey: string, leaseId: LeaseId, until: nat): Control {
    var same := current.endpointKey == endpointKey;
    Control(endpointKey, Some(leaseId), until,
            if same then current.nextEligibleAt else 0, if same then current.failureCount else 0)
  }

  function Power2(n: nat): nat {
    if n == 0 then 1 else 2 * Power2(n - 1)
  }

  function Min(a: nat, b: nat): nat {
    if a <= b then a else b
  }

  function Backoff(options: Options, failureCount: nat): nat {
    Min(options.failureBase * Power2(if failureCount == 0 then 0 else failureCount - 1), options.failureMax)
  }

  predicate Owns(current: Control, endpointKey: string, leaseId: LeaseId) {
    current.endpointKey == endpointKey && current.leaseId == Some(leaseId)
  }

  function FailuresAfter(current: Control, outcome: Outcome): nat {
    match outcome
    case Cancelled => current.failureCount
    case Success => 0
    case Failure => current.failureCount + 1
  }

  function Delay(options: Options, outcome: Outcome, failureCount: nat): nat {
    match outcome
    case Cancelled => 0
    case Success => options.successInterval
    case Failure => Backoff(options, failureCount)
  }

  /** The file after `#finishLease`: untouched unless it still holds the finisher's lease. */
  function Finished(
    file: Option<Control>, endpointKey: string, leaseId: LeaseId, outcome: Outcome, now: nat, options: Options)
    : Option<Control>
  {
    var current := ReadControl(file);
    if !Owns(current, endpointKey, leaseId) then file
    else
      var failureCount := FailuresAfter(current, outcome);
      Some(Control(endpointKey, None, 0, now + Delay(options, outcome, failureCount), failureCount))
  }

  /******* Processes *******/

  datatype Lease = Lease(endpointKey: string, leaseId: LeaseId, until: nat)

  /** Where a `refresh` call of the process stands. */
  datatype Phase =
    | Idle
    | Resolving(force: bool)
    | Acquiring(force: bool, endpointKey: string, leaseId: LeaseId)
    | Fetching(lease: Lease)
    | Confirming(lease: Lease)
    | Applying(lease: Lease)
    | Ending(lease: Lease, outcome: Outcome)

  datatype Process = Process(phase: Phase, disposed: bool, options: Options)

  datatype World = World(
    file: Option<Control>, now: nat, processes: map<ProcessId, Process>, issued: set<LeaseId>)

  const START := World(None, 0, map[], {})

  datatype Step =
    | Tick(to: nat)
    | Spawn(pid: ProcessId, options: Options)
    | Refresh(pid: ProcessId, force: bool)
    | EndpointResolved(pid: ProcessId, endpointKey: string, leaseId: LeaseId)
    | EndpointFailed(pid: ProcessId)
    | Acquire(pid: ProcessId)
    | FetchReturned(pid: ProcessId, ok: bool)
    | EndpointConfirmed(pid: ProcessId, confirmed: Option<string>, hasRelease: bool)
    | ApplyReturned(pid: ProcessId, ok: bool)
    | Finish(pid: ProcessId)
    | DisposeProcess(pid: ProcessId)

  function LeaseOf(phase: Phase): Option<Lease> {
    if phase.Fetching? || phase.Confirming? || phase.Applying? || phase.Ending? then Some(phase.lease) else None
  }

  function IdOf(phase: Phase): Option<LeaseId> {
    if phase.Acquiring? then Some(phase.leaseId)
    else if LeaseOf(phase).Some? then Some(LeaseOf(phase).value.leaseId)
    else None
  }

  predicate Enabled(w: World, step: Step) {
    match step
    case Tick(to) => w.now <= to
    case Spawn(pid, _) => pid !in w.processes
    case Refresh(pid, _) => pid in w.processes
    case EndpointResolved(pid, _, leaseId) =>
      pid in w.processes && w.processes[pid].phase.Resolving? && leaseId !in w.issued
    case EndpointFailed(pid) => pid in w.processes && w.processes[pid].phase.Resolving?
    case Acquire(pid) => pid in w.processes && w.processes[pid].phase.Acquiring?
    case FetchReturned(pid, _) => pid in w.processes && w.processes[pid].phase.Fetching?
    case EndpointConfirmed(pid, _, _) => pid in w.processes && w.processes[pid].phase.Confirming?
    case ApplyReturned(pid, _) => pid in w.processes && w.processes[pid].phase.Applying?
    case Finish(pid) => pid in w.processes && w.processes[pid].phase.Ending?
    case DisposeProcess(pid) => pid in w.processes
  }

  function Enter(w: World, pid: ProcessId, phase: Phase): World
    requires pid in w.processes
  {
    w.(processes := w.processes[pid := w.processes[pid].(phase := phase)])
  }

  /** A refresh while one is in flight joins it; a disposed synchronizer does nothing. */
  function PhaseAfterRefresh(p: Process, force: bool): Phase {
    if p.disposed || !p.phase.Idle? then p.phase else Resolving(force)
  }

  function PhaseAfterEndpoint(p: Process, endpointKey: string, leaseId: LeaseId): Phase
    requires p.phase.Resolving?
  {
    if p.disposed || endpointKey == "" then Idle else Acquiring(p.phase.force, endpointKey, leaseId)
  }

  /** Cancelled rather than failed once the synchronizer is disposed. */
  function ErrorOutcome(p: Process): Outcome {
    if p.disposed then Cancelled else Failure
  }

  function PhaseAfterGrant(p: Process, lease: Lease): Phase {
    if p.disposed then Ending(lease, Cancelled) else Fetching(lease)
  }

  function PhaseAfterFetch(p: Process, ok: bool): Phase
    requires p.phase.Fetching?
  {
    if p.disposed then Ending(p.phase.lease, Cancelled)
    else if ok then Confirming(p.phase.lease)
    else Ending(p.phase.lease, Failure)
  }

  function PhaseAfterConfirm(p: Process, endpointKey: Option<string>, hasRelease: bool): Phase
    requires p.phase.Confirming?
  {
    var lease := p.phase.lease;
    if p.disposed then Ending(lease, Cancelled)
    else if endpointKey.None? then Ending(lease, Failure)
    else if endpointKey.value != lease.endpointKey || !hasRelease then Ending(lease, Success)
    else Applying(lease)
  }

  function PhaseAfterApply(p: Process, ok: bool): Phase
    requires p.phase.Applying?
  {
    Ending(p.phase.lease, if ok then Success else ErrorOutcome(p))
  }

  function Acquired(w: World, pid: ProcessId): World
    requires Enabled(w, Acquire(pid))
  {
    var p := w.processes[pid];
    var current := ReadControl(w.file);
    if Judge(current, p.phase.endpointKey, p.phase.force, w.now).Granted? then
      var until := w.now + p.options.leaseDuration;
      Enter(w, pid, PhaseAfterGrant(p, Lease(p.phase.endpointKey, p.phase.leaseId, until)))
        .(file := Some(GrantedControl(current, p.phase.endpointKey, p.phase.leaseId, until)))
    else Enter(w, pid, Idle)
  }

  function Next(w: World, step: Step): World
    requires Enabled(w, step)
  {
    match step
    case Tick(to) => w.(now := to)
    case Spawn(pid, options) => w.(processes := w.processes[pid := Process(Idle, false, options)])
    case Refresh(pid, force) => Enter(w, pid, PhaseAfterRefresh(w.processes[pid], force))
    case EndpointResolved(pid, endpointKey, leaseId) =>
      Enter(w, pid, PhaseAfterEndpoint(w.processes[pid], endpointKey, leaseId)).(issued := w.issued + {leaseId})
    case EndpointFailed(pid) => Enter(w, pid, Idle)
    case Acquire(pid) => Acquired(w, pid)
    case FetchReturned(pid, ok) => Enter(w, pid, PhaseAfterFetch(w.processes[pid], ok))
    case EndpointConfirmed(pid, endpointKey, hasRelease) =>
      Enter(w, pid, PhaseAfterConfirm(w.processes[pid], endpointKey, hasRelease))
    case ApplyReturned(pid, ok) => Enter(w, pid, PhaseAfterApply(w.processes[pid], ok))
    case Finish(pid) =>
      var p := w.processes[pid];
      Enter(w, pid, Idle)
        .(file := Finished(w.file, p.phase.lease.endpointKey, p.phase.lease.leaseId, p.phase.outcome, w.now, p.options))
    case DisposeProcess(pid) => w.(processes := w.processes[pid := w.processes[pid].(disposed := true)])
  }

  predicate Possible(w: World, steps: seq<Step>)
    decreases |steps|
  {
    steps == [] || (Enabled(w, steps[0]) && Possible(Next(w, steps[0]), steps[1..]))
  }

  function Run(w: World, steps: seq<Step>): World
    requires Possible(w, steps)
    decreases |steps|
  {
    if steps == [] then w else Run(Next(w, steps[0]), steps[1..])
  }

  /******* Exclusivity *******/

  /** The process has an unfinished refresh whose lease on `endpointKey` has not expired. */
  ghost predicate Holds(w: World, pid: ProcessId, endpointKey: string) {
    && pid in w.processes
    && LeaseOf(w.processes[pid].phase).Some?
    && LeaseOf(w.processes[pid].phase).value.endpointKey == endpointKey
    && LeaseOf(w.processes[pid].phase).value.until > w.now
  }

  ghost predicate Exclusive(w: World) {
    forall p, q, k :: Holds(w, p, k) && Holds(w, q, k) ==> p == q
  }

  ghost predicate AlwaysExclusive(w: World, steps: seq<Step>)
    requires Possible(w, steps)
    decreases |steps|
  {
    Exclusive(w) && (steps == [] || AlwaysExclusive(Next(w, steps[0]), steps[1..]))
  }

  /**
   * A grant made because the file names another endpoint, although somebody still holds a live lease on the
   * endpoint asked for: its lease was displaced from the file.
   */
  ghost predicate GrantsDisplaced(w: World, step: Step)
    requires Enabled(w, step)
  {
    && step.Acquire?
    && var p := w.processes[step.pid];
       && ReadControl(w.file).endpointKey != p.phase.endpointKey
       && exists q :: Holds(w, q, p.phase.endpointKey)
  }

  ghost predicate NeverGrantsDisplaced(w: World, steps: seq<Step>)
    requires Possible(w, steps)
    decreases |steps|
  {
    steps == [] || (!GrantsDisplaced(w, steps[0]) && NeverGrantsDisplaced(Next(w, steps[0]), steps[1..]))
  }

  /** Lease ids are never shared, and a file that names the endpoint of a live lease holds that lease. */
  ghost predicate Tracked(w: World) {
    && (forall p :: p in w.processes && IdOf(w.processes[p].phase).Some? ==>
          IdOf(w.processes[p].phase).value in w.issued)
    && (forall p, q :: p in w.processes && q in w.processes && p != q && IdOf(w.processes[p].phase).Some? ==>
          IdOf(w.processes[p].phase) != IdOf(w.processes[q].phase))
    && (ReadControl(w.file).leaseId.Some? ==> ReadControl(w.file).leaseId.value in w.issued)
    && (forall p :: p in w.processes && w.processes[p].phase.Acquiring? ==>
          ReadControl(w.file).leaseId != Some(w.processes[p].phase.leaseId))
  }

  ghost predicate InFile(w: World) {
    forall p, k :: Holds(w, p, k) && ReadControl(w.file).endpointKey == k ==>
      var lease := LeaseOf(w.processes[p].phase).value;
      ReadControl(w.file).leaseId == Some(lease.leaseId) && ReadControl(w.file).leaseUntil == lease.until
  }

  ghost predicate Inv(w: World) {
    Tracked(w) && InFile(w) && Exclusive(w)
  }

  /** A process keeps its lease id, drops it, or is given a new one. */
  lemma IdsNext(w: World, step: Step, p: ProcessId)
    requires Enabled(w, step) && p in Next(w, step).processes
    ensures var phase := Next(w, step).processes[p].phase;
      || (IdOf(phase).None? && !phase.Acquiring?)
      || (p in w.processes && IdOf(phase) == IdOf(w.processes[p].phase)
          && (phase.Acquiring? ==> w.processes[p].phase.Acquiring? && step != Acquire(p)))
      || (step.EndpointResolved? && step.pid == p && IdOf(phase) == Some(step.leaseId))
  {
  }

  lemma FileIdNext(w: World, step: Step)
    requires Enabled(w, step)
    ensures var id := ReadControl(Next(w, step).file).leaseId;
      id.None? || id == ReadControl(w.file).leaseId || (step.Acquire? && id == IdOf(w.processes[step.pid].phase))
  {
  }

  lemma TrackedNext(w: World, step: Step)
    requires Tracked(w) && Enabled(w, step)
    ensures Tracked(Next(w, step))
  {
    hide Next, ReadControl, LeaseOf;
    FileIdNext(w, step);
    var w' := Next(w, step);
    forall p | p in w'.processes
      ensures var phase := w'.processes[p].phase;
        || (IdOf(phase).None? && !phase.Acquiring?)
        || (p in w.processes && IdOf(phase) == IdOf(w.processes[p].phase)
            && (phase.Acquiring? ==> w.processes[p].phase.Acquiring? && step != Acquire(p)))
        || (step.EndpointResolved? && step.pid == p && IdOf(phase) == Some(step.leaseId))
    {
      IdsNext(w, step, p);
    }
    IssuedNext(w, step);
  }

  lemma IssuedNext(w: World, step: Step)
    requires Enabled(w, step)
    ensures Next(w, step).issued == w.issued + if step.EndpointResolved? then {step.leaseId} else {}
  {
  }

  /** Whoever holds a live lease after a step held it before, or the step granted it. */
  lemma HoldersNext(w: World, step: Step, q: ProcessId, k: string)
    requires Enabled(w, step) && Holds(Next(w, step), q, k)
    ensures Holds(w, q, k) || (step.Acquire? && step.pid == q && w.processes[q].phase.endpointKey == k)
    ensures Holds(w, q, k) ==> LeaseOf(Next(w, step).processes[q].phase) == LeaseOf(w.processes[q].phase)
  {
  }

  /** Only a grant or the finishing of the lease in the file changes what the file says of an endpoint. */
  lemma FileNext(w: World, step: Step, q: ProcessId, k: string)
    requires Tracked(w) && InFile(w) && Enabled(w, step) && !step.Acquire?
    requires Holds(w, q, k) && Holds(Next(w, step), q, k)
    ensures ReadControl(Next(w, step).file).endpointKey == k ==>
      ReadControl(Next(w, step).file) == ReadControl(w.file)
  {
    if step.Finish? {
      var p := w.processes[step.pid];
      assert IdOf(p.phase) != IdOf(w.processes[q].phase);
    }
  }

  lemma InFileNext(w: World, step: Step)
    requires Inv(w) && Enabled(w, step) && !GrantsDisplaced(w, step)
    ensures InFile(Next(w, step)) && Exclusive(Next(w, step))
  {
    var w' := Next(w, step);
    forall q, k | Holds(w', q, k)
      ensures Holds(w, q, k) || (step.Acquire? && step.pid == q && w.processes[q].phase.endpointKey == k)
      ensures Holds(w, q, k) ==> LeaseOf(w'.processes[q].phase) == LeaseOf(w.processes[q].phase)
      ensures Holds(w, q, k) && ReadControl(w'.file).endpointKey == k && !step.Acquire? ==>
        ReadControl(w'.file) == ReadControl(w.file)
    {
      HoldersNext(w, step, q, k);
      if Holds(w, q, k) && !step.Acquire? {
        FileNext(w, step, q, k);
      }
    }
    if step.Acquire? {
      AcquireInFile(w, step.pid);
    } else {
      hide Next, Tracked, GrantsDisplaced, Holds, LeaseOf, ReadControl;
    }
  }

  lemma AcquireInFile(w: World, pid: ProcessId)
    requires Inv(w) && Enabled(w, Acquire(pid)) && !GrantsDisplaced(w, Acquire(pid))
    ensures InFile(Next(w, Acquire(pid))) && Exclusive(Next(w, Acquire(pid)))
  {
    var w' := Next(w, Acquire(pid));
    forall q, k | Holds(w', q, k)
      ensures Holds(w, q, k) || (pid == q && w.processes[q].phase.endpointKey == k)
      ensures Holds(w, q, k) ==> LeaseOf(w'.processes[q].phase) == LeaseOf(w.processes[q].phase)
    {
      HoldersNext(w, Acquire(pid), q, k);
    }
  }

  /** Only the one kind of grant can break exclusivity, and it always does. */
  lemma InvNext(w: World, step: Step)
    requires Inv(w) && Enabled(w, step)
    ensures !GrantsDisplaced(w, step) ==> Inv(Next(w, step))
    ensures GrantsDisplaced(w, step) ==> !Exclusive(Next(w, step))
  {
    TrackedNext(w, step);
    var w' := Next(w, step);
    if GrantsDisplaced(w, step) {
      var key := w.processes[step.pid].phase.endpointKey;
      var q :| Holds(w, q, key);
      assert Holds(w', q, key) && Holds(w', step.pid, key);
    } else {
      InFileNext(w, step);
    }
  }

  /** The exact condition: a run is exclusive throughout unless some step grants a displaced lease. */
  lemma {:induction false} ExclusiveRun(w: World, steps: seq<Step>)
    requires Inv(w) && Possible(w, steps)
    ensures AlwaysExclusive(w, steps) <==> NeverGrantsDisplaced(w, steps)
    decreases |steps|
  {
    if steps != [] {
      InvNext(w, steps[0]);
      hide Next, Inv, Exclusive, GrantsDisplaced;
      if GrantsDisplaced(w, steps[0]) {
        NotExclusive(Next(w, steps[0]), steps[1..]);
      } else {
        ExclusiveRun(Next(w, steps[0]), steps[1..]);
      }
      InvIsExclusive(w);
    }
  }

  lemma NotExclusive(w: World, steps: seq<Step>)
    requires Possible(w, steps) && !Exclusive(w)
    ensures !AlwaysExclusive(w, steps)
  {
  }

  lemma InvIsExclusive(w: World)
    requires Inv(w)
    ensures Exclusive(w)
  {
  }

  lemma InvStart()
    ensures Inv(START)
  {
  }

  /******* Runs that are always exclusive *******/

  /** The grant overwrites a lease of another endpoint that has not expired: what a caller can see in the file. */
  predicate Displaces(w: World, step: Step)
    requires Enabled(w, step)
  {
    && step.Acquire?
    && ReadControl(w.file).endpointKey != w.processes[step.pid].phase.endpointKey
    && ReadControl(w.file).leaseUntil > w.now
  }

  predicate NeverDisplaces(w: World, steps: seq<Step>)
    requires Possible(w, steps)
    decreases |steps|
  {
    steps == [] || (!Displaces(w, steps[0]) && NeverDisplaces(Next(w, steps[0]), steps[1..]))
  }

  /** Every live lease is the one in the file. */
  ghost predicate AllInFile(w: World) {
    forall p, k :: Holds(w, p, k) ==> ReadControl(w.file).endpointKey == k
  }

  lemma AllInFileNext(w: World, step: Step)
    requires Inv(w) && AllInFile(w) && Enabled(w, step) && !Displaces(w, step)
    ensures !GrantsDisplaced(w, step) && AllInFile(Next(w, step))
  {
    var w' := Next(w, step);
    forall q, k | Holds(w', q, k)
      ensures ReadControl(w'.file).endpointKey == k
    {
      HoldersNext(w, step, q, k);
      if Holds(w, q, k) && step.Acquire? {
        assert ReadControl(w.file).leaseUntil > w.now;
      }
    }
  }

  /**
   * As long as no grant overwrites a live lease of another endpoint, at most one unfinished refresh holds
   * an unexpired lease, for however many processes and calls, forced or not.
   */
  lemma {:induction false} ExclusiveWithoutDisplacement(w: World, steps: seq<Step>)
    requires Inv(w) && AllInFile(w) && Possible(w, steps) && NeverDisplaces(w, steps)
    ensures NeverGrantsDisplaced(w, steps) && AlwaysExclusive(w, steps)
    decreases |steps|
  {
    ExclusiveRun(w, steps);
    if steps != [] {
      AllInFileNext(w, steps[0]);
      InvNext(w, steps[0]);
      hide Next, Inv, Exclusive, GrantsDisplaced, AllInFile;
      ExclusiveWithoutDisplacement(Next(w, steps[0]), steps[1..]);
    }
  }

  predicate UsesOnly(steps: seq<Step>, endpointKey: string) {
    forall i :: 0 <= i < |steps| && steps[i].EndpointResolved? ==>
      steps[i].endpointKey == endpointKey || steps[i].endpointKey == ""
  }

  /** Nobody has asked for any other endpoint so far. */
  ghost predicate OneEndpoint(w: World, endpointKey: string) {
    && (forall p :: p in w.processes && w.processes[p].phase.Acquiring? ==>
          w.processes[p].phase.endpointKey == endpointKey)
    && (forall p :: p in w.processes && LeaseOf(w.processes[p].phase).Some? ==>
          LeaseOf(w.processes[p].phase).value.endpointKey == endpointKey)
    && (ReadControl(w.file).endpointKey == endpointKey || ReadControl(w.file).leaseUntil == 0)
  }

  lemma OneEndpointNext(w: World, step: Step, endpointKey: string)
    requires OneEndpoint(w, endpointKey) && Enabled(w, step) && UsesOnly([step], endpointKey)
    ensures !Displaces(w, step) && OneEndpoint(Next(w, step), endpointKey)
  {
    assert step.EndpointResolved? ==> [step][0].endpointKey == endpointKey || step.endpointKey == "";
  }

  lemma {:induction false} OneEndpointNeverDisplaces(w: World, steps: seq<Step>, endpointKey: string)
    requires OneEndpoint(w, endpointKey) && Possible(w, steps) && UsesOnly(steps, endpointKey)
    ensures NeverDisplaces(w, steps)
    decreases |steps|
  {
    if steps != [] {
      assert UsesOnly([steps[0]], endpointKey);
      OneEndpointNext(w, steps[0], endpointKey);
      hide OneEndpoint, Next, Displaces;
      assert UsesOnly(steps[1..], endpointKey);
      OneEndpointNeverDisplaces(Next(w, steps[0]), steps[1..], endpointKey);
    }
  }

  /** With one endpoint key every run is exclusive throughout. */
  lemma OneEndpointIsExclusive(steps: seq<Step>, endpointKey: string)
    requires Possible(START, steps) && UsesOnly(steps, endpointKey)
    ensures AlwaysExclusive(START, steps)
  {
    InvStart();
    OneEndpointNeverDisplaces(START, steps, endpointKey);
    ExclusiveWithoutDisplacement(START, steps);
  }

  /******* Two endpoints can break it *******/

  /** A refresh up to its grant. */
  function RefreshSteps(pid: ProcessId, endpointKey: string): seq<Step> {
    [Refresh(pid, false), EndpointResolved(pid, endpointKey, pid), Acquire(pid)]
  }

  function SpawnSteps(): seq<Step> {
    [Spawn(0, DEFAULT_OPTIONS), Spawn(1, DEFAULT_OPTIONS), Spawn(2, DEFAULT_OPTIONS)]
  }

  /** Process 0 refreshes "a"; process 1 overwrites its live lease with one of "b"; process 2 is granted "a" again. */
  function Displacement(): seq<Step> {
    SpawnSteps() + (RefreshSteps(0, "a") + (RefreshSteps(1, "b") + RefreshSteps(2, "a")))
  }

  lemma {:induction false} RunAppend(w: World, a: seq<Step>, b: seq<Step>)
    requires Possible(w, a) && Possible(Run(w, a), b)
    ensures Possible(w, a + b) && Run(w, a + b) == Run(Run(w, a), b)
    decreases |a|
  {
    if a == [] {
      assert a + b == b;
    } else {
      RunAppend(Next(w, a[0]), a[1..], b);
      assert (a + b)[1..] == a[1..] + b;
    }
  }

  lemma ThreeSteps(w: World, a: Step, b: Step, c: Step)
    requires Enabled(w, a) && Enabled(Next(w, a), b) && Enabled(Next(Next(w, a), b), c)
    ensures Possible(w, [a, b, c]) && Run(w, [a, b, c]) == Next(Next(Next(w, a), b), c)
  {
    hide Next, Enabled;
    var w1 := Next(w, a);
    var w2 := Next(w1, b);
    assert [c][1..] == [] && Possible(Next(w2, c), []) && Run(Next(w2, c), []) == Next(w2, c);
    assert Possible(w2, [c]) && Run(w2, [c]) == Next(w2, c);
    assert [b, c][1..] == [c] && Possible(w1, [b, c]) && Run(w1, [b, c]) == Next(w2, c);
    assert [a, b, c][1..] == [b, c];
  }

  lemma RefreshIsGranted(w: World, pid: ProcessId, endpointKey: string)
    requires pid in w.processes && w.processes[pid] == Process(Idle, false, DEFAULT_OPTIONS) && pid !in w.issued
    requires endpointKey != "" && ReadControl(w.file).endpointKey != endpointKey
    ensures Possible(w, RefreshSteps(pid, endpointKey))
    ensures var w' := Run(w, RefreshSteps(pid, endpointKey));
      && w'.now == w.now && w'.issued == w.issued + {pid}
      && w'.processes == w.processes[
           pid := Process(Fetching(Lease(endpointKey, pid, w.now + 30_000)), false, DEFAULT_OPTIONS)]
      && ReadControl(w'.file).endpointKey == endpointKey
  {
    var a, b, c := Refresh(pid, false), EndpointResolved(pid, endpointKey, pid), Acquire(pid);
    ThreeSteps(w, a, b, c);
    hide Possible, Run;
  }

  lemma DisplacementBreaksExclusivity()
    ensures Possible(START, Displacement()) && !Exclusive(Run(START, Displacement()))
  {
    ThreeSteps(START, Spawn(0, DEFAULT_OPTIONS), Spawn(1, DEFAULT_OPTIONS), Spawn(2, DEFAULT_OPTIONS));
    var w0 := Run(START, SpawnSteps());
    hide Possible, Run;
    RefreshIsGranted(w0, 0, "a");
    var w1 := Run(w0, RefreshSteps(0, "a"));
    hide Next, RefreshSteps, SpawnSteps;
    RefreshIsGranted(w1, 1, "b");
    var w2 := Run(w1, RefreshSteps(1, "b"));
    RefreshIsGranted(w2, 2, "a");
    var w3 := Run(w2, RefreshSteps(2, "a"));
    RunAppend(w1, RefreshSteps(1, "b"), RefreshSteps(2, "a"));
    RunAppend(w0, RefreshSteps(0, "a"), RefreshSteps(1, "b") + RefreshSteps(2, "a"));
    RunAppend(START, SpawnSteps(), RefreshSteps(0, "a") + (RefreshSteps(1, "b") + RefreshSteps(2, "a")));
    assert Holds(w3, 0, "a") && Holds(w3, 2, "a");
  }

  /******* Fencing *******/

  /** A lease id that was given out, is not in the file and is not about to be put there. */
  ghost predicate FencedOff(w: World, leaseId: LeaseId) {
    && leaseId in w.issued
    && ReadControl(w.file).leaseId != Some(leaseId)
    && forall p :: p in w.processes && w.processes[p].phase.Acquiring? ==> w.processes[p].phase.leaseId != leaseId
  }

  /**
   * A lease that was taken over stays out of the file for ever, whatever happens, and its holder finishes
   * without touching the file.
   */
  lemma {:induction false} FencedOffForEver(w: World, steps: seq<Step>, leaseId: LeaseId)
    requires FencedOff(w, leaseId) && Possible(w, steps)
    ensures FencedOff(Run(w, steps), leaseId)
    ensures forall pid | Enabled(Run(w, steps), Finish(pid)) ::
              Run(w, steps).processes[pid].phase.lease.leaseId == leaseId ==>
                Next(Run(w, steps), Finish(pid)).file == Run(w, steps).file
    decreases |steps|
  {
    if steps != [] {
      FencedOffNext(w, steps[0], leaseId);
      FencedOffForEver(Next(w, steps[0]), steps[1..], leaseId);
    }
  }

  lemma FencedOffNext(w: World, step: Step, leaseId: LeaseId)
    requires FencedOff(w, leaseId) && Enabled(w, step)
    ensures FencedOff(Next(w, step), leaseId)
  {
    FileIdNext(w, step);
    IssuedNext(w, step);
    var w' := Next(w, step);
    forall p | p in w'.processes && w'.processes[p].phase.Acquiring?
      ensures w'.processes[p].phase.leaseId != leaseId
    {
      IdsNext(w, step, p);
    }
  }

  /** A granted takeover is what fences the previous lease off. */
  lemma TakeoverFencesOff(w: World, pid: ProcessId, leaseId: LeaseId)
    requires Tracked(w) && Enabled(w, Acquire(pid)) && ReadControl(w.file).leaseId == Some(leaseId)
    requires var p := w.processes[pid].phase; Judge(ReadControl(w.file), p.endpointKey, p.force, w.now).Granted?
    ensures FencedOff(Next(w, Acquire(pid)), leaseId)
  {
  }

  /******* Delays *******/

  lemma {:induction false} Power2Grows(a: nat, b: nat)
    requires a <= b
    ensures 1 <= Power2(a) <= Power2(b)
    decreases b
  {
    if a < b {
      Power2Grows(a, b - 1);
    } else if a > 0 {
      Power2Grows(a - 1, a - 1);
    }
  }

  lemma Scales(base: nat, a: nat, b: nat)
    requires a <= b
    ensures base * a <= base * b
  {
  }

  /** The failure delay starts at the base, never exceeds the cap and never shrinks as failures accumulate. */
  lemma BackoffGrows(options: Options, a: nat, b: nat)
    requires a <= b
    ensures Backoff(options, a) <= Backoff(options, b) <= options.failureMax
    ensures 1 <= a ==> Min(options.failureBase, options.failureMax) <= Backoff(options, a)
  {
    var e, f := if a == 0 then 0 else a - 1, if b == 0 then 0 else b - 1;
    Power2Grows(e, f);
    Power2Grows(0, e);
    Scales(options.failureBase, Power2(e), Power2(f));
    Scales(options.failureBase, 1, Power2(e));
  }

  /** Until the cap is reached, one more failure doubles the delay. */
  lemma BackoffDoubles(options: Options, failureCount: nat)
    requires 1 <= failureCount
    ensures Backoff(options, failureCount + 1) == Min(2 * Backoff(options, failureCount), options.failureMax)
  {
    var d := options.failureBase * Power2(failureCount - 1);
    Twice(options.failureBase, Power2(failureCount - 1));
    assert options.failureBase * Power2(failureCount) == 2 * d;
  }

  lemma Twice(base: nat, power: nat)
    ensures base * (2 * power) == 2 * (base * power)
  {
  }

  /** After the holder has finished, exactly forced and due refreshes of the endpoint are granted. */
  lemma DueAfterFinish(
    file: Option<Control>, endpointKey: string, leaseId: LeaseId, outcome: Outcome, now: nat, options: Options,
    force: bool, later: nat)
    requires Owns(ReadControl(file), endpointKey, leaseId) && now <= later
    ensures var after := ReadControl(Finished(file, endpointKey, leaseId, outcome, now, options));
      && !Judge(after, endpointKey, force, later).LeaseHeld?
      && (Judge(after, endpointKey, force, later).Granted? <==>
            force || later >= now + Delay(options, outcome, FailuresAfter(ReadControl(file), outcome)))
  {
  }

  /** One refresh of an endpoint after another: when it was granted and how it ended. */
  datatype Attempt = Attempt(leaseId: LeaseId, until: nat, outcome: Outcome, endedAt: nat)

  function Attempts(
    file: Option<Control>, endpointKey: string, attempts: seq<Attempt>, options: Options): Option<Control>
    decreases |attempts|
  {
    if attempts == [] then file
    else
      var a := attempts[|attempts| - 1];
      var before := ReadControl(Attempts(file, endpointKey, attempts[..|attempts| - 1], options));
      Finished(Some(GrantedControl(before, endpointKey, a.leaseId, a.until)), endpointKey, a.leaseId, a.outcome,
               a.endedAt, options)
  }

  /** Failures since the last success; cancelled refreshes do not count. */
  function Streak(attempts: seq<Attempt>): nat
    decreases |attempts|
  {
    if attempts == [] || attempts[|attempts| - 1].outcome.Success? then 0
    else Streak(attempts[..|attempts| - 1]) + if attempts[|attempts| - 1].outcome.Failure? then 1 else 0
  }

  /** The delay after a failure is that of the current streak of failures. */
  lemma {:induction false} DelayFollowsStreak(endpointKey: string, attempts: seq<Attempt>, options: Options)
    requires endpointKey != ""
    ensures ReadControl(Attempts(None, endpointKey, attempts, options)).failureCount == Streak(attempts)
    ensures attempts != [] && attempts[|attempts| - 1].outcome.Failure? ==>
      ReadControl(Attempts(None, endpointKey, attempts, options)).nextEligibleAt
      == attempts[|attempts| - 1].endedAt + Backoff(options, Streak(attempts))
    decreases |attempts|
  {
    if attempts != [] {
      DelayFollowsStreak(endpointKey, attempts[..|attempts| - 1], options);
      AttemptsKeepKey(endpointKey, attempts[..|attempts| - 1], options);
    }
  }

  lemma {:induction false} AttemptsKeepKey(endpointKey: string, attempts: seq<Attempt>, options: Options)
    ensures attempts != [] ==> ReadControl(Attempts(None, endpointKey, attempts, options)).endpointKey == endpointKey
  {
  }

  /******* The synchronizer *******/

  class ControlFile {
    var content: Option<Control>

    constructor (content: Option<Control>)
      ensures this.content == content
    {
      this.content := content;
    }
  }

  class RemoteSynchronizer {
    const file: ControlFile
    const options: Options
    var inFlight: Phase
    var disposed: bool

    ghost function Self(): Process
      reads this
    {
      Process(inFlight, disposed, options)
    }

    constructor (file: ControlFile, options: Options)
      ensures this.file == file && Self() == Process(Idle, false, options)
    {
      this.file, this.options, inFlight, disposed := file, options, Idle, false;
    }

    method StartRefresh(force: bool)
      modifies this
      ensures Self() == old(Self()).(phase := PhaseAfterRefresh(old(Self()), force))
    {
      if disposed {
        return;
      }
      if !inFlight.Idle? {
        return;
      }
      inFlight := Resolving(force);
    }

    method Dispose()
      modifies this
      ensures Self() == old(Self()).(disposed := true)
    {
      disposed := true;
    }

    method ResolveEndpoint(endpointKey: string, leaseId: LeaseId)
      requires inFlight.Resolving?
      modifies this
      ensures Self() == old(Self()).(phase := PhaseAfterEndpoint(old(Self()), endpointKey, leaseId))
    {
      if disposed {
        inFlight := Idle;
      } else if endpointKey == "" {
        inFlight := Idle;
      } else {
        inFlight := Acquiring(inFlight.force, endpointKey, leaseId);
      }
    }

    /** The body of the first lock, up to the next await. */
    method AcquireLease(now: nat) returns (verdict: Verdict)
      requires inFlight.Acquiring?
      modifies this, file
      ensures verdict == Judge(ReadControl(old(file.content)), old(inFlight.endpointKey), old(inFlight.force), now)
      ensures verdict.Granted? ==>
        && Self() == old(Self()).(phase := PhaseAfterGrant(old(Self()),
             Lease(old(inFlight.endpointKey), old(inFlight.leaseId), now + options.leaseDuration)))
        && file.content == Some(GrantedControl(ReadControl(old(file.content)), old(inFlight.endpointKey),
             old(inFlight.leaseId), now + options.leaseDuration))
      ensures !verdict.Granted? ==>
        file.content == old(file.content) && Self() == old(Self()).(phase := Idle)
    {
      var force, endpointKey, leaseId := inFlight.force, inFlight.endpointKey, inFlight.leaseId;
      var current := if file.content.Some? then file.content.value else EMPTY_CONTROL;
      var sameEndpoint := current.endpointKey == endpointKey;
      if sameEndpoint && current.leaseUntil > now {
        inFlight := Idle;
        return LeaseHeld;
      }
      if !force && sameEndpoint && current.nextEligibleAt > now {
        inFlight := Idle;
        return NotDue;
      }
      var until := now + options.leaseDuration;
      file.content := Some(Control(endpointKey, Some(leaseId), until,
                                   if sameEndpoint then current.nextEligibleAt else 0,
                                   if sameEndpoint then current.failureCount else 0));
      var lease := Lease(endpointKey, leaseId, until);
      inFlight := if disposed then Ending(lease, Cancelled) else Fetching(lease);
      return Granted;
    }

    method ReceiveRelease(ok: bool)
      requires inFlight.Fetching?
      modifies this
      ensures Self() == old(Self()).(phase := PhaseAfterFetch(old(Self()), ok))
    {
      if disposed {
        inFlight := Ending(inFlight.lease, Cancelled);
      } else if ok {
        inFlight := Confirming(inFlight.lease);
      } else {
        inFlight := Ending(inFlight.lease, Failure);
      }
    }

    method ConfirmEndpoint(endpointKey: Option<string>, hasRelease: bool)
      requires inFlight.Confirming?
      modifies this
      ensures Self() == old(Self()).(phase := PhaseAfterConfirm(old(Self()), endpointKey, hasRelease))
    {
      var lease := inFlight.lease;
      if endpointKey.None? || disposed {
        inFlight := Ending(lease, if disposed then Cancelled else Failure);
      } else if endpointKey.value != lease.endpointKey {
        inFlight := Ending(lease, Success);
      } else {
        inFlight := if hasRelease then Applying(lease) else Ending(lease, Success);
      }
    }

    method ReceiveApplied(ok: bool)
      requires inFlight.Applying?
      modifies this
      ensures Self() == old(Self()).(phase := PhaseAfterApply(old(Self()), ok))
    {
      inFlight := Ending(inFlight.lease, if ok then Success else if disposed then Cancelled else Failure);
    }

    /** `2 ** (failureCount - 1)` times the base, up to the cap. */
    method BackoffDelay(failureCount: nat) returns (delay: nat)
      ensures delay == Backoff(options, failureCount)
    {
      var power := 1;
      var exponent := if failureCount == 0 then 0 else failureCount - 1;
      for i := 0 to exponent
        invariant power == Power2(i)
      {
        power := 2 * power;
      }
      delay := Min(options.failureBase * power, options.failureMax);
    }

    method FinishLease(now: nat)
      requires inFlight.Ending?
      modifies this, file
      ensures Self() == old(Self()).(phase := Idle)
      ensures file.content == Finished(old(file.content), old(inFlight.lease.endpointKey), old(inFlight.lease.leaseId),
                                       old(inFlight.outcome), now, options)
    {
      var lease, outcome := inFlight.lease, inFlight.outcome;
      inFlight := Idle;
      var current := if file.content.Some? then file.content.value else EMPTY_CONTROL;
      if current.endpointKey != lease.endpointKey || current.leaseId != Some(lease.leaseId) {
        return;
      }
      var failureCount := match outcome
        case Cancelled => current.failureCount
        case Success => 0
        case Failure => current.failureCount + 1;
      var delay := 0;
      if outcome.Success? {
        delay := options.successInterval;
      } else if outcome.Failure? {
        delay := BackoffDelay(failureCount);
      }
      file.content := Some(Control(lease.endpointKey, None, 0, now + delay, failureCount));
    }
  }
}
