/** What one refresh of the built-in release does: when it asks, downloads, applies, and how it ends. */
module RefreshCycle {
  import opened Common
  import opened RemoteLease

  function PhaseOf(w: World, pid: ProcessId): Phase {
    if pid in w.processes then w.processes[pid].phase else Idle
  }

  predicate Disposed(w: World, pid: ProcessId) {
    pid in w.processes && w.processes[pid].disposed
  }

  /** Nobody holds an unexpired lease on the endpoint, and the refresh is forced or due or for another endpoint. */
  predicate MayStart(w: World, endpointKey: string, force: bool) {
    w.file.Some? && w.file.value.endpointKey == endpointKey ==>
      w.file.value.leaseUntil <= w.now && (force || w.file.value.nextEligibleAt <= w.now)
  }

  /** The lease written for a granted refresh keeps the record of its endpoint, and only of its endpoint. */
  lemma GrantWrites(w: World, pid: ProcessId)
    requires Enabled(w, Acquire(pid)) && w.processes[pid].phase.endpointKey != ""
    ensures
      var p, w' := w.processes[pid], Next(w, Acquire(pid));
      var key := p.phase.endpointKey;
      if MayStart(w, key, p.phase.force) then
        && w'.file.Some?
        && w'.file.value.endpointKey == key && w'.file.value.leaseId == Some(p.phase.leaseId)
        && w'.file.value.leaseUntil == w.now + p.options.leaseDuration
        && (if w.file.Some? && w.file.value.endpointKey == key then
              && w'.file.value.nextEligibleAt == w.file.value.nextEligibleAt
              && w'.file.value.failureCount == w.file.value.failureCount
            else
              w'.file.value.nextEligibleAt == 0 && w'.file.value.failureCount == 0)
      else
        w'.file == w.file && PhaseOf(w', pid).Idle?
  {
  }

  /******* What leads from one phase to the next *******/

  /** A download begins exactly when a refresh that may start gets its lease and the process still wants it. */
  lemma FetchesExactly(w: World, step: Step, pid: ProcessId)
    requires Enabled(w, step) && !PhaseOf(w, pid).Fetching?
    requires PhaseOf(w, pid).Acquiring? ==> PhaseOf(w, pid).endpointKey != ""
    ensures PhaseOf(Next(w, step), pid).Fetching? <==>
      && step == Acquire(pid) && !Disposed(w, pid)
      && MayStart(w, PhaseOf(w, pid).endpointKey, PhaseOf(w, pid).force)
  {
  }

  /** The endpoint is asked for again exactly when the download succeeded. */
  lemma ConfirmsExactly(w: World, step: Step, pid: ProcessId)
    requires Enabled(w, step) && !PhaseOf(w, pid).Confirming?
    ensures PhaseOf(Next(w, step), pid).Confirming? <==> step == FetchReturned(pid, true) && !Disposed(w, pid)
  {
  }

  /** A release is applied exactly when there is one and the endpoint it was downloaded from still stands. */
  lemma AppliesExactly(w: World, step: Step, pid: ProcessId)
    requires Enabled(w, step) && !PhaseOf(w, pid).Applying?
    ensures PhaseOf(Next(w, step), pid).Applying? <==>
      && PhaseOf(w, pid).Confirming? && !Disposed(w, pid)
      && step == EndpointConfirmed(pid, Some(PhaseOf(w, pid).lease.endpointKey), true)
  {
  }

  /** How a refresh ends: what counts as a success, what as a failure, and when it is merely cancelled. */
  lemma EndsExactly(w: World, step: Step, pid: ProcessId, outcome: Outcome)
    requires Enabled(w, step) && !PhaseOf(w, pid).Ending?
    requires PhaseOf(w, pid).Acquiring? ==> PhaseOf(w, pid).endpointKey != ""
    ensures
      var before, after := PhaseOf(w, pid), PhaseOf(Next(w, step), pid);
      after.Ending? && after.outcome == outcome <==>
        match outcome
        case Success =>
          || step == ApplyReturned(pid, true)
          || (before.Confirming? && !Disposed(w, pid) && step.EndpointConfirmed? && step.pid == pid
              && step.confirmed.Some? && !(step.confirmed.value == before.lease.endpointKey && step.hasRelease))
        case Failure =>
          && !Disposed(w, pid)
          && (|| step == FetchReturned(pid, false) || step == ApplyReturned(pid, false)
              || (step.EndpointConfirmed? && step.pid == pid && step.confirmed.None?))
        case Cancelled =>
          && Disposed(w, pid)
          && (|| (step.FetchReturned? && step.pid == pid) || (step.EndpointConfirmed? && step.pid == pid)
              || step == ApplyReturned(pid, false)
              || (step == Acquire(pid) && MayStart(w, before.endpointKey, before.force)))
  {
  }

  /** A refresh keeps the lease it was granted until it has finished. */
  lemma LeaseStays(w: World, step: Step, pid: ProcessId)
    requires Enabled(w, step) && LeaseOf(PhaseOf(w, pid)).Some? && step != Finish(pid)
    ensures LeaseOf(PhaseOf(Next(w, step), pid)) == LeaseOf(PhaseOf(w, pid))
  {
  }

  /******* Over whole runs *******/

  /** The answers that the process got, in order, with the grants it asked for and the ends of its refreshes. */
  function Trail(steps: seq<Step>, pid: ProcessId): seq<Step> {
    if steps == [] then []
    else
      var last := steps[|steps| - 1];
      Trail(steps[..|steps| - 1], pid) + if IsOwn(last, pid) then [last] else []
  }

  predicate IsOwn(step: Step, pid: ProcessId) {
    match step
    case Acquire(p) => p == pid
    case FetchReturned(p, _) => p == pid
    case EndpointConfirmed(p, _, _) => p == pid
    case ApplyReturned(p, _) => p == pid
    case Finish(p) => p == pid
    case _ => false
  }

  predicate EndsWith(trail: seq<Step>, end: seq<Step>) {
    |end| <= |trail| && trail[|trail| - |end|..] == end
  }

  /** What the process has been told since its lease was granted, in each phase. */
  predicate Told(w: World, pid: ProcessId, trail: seq<Step>) {
    match PhaseOf(w, pid)
    case Fetching(_) => EndsWith(trail, [Acquire(pid)])
    case Confirming(_) => EndsWith(trail, [Acquire(pid), FetchReturned(pid, true)])
    case Applying(lease) =>
      EndsWith(trail, [Acquire(pid), FetchReturned(pid, true), EndpointConfirmed(pid, Some(lease.endpointKey), true)])
    case _ => true
  }

  /** Every endpoint that a process asks a lease for is a real one. */
  predicate Named(w: World, pid: ProcessId) {
    PhaseOf(w, pid).Acquiring? ==> PhaseOf(w, pid).endpointKey != ""
  }

  lemma TrailGrows(steps: seq<Step>, step: Step, pid: ProcessId)
    ensures Trail(steps + [step], pid) == Trail(steps, pid) + if IsOwn(step, pid) then [step] else []
  {
    assert (steps + [step])[..|steps|] == steps;
  }

  lemma EndGrows(trail: seq<Step>, end: seq<Step>, step: Step)
    requires EndsWith(trail, end)
    ensures EndsWith(trail + [step], end + [step])
  {
    assert (trail + [step])[|trail| - |end|..] == trail[|trail| - |end|..] + [step];
  }

  lemma ToldNext(w: World, step: Step, pid: ProcessId, trail: seq<Step>)
    requires Enabled(w, step) && Told(w, pid, trail) && Named(w, pid)
    ensures Told(Next(w, step), pid, trail + if IsOwn(step, pid) then [step] else []) && Named(Next(w, step), pid)
  {
    var own := trail + if IsOwn(step, pid) then [step] else [];
    var after := PhaseOf(Next(w, step), pid);
    NamedNext(w, step, pid);
    if IsOwn(step, pid) {
      OwnStep(w, step, pid, trail);
    } else {
      OtherStep(w, step, pid);
      assert own == trail;
    }
  }

  lemma NamedNext(w: World, step: Step, pid: ProcessId)
    requires Enabled(w, step) && Named(w, pid)
    ensures Named(Next(w, step), pid)
  {
  }

  lemma OtherStep(w: World, step: Step, pid: ProcessId)
    requires Enabled(w, step) && !IsOwn(step, pid)
    ensures LeaseOf(PhaseOf(w, pid)).Some? || LeaseOf(PhaseOf(Next(w, step), pid)).Some? ==>
      PhaseOf(Next(w, step), pid) == PhaseOf(w, pid)
  {
  }

  lemma OwnStep(w: World, step: Step, pid: ProcessId, trail: seq<Step>)
    requires Enabled(w, step) && IsOwn(step, pid) && Told(w, pid, trail) && Named(w, pid)
    ensures Told(Next(w, step), pid, trail + [step])
  {
    hide Next, EndsWith, MayStart;
    var before, after := PhaseOf(w, pid), PhaseOf(Next(w, step), pid);
    OwnMoves(w, step, pid);
    if after.Fetching? {
      FetchesExactly(w, step, pid);
      NothingBefore(trail);
      EndGrows(trail, [], step);
      assert [] + [step] == [Acquire(pid)];
    } else if after.Confirming? {
      ConfirmsExactly(w, step, pid);
      EndGrows(trail, [Acquire(pid)], step);
      assert [Acquire(pid)] + [step] == [Acquire(pid), FetchReturned(pid, true)];
    } else if after.Applying? {
      AppliesExactly(w, step, pid);
      LeaseStays(w, step, pid);
      EndGrows(trail, [Acquire(pid), FetchReturned(pid, true)], step);
      assert [Acquire(pid), FetchReturned(pid, true)] + [step]
        == [Acquire(pid), FetchReturned(pid, true), EndpointConfirmed(pid, Some(after.lease.endpointKey), true)];
    }
  }

  lemma NothingBefore(trail: seq<Step>)
    ensures EndsWith(trail, [])
  {
  }

  /** An answer always moves its process on. */
  lemma OwnMoves(w: World, step: Step, pid: ProcessId)
    requires Enabled(w, step) && IsOwn(step, pid)
    ensures PhaseOf(w, pid).Fetching? ==> !PhaseOf(Next(w, step), pid).Fetching?
    ensures PhaseOf(w, pid).Confirming? ==> !PhaseOf(Next(w, step), pid).Confirming?
    ensures PhaseOf(w, pid).Applying? ==> !PhaseOf(Next(w, step), pid).Applying?
    ensures PhaseOf(Next(w, step), pid).Confirming? ==> PhaseOf(w, pid).Fetching?
    ensures PhaseOf(Next(w, step), pid).Applying? ==> PhaseOf(w, pid).Confirming?
  {
  }

  lemma {:induction false} ToldRun(w: World, before: seq<Step>, steps: seq<Step>, pid: ProcessId)
    requires Possible(w, steps) && Told(w, pid, Trail(before, pid)) && Named(w, pid)
    ensures Told(Run(w, steps), pid, Trail(before + steps, pid)) && Named(Run(w, steps), pid)
    decreases |steps|
  {
    hide Next, Enabled, Told, Named, Trail, IsOwn;
    if steps == [] {
      assert before + steps == before;
    } else {
      ToldNext(w, steps[0], pid, Trail(before, pid));
      TrailGrows(before, steps[0], pid);
      ToldRun(Next(w, steps[0]), before + [steps[0]], steps[1..], pid);
      assert before + [steps[0]] + steps[1..] == before + steps;
    }
  }

  /**
   * In every run a process applies a release only after it was granted the lease, downloaded successfully, and
   * was then told the same endpoint once more; and in this order, with no other answer in between.
   */
  lemma AppliedWasConfirmed(steps: seq<Step>, pid: ProcessId)
    requires Possible(START, steps) && PhaseOf(Run(START, steps), pid).Applying?
    ensures
      var lease := PhaseOf(Run(START, steps), pid).lease;
      && lease.endpointKey != ""
      && EndsWith(Trail(steps, pid),
           [Acquire(pid), FetchReturned(pid, true), EndpointConfirmed(pid, Some(lease.endpointKey), true)])
  {
    ToldRun(START, [], steps, pid);
    assert [] + steps == steps;
    RealEndpoints(START, steps, pid);
    hide Run, Possible;
  }

  predicate Real(w: World, pid: ProcessId) {
    && Named(w, pid)
    && (LeaseOf(PhaseOf(w, pid)).Some? ==> LeaseOf(PhaseOf(w, pid)).value.endpointKey != "")
  }

  lemma RealNext(w: World, step: Step, pid: ProcessId)
    requires Enabled(w, step) && Real(w, pid)
    ensures Real(Next(w, step), pid)
  {
  }

  lemma {:induction false} RealEndpoints(w: World, steps: seq<Step>, pid: ProcessId)
    requires Possible(w, steps) && Real(w, pid)
    ensures Real(Run(w, steps), pid)
    decreases |steps|
  {
    hide Next, Enabled, Real;
    if steps != [] {
      RealNext(w, steps[0], pid);
      RealEndpoints(Next(w, steps[0]), steps[1..], pid);
    }
  }

  /** Once an unfinished lease has run out, nothing but its own due time keeps anybody from refreshing. */
  lemma ExpiredIsFree(w: World, to: nat, pid: ProcessId)
    requires Enabled(w, Tick(to)) && Enabled(w, Acquire(pid)) && w.file.Some? && w.file.value.leaseUntil <= to
    requires w.processes[pid].phase.force || w.file.value.nextEligibleAt <= to
    requires w.processes[pid].phase.endpointKey != "" && !w.processes[pid].disposed
    ensures
      var later := Next(w, Tick(to));
      later.now == to && Enabled(later, Acquire(pid)) && PhaseOf(Next(later, Acquire(pid)), pid).Fetching?
  {
  }

  /** A disposed process. */
  predicate Gone(w: World, pid: ProcessId) {
    pid in w.processes && w.processes[pid].disposed
  }

  /** A disposed process starts nothing; what it has under way comes to its end. */
  lemma GoneNext(w: World, step: Step, pid: ProcessId)
    requires Enabled(w, step) && Gone(w, pid)
    ensures
      var before, after := PhaseOf(w, pid), PhaseOf(Next(w, step), pid);
      && Gone(Next(w, step), pid)
      && (after.Fetching? ==> before == after) && (after.Confirming? ==> before == after)
      && (after.Applying? ==> before == after) && (after.Acquiring? ==> before == after)
      && (after.Resolving? ==> before == after)
  {
  }

  lemma DisposalHolds(w: World, pid: ProcessId)
    requires pid in w.processes
    ensures Gone(Next(w, DisposeProcess(pid)), pid)
    ensures PhaseOf(Next(w, DisposeProcess(pid)), pid) == PhaseOf(w, pid)
  {
  }

  lemma {:induction false} GoneRun(w: World, steps: seq<Step>, pid: ProcessId)
    requires Possible(w, steps) && Gone(w, pid)
    ensures Gone(Run(w, steps), pid)
    ensures PhaseOf(Run(w, steps), pid).Applying? ==> PhaseOf(w, pid).Applying?
    ensures PhaseOf(Run(w, steps), pid).Fetching? ==> PhaseOf(w, pid).Fetching?
    decreases |steps|
  {
    hide Next, Enabled, Gone;
    if steps != [] {
      GoneNext(w, steps[0], pid);
      GoneRun(Next(w, steps[0]), steps[1..], pid);
    }
  }

  /** In every run: a process that was disposed never begins a download or applies a release any more. */
  lemma DisposalIsFinal(past: seq<Step>, pid: ProcessId, steps: seq<Step>)
    requires Possible(START, past) && pid in Run(START, past).processes
    requires Possible(Next(Run(START, past), DisposeProcess(pid)), steps)
    ensures
      var w := Run(START, past);
      var w' := Run(Next(w, DisposeProcess(pid)), steps);
      && (PhaseOf(w', pid).Applying? ==> PhaseOf(w, pid).Applying?)
      && (PhaseOf(w', pid).Fetching? ==> PhaseOf(w, pid).Fetching?)
  {
    hide Run, Possible, Next;
    DisposalHolds(Run(START, past), pid);
    GoneRun(Next(Run(START, past), DisposeProcess(pid)), steps, pid);
  }
}
