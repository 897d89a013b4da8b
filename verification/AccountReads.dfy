/**
 * First reads of the account provider service that find a loop in flight. They make no request: they share
 * the promise of that loop, and so settle with it.
 */
module AccountReads {
  import opened Common
  import opened RefreshWaiters
  import opened AccountRefresh

  /** How a loop ended: it returned the current snapshot, or its round that began at `beganAt` threw. */
  datatype End = Returned | Threw(beganAt: nat)

  /** A settled read; `adoptions` is how many snapshots had been adopted when it settled. */
  datatype Answer = Answer(madeAt: nat, outcome: Option<Snapshot>, end: End, adoptions: nat)

  /** `joiners` are the moments of the reads that share the loop in flight; `end` is there once the loop has ended. */
  datatype Service = Service(state: State, joiners: seq<nat>, end: Option<End>, answers: seq<Answer>, joins: nat)

  const NEW_SERVICE := Service(AccountRefresh.START, [], None, [], 0)

  /** A disposed service refuses to read, a snapshot is returned at once, and an idle service starts a loop. */
  predicate JoinsLoop(s: State, call: Call) {
    call.Read? && !s.disposed && s.snapshot.None? && !s.loop.Idle?
  }

  function Joins(s: State, calls: seq<Call>): seq<nat>
    decreases |calls|
  {
    if calls == [] then []
    else (if JoinsLoop(s, calls[0]) then [s.clock] else []) + Joins(ApplyCall(s, calls[0]), calls[1..])
  }

  /** The steps that end in the catch block of the loop. */
  predicate Fails(s: State, step: Step) {
    step.AwaitFailed? || (s.disposed && (step.ProvidersArrived? || step.RecheckArrived?))
  }

  /** The catch block throws, unless it can fail closed. */
  predicate Throws(s: State, step: Step)
    requires InRound(s.loop)
  {
    Fails(s, step) && (s.snapshot.Some? || KnownConfig(s.loop).None?)
  }

  /** The reads that the listeners of an error event make; no other event is announced without a snapshot. */
  function ListenerJoins(s: State, step: Step): seq<nat>
    requires InRound(s.loop)
  {
    if Fails(s, step) then Joins(Close(s, s.loop.round, Failed(KnownConfig(s.loop))), step.calls) else []
  }

  function Answers(joiners: seq<nat>, outcome: Option<Snapshot>, end: End, adoptions: nat): seq<Answer> {
    seq(|joiners|, i requires 0 <= i < |joiners| => Answer(joiners[i], outcome, end, adoptions))
  }

  function NextService(w: Service, step: Step): Service
    requires Enabled(w.state, step)
    requires step.Finished? ==> w.end.Some?
  {
    var s, s' := w.state, Next(w.state, step);
    match step
    case Called(call) =>
      if JoinsLoop(s, call) then Service(s', w.joiners + [s.clock], w.end, w.answers, w.joins + 1)
      else w.(state := s')
    case ConfigArrived(_) => w.(state := s')
    case Finished =>
      var outcome := if w.end.value.Returned? then s.snapshot else None;
      Service(s', [], None, w.answers + Answers(w.joiners, outcome, w.end.value, |s.adopted|), w.joins)
    case _ =>
      var more := ListenerJoins(s, step);
      Service(s', w.joiners + more,
              if !s'.loop.Closing? then None
              else if Throws(s, step) then Some(Threw(s.loop.round.beganAt)) else Some(Returned),
              w.answers, w.joins + |more|)
  }

  /** The handlers of a loop's promise run once it has ended. */
  predicate Ready(w: Service, step: Step) {
    Enabled(w.state, step) && (step.Finished? ==> w.end.Some?)
  }

  predicate PossibleReads(w: Service, steps: seq<Step>)
    decreases |steps|
  {
    steps == [] || (Ready(w, steps[0]) && PossibleReads(NextService(w, steps[0]), steps[1..]))
  }

  function RunReads(w: Service, steps: seq<Step>): Service
    requires PossibleReads(w, steps)
    decreases |steps|
  {
    if steps == [] then w else RunReads(NextService(w, steps[0]), steps[1..])
  }

  /******* Invariant *******/

  /** A shared promise is resolved with the newest snapshot when the loop returns, and rejected by a failed round. */
  predicate AnswerSound(s: State, a: Answer) {
    match a.end
    case Returned =>
      && 0 < a.adoptions <= |s.adopted|
      && a.outcome == Some(s.adopted[a.adoptions - 1].snapshot)
    case Threw(b) =>
      a.outcome.None? && b in s.rounds && s.rounds[b].Failed?
  }

  predicate EndSound(w: Service) {
    && (w.end.Some? <==> w.state.loop.Closing?)
    && (w.end == Some(Returned) ==> w.state.snapshot.Some?)
    && (w.end.Some? && w.end.value.Threw? ==>
          w.end.value.beganAt in w.state.rounds && w.state.rounds[w.end.value.beganAt].Failed?)
  }

  ghost predicate ReadsInv(w: Service) {
    && Inv(w.state)
    && EndSound(w)
    && (w.state.loop.Idle? ==> w.joiners == [])
    && |w.joiners| + |w.answers| == w.joins
    && forall a :: a in w.answers ==> AnswerSound(w.state, a)
  }

  /** Rounds that were noted stay as noted. */
  predicate RoundsStay(s: State, s': State) {
    forall b :: b in s.rounds ==> b in s'.rounds && s'.rounds[b] == s.rounds[b]
  }

  lemma ErrorEnds(s: State, config: Option<Config>, calls: seq<Call>)
    requires Inv(s) && InRound(s.loop)
    ensures var s' := HandleError(s, s.loop.round, config, calls);
      && RoundsStay(s, s') && !s'.loop.Idle?
      && s.loop.round.beganAt in s'.rounds && s'.rounds[s.loop.round.beganAt] == Failed(config)
      && (s.snapshot.None? && config.Some? ==> s'.snapshot.Some?)
  {
    var closed := Close(s, s.loop.round, Failed(config));
    NoteExtends(s, Failed(config));
    CloseKeeps(s, Failed(config));
    CallsKeep(closed, calls);
    hide Steady, Inv, ApplyCalls, FailClosed;
  }

  lemma RecheckEnds(s: State, current: Config, calls: seq<Call>)
    requires Inv(s) && s.loop.Rechecking? && !s.disposed
    ensures var s' := Recheck(s, current, calls);
      RoundsStay(s, s') && !s'.loop.Idle? && (s'.loop.Closing? ==> s'.snapshot.Some?)
  {
    hide Steady, Inv, ApplyCalls, Settle, Keep, HandleError;
    var observed := Checked(s.loop.config, s.loop.resolution, current);
    NoteExtends(s, observed);
    CloseKeeps(s, observed);
    var next := Snapshot(s.loop.config.builtinRevision, s.loop.resolution);
    var resolved := SettleUpTo(Adopt(Close(s, s.loop.round, observed), s.loop.round, next, false),
                               s.loop.round.generation, Some(next), Round(s.loop.round.beganAt));
    CallsSame(resolved, calls);
  }

  lemma {:induction false} CallsSame(s: State, calls: seq<Call>)
    ensures SameRound(s, ApplyCalls(s, calls))
    decreases |calls|
  {
    hide ApplyCall;
    if calls != [] {
      CallSame(s, calls[0]);
      CallsSame(ApplyCall(s, calls[0]), calls[1..]);
    }
  }

  /** What a step that ends an await does to the loop and the rounds. */
  lemma AwaitEnds(s: State, step: Step)
    requires Inv(s) && Enabled(s, step) && InRound(s.loop) && !step.Called? && !step.ConfigArrived?
    ensures var s' := Next(s, step);
      && RoundsStay(s, s') && !s'.loop.Idle?
      && (s'.loop.Closing? && Throws(s, step) ==>
            s.loop.round.beganAt in s'.rounds && s'.rounds[s.loop.round.beganAt].Failed?)
      && (s'.loop.Closing? && !Throws(s, step) ==> s'.snapshot.Some?)
  {
    hide Inv, HandleError, Recheck;
    match step
    case ProvidersArrived(_, calls) =>
      if s.disposed {
        ErrorEnds(s, Some(s.loop.config), calls);
      }
    case RecheckArrived(current, calls) =>
      if s.disposed {
        ErrorEnds(s, Some(s.loop.config), calls);
        DisposedRecheck(s, current, calls);
      } else {
        RecheckEnds(s, current, calls);
      }
    case AwaitFailed(calls) => ErrorEnds(s, KnownConfig(s.loop), calls);
    case Finished =>
  }

  lemma DisposedRecheck(s: State, current: Config, calls: seq<Call>)
    requires s.loop.Rechecking? && s.disposed
    ensures Recheck(s, current, calls) == HandleError(s, s.loop.round, Some(s.loop.config), calls)
  {
  }

  lemma AnswersStay(s: State, s': State, answers: seq<Answer>)
    requires s.adopted <= s'.adopted && RoundsStay(s, s')
    requires forall a :: a in answers ==> AnswerSound(s, a)
    ensures forall a :: a in answers ==> AnswerSound(s', a)
  {
  }

  lemma ReadsInvNext(w: Service, step: Step)
    requires ReadsInv(w) && Ready(w, step)
    ensures ReadsInv(NextService(w, step))
  {
    hide Inv, HandleError, Recheck, ArriveProviders, AnswerSound, ListenerJoins;
    var s, s' := w.state, Next(w.state, step);
    InvNext(s, step);
    HistoryOnlyGrows(s, step);
    NewestIsCurrent(s);
    match step
    case Called(call) =>
      CallSame(s, call);
      AnswersStay(s, s', w.answers);
    case ConfigArrived(_) => AnswersStay(s, s', w.answers);
    case Finished =>
      AnswersStay(s, s', w.answers);
      EndAnswers(w, s');
    case _ =>
      AwaitEnds(s, step);
      AnswersStay(s, s', w.answers);
  }

  /** The answers that the end of a loop gives to those who joined it. */
  lemma EndAnswers(w: Service, s': State)
    requires w.state.loop.Closing? && EndSound(w) && w.state.adopted <= s'.adopted && RoundsStay(w.state, s')
    requires w.state.snapshot.Some? ==>
      w.state.adopted != [] && w.state.snapshot == Some(w.state.adopted[|w.state.adopted| - 1].snapshot)
    ensures
      var outcome := if w.end.value.Returned? then w.state.snapshot else None;
      forall a :: a in Answers(w.joiners, outcome, w.end.value, |w.state.adopted|) ==> AnswerSound(s', a)
  {
  }

  lemma NewestIsCurrent(s: State)
    requires Inv(s)
    ensures if s.snapshot.None? then s.adopted == [] else
      s.adopted != [] && s.snapshot == Some(s.adopted[|s.adopted| - 1].snapshot)
  {
  }

  lemma {:induction false} ReadsInvRun(w: Service, steps: seq<Step>)
    requires ReadsInv(w) && PossibleReads(w, steps)
    ensures ReadsInv(RunReads(w, steps))
    decreases |steps|
  {
    hide ReadsInv, NextService;
    if steps != [] {
      ReadsInvNext(w, steps[0]);
      ReadsInvRun(NextService(w, steps[0]), steps[1..]);
    }
  }

  /**
   * In every run a read that shares a loop settles when that loop does, and once: with the newest snapshot,
   * adopted after the read, or rejected by a failed round. An idle service keeps no such read waiting.
   */
  lemma SharedReadsSettle(steps: seq<Step>)
    requires PossibleReads(NEW_SERVICE, steps)
    ensures var w := RunReads(NEW_SERVICE, steps);
      && (w.state.loop.Idle? ==> w.joiners == [])
      && |w.joiners| + |w.answers| == w.joins
      && (forall a :: a in w.answers && a.end.Returned? ==>
            0 < a.adoptions <= |w.state.adopted| && a.outcome == Some(w.state.adopted[a.adoptions - 1].snapshot))
      && (forall a :: a in w.answers && a.end.Threw? ==>
            a.outcome.None? && a.end.beganAt in w.state.rounds && w.state.rounds[a.end.beganAt].Failed?)
  {
    AccountRefresh.InvStart();
    ReadsInvRun(NEW_SERVICE, steps);
    hide PossibleReads, RunReads, Inv;
  }

  /** Nothing has been adopted yet when a read joins, so what it is resolved with was adopted after it. */
  lemma JoinPrecedesAdoption(s: State, call: Call)
    requires Inv(s) && JoinsLoop(s, call)
    ensures s.adopted == []
  {
    NewestIsCurrent(s);
  }

  /** Such a read, unlike a request, can be answered by a round that began before it. */
  lemma SharedReadPredated(config: Config, resolution: Resolution)
    ensures var steps := [Called(Read), Called(Read), ConfigArrived(config), ProvidersArrived(resolution, []),
                          RecheckArrived(config, []), Finished];
      && PossibleReads(NEW_SERVICE, steps)
      && var w := RunReads(NEW_SERVICE, steps);
         && w.answers == [Answer(3, Some(Snapshot(config.builtinRevision, resolution)), Returned, 1)]
         && |w.state.adopted| == 1 && w.state.adopted[0].beganAt == 2
  {
    var steps := [Called(Read), Called(Read), ConfigArrived(config), ProvidersArrived(resolution, []),
                  RecheckArrived(config, []), Finished];
    var w1 := NextService(NEW_SERVICE, steps[0]);
    assert w1.state.waiters == [Waiter(1, 1, "start")];
    var w2 := NextService(w1, steps[1]);
    assert w2.joiners == [3];
    var w3 := NextService(w2, steps[2]);
    var w4 := NextService(w3, steps[3]);
    var w5 := NextService(w4, steps[4]);
    assert w4.state.waiters[1..] == [];
    var w6 := NextService(w5, steps[5]);
    hide NextService, Ready;
    assert steps[6..] == [] && PossibleReads(w6, steps[6..]);
    FirstStep(w5, steps, 5);
    FirstStep(w4, steps, 4);
    FirstStep(w3, steps, 3);
    FirstStep(w2, steps, 2);
    FirstStep(w1, steps, 1);
    FirstStep(NEW_SERVICE, steps, 0);
    assert steps[0..] == steps;
  }

  lemma FirstStep(w: Service, steps: seq<Step>, i: nat)
    requires i < |steps| && Ready(w, steps[i]) && PossibleReads(NextService(w, steps[i]), steps[i + 1..])
    ensures PossibleReads(w, steps[i..])
    ensures RunReads(w, steps[i..]) == RunReads(NextService(w, steps[i]), steps[i + 1..])
  {
    assert steps[i..][1..] == steps[i + 1..];
  }
}
