/**
 * The cache of validated provider config snapshots. Reads, writes by anybody and `clear` interleave freely:
 * files change between and during the samplings of their stat signatures and the load in between.
 */
module SnapshotCache {
  import opened Common

  /******* Files *******/

  /**
   * The history of one path, which every write and every deletion extends; entry `e` says whether the file is
   * there in epoch `e`. The current epoch is the last one.
   */
  type History = h: seq<bool> | |h| > 0 witness [false]

  /** What `stat` tells: a stamp that no other write of the file ever repeats, or that there is no file. */
  datatype Stamp = Stamp(epoch: nat) | Absent

  type Epochs = seq<nat>

  predicate Reached(files: seq<History>, e: Epochs) {
    |e| == |files| && forall p :: 0 <= p < |e| ==> e[p] < |files[p]|
  }

  predicate NotAfter(a: Epochs, b: Epochs) {
    |a| == |b| && forall p :: 0 <= p < |a| ==> a[p] <= b[p]
  }

  function Now(files: seq<History>): (e: Epochs)
    ensures Reached(files, e)
  {
    seq(|files|, p requires 0 <= p < |files| => |files[p]| - 1)
  }

  function Signature(files: seq<History>, e: Epochs): seq<Stamp>
    requires Reached(files, e)
  {
    seq(|files|, p requires 0 <= p < |files| => if files[p][e[p]] then Stamp(e[p]) else Absent)
  }

  predicate Grown(files: seq<History>, files': seq<History>) {
    |files| == |files'| && forall p :: 0 <= p < |files| ==> files[p] <= files'[p]
  }

  lemma GrownKeeps(files: seq<History>, files': seq<History>, e: Epochs)
    requires Grown(files, files') && Reached(files, e)
    ensures Reached(files', e) && Signature(files', e) == Signature(files, e)
    ensures NotAfter(Now(files), Now(files'))
  {
  }

  /**
   * Between two equal samples a file that is there cannot have changed, so a load in between has seen it as
   * sampled. A file that is missing at both samples may have come and gone.
   */
  lemma Sandwich(files: seq<History>, a: Epochs, b: Epochs, c: Epochs)
    requires Reached(files, a) && Reached(files, b) && Reached(files, c) && NotAfter(a, b) && NotAfter(b, c)
    requires Signature(files, a) == Signature(files, c)
    ensures Signature(files, b) == Signature(files, a) <==> !Missed(Signature(files, a), Signature(files, b))
  {
    forall p | 0 <= p < |files| && Signature(files, a)[p] != Absent
      ensures Signature(files, b)[p] == Signature(files, a)[p]
    {
      assert Signature(files, c)[p] == Signature(files, a)[p];
    }
  }

  /** A file that was loaded although both samples found it missing. */
  predicate Missed(signature: seq<Stamp>, loaded: seq<Stamp>)
    requires |signature| == |loaded|
  {
    exists p :: 0 <= p < |signature| && signature[p] == Absent && loaded[p] != Absent
  }

  /******* State *******/

  /** What a load of the given kind makes of files with these stamps. */
  datatype Snapshot = Snapshot(source: seq<Stamp>, canonical: bool)

  datatype Entry = Entry(signature: seq<Stamp>, snapshot: Snapshot, generation: nat)

  /** `at` are the epochs of the latest sample or load of the read. */
  datatype Phase =
    | Sampling
    | Loading(before: seq<Stamp>, at: Epochs)
    | Resampling(before: seq<Stamp>, sampled: Epochs, at: Epochs)
    | Done(snapshot: Snapshot, at: Epochs)
    | Failed

  datatype Read = Read(canonical: bool, generation: nat, start: Epochs, phase: Phase)

  type ReadId = nat

  /** A caller waits for a read, or waits for one that is not good enough to end before it reads itself. */
  datatype CallerPhase = Waiting(read: ReadId) | Chained(read: ReadId) | Received(snapshot: Snapshot) | Rejected

  datatype Caller = Caller(canonical: bool, phase: CallerPhase)

  /** `fills` and `hits` are the history: every entry ever cached, and every sampled signature that was served. */
  datatype State = State(
    files: seq<History>,
    generation: nat,
    cached: Option<Entry>,
    inFlight: Option<ReadId>,
    loads: seq<Read>,
    callers: seq<Caller>,
    fills: seq<Entry>,
    hits: seq<Entry>)

  function Start(files: seq<History>): State {
    State(files, 0, None, None, [], [], [], [])
  }

  datatype Step =
    | Write(path: nat)
    | Delete(path: nat)
    | Call(canonical: bool)
    | Sampled(read: ReadId, e: Epochs)
    | Loaded(read: ReadId, e: Epochs)
    | Resampled(read: ReadId, e: Epochs)
    | ReadFailed(read: ReadId)
    | Settled(read: ReadId)
    | Deliver(caller: nat)
    | Clear

  /******* Steps *******/

  function Change(s: State, path: nat, present: bool): State
    requires path < |s.files|
  {
    s.(files := s.files[path := s.files[path] + [present]])
  }

  /** What `read` does: join a read that is good enough, wait for one that is not, or start one. */
  function Enter(s: State, canonical: bool): (State, CallerPhase)
    requires s.inFlight.Some? ==> s.inFlight.value < |s.loads|
  {
    if s.inFlight.Some? then
      (s, if !canonical || s.loads[s.inFlight.value].canonical then Waiting(s.inFlight.value)
          else Chained(s.inFlight.value))
    else
      (s.(loads := s.loads + [Read(canonical, s.generation, Now(s.files), Sampling)], inFlight := Some(|s.loads|)),
       Waiting(|s.loads|))
  }

  function SetPhase(s: State, read: ReadId, phase: Phase): State
    requires read < |s.loads|
  {
    s.(loads := s.loads[read := s.loads[read].(phase := phase)])
  }

  predicate Hits(s: State, signature: seq<Stamp>, canonical: bool) {
    s.cached.Some? && s.cached.value.signature == signature && (!canonical || s.cached.value.snapshot.canonical)
  }

  function ApplySample(s: State, read: ReadId, e: Epochs): State
    requires read < |s.loads| && Reached(s.files, e)
  {
    var before := Signature(s.files, e);
    if Hits(s, before, s.loads[read].canonical) then
      SetPhase(s, read, Done(s.cached.value.snapshot, e)).(hits := s.hits + [s.cached.value])
    else
      SetPhase(s, read, Loading(before, e))
  }

  function ApplyResample(s: State, read: ReadId, e: Epochs): State
    requires read < |s.loads| && s.loads[read].phase.Resampling?
    requires Reached(s.files, e) && Reached(s.files, s.loads[read].phase.at)
  {
    var r := s.loads[read];
    var snapshot := Snapshot(Signature(s.files, r.phase.at), r.canonical);
    var ended := SetPhase(s, read, Done(snapshot, r.phase.at));
    if r.phase.before == Signature(s.files, e) && r.generation == s.generation then
      var entry := Entry(r.phase.before, snapshot, r.generation);
      ended.(cached := Some(entry), fills := s.fills + [entry])
    else
      ended
  }

  predicate Ended(phase: Phase) {
    phase.Done? || phase.Failed?
  }

  predicate Enabled(s: State, step: Step) {
    match step
    case Write(path) => path < |s.files|
    case Delete(path) => path < |s.files|
    case Call(_) => s.inFlight.Some? ==> s.inFlight.value < |s.loads|
    case Sampled(read, e) =>
      && read < |s.loads| && s.loads[read].phase.Sampling?
      && Reached(s.files, e) && NotAfter(s.loads[read].start, e)
    case Loaded(read, e) =>
      && read < |s.loads| && s.loads[read].phase.Loading?
      && Reached(s.files, e) && NotAfter(s.loads[read].phase.at, e)
    case Resampled(read, e) =>
      && read < |s.loads| && s.loads[read].phase.Resampling?
      && Reached(s.files, e) && NotAfter(s.loads[read].phase.at, e) && Reached(s.files, s.loads[read].phase.at)
    case ReadFailed(read) => read < |s.loads| && !Ended(s.loads[read].phase)
    case Settled(read) => read < |s.loads| && Ended(s.loads[read].phase)
    case Deliver(caller) =>
      && caller < |s.callers|
      && (s.callers[caller].phase.Waiting? || s.callers[caller].phase.Chained?)
      && s.callers[caller].phase.read < |s.loads| && Ended(s.loads[s.callers[caller].phase.read].phase)
      && (s.inFlight.Some? ==> s.inFlight.value < |s.loads|)
    case Clear => true
  }

  function ApplyDeliver(s: State, caller: nat): State
    requires Enabled(s, Deliver(caller))
  {
    var c := s.callers[caller];
    var ended := s.loads[c.phase.read].phase;
    if ended.Failed? then s.(callers := s.callers[caller := c.(phase := Rejected)])
    else if c.phase.Waiting? then s.(callers := s.callers[caller := c.(phase := Received(ended.snapshot))])
    else
      var entered := Enter(s, c.canonical);
      entered.0.(callers := s.callers[caller := c.(phase := entered.1)])
  }

  function Next(s: State, step: Step): State
    requires Enabled(s, step)
  {
    match step
    case Write(path) => Change(s, path, true)
    case Delete(path) => Change(s, path, false)
    case Call(canonical) =>
      var entered := Enter(s, canonical);
      entered.0.(callers := s.callers + [Caller(canonical, entered.1)])
    case Sampled(read, e) => ApplySample(s, read, e)
    case Loaded(read, e) => SetPhase(s, read, Resampling(s.loads[read].phase.before, s.loads[read].phase.at, e))
    case Resampled(read, e) => ApplyResample(s, read, e)
    case ReadFailed(read) => SetPhase(s, read, Failed)
    case Settled(read) => if s.inFlight == Some(read) then s.(inFlight := None) else s
    case Deliver(caller) => ApplyDeliver(s, caller)
    case Clear => s.(generation := s.generation + 1, cached := None, inFlight := None)
  }

  predicate Possible(s: State, steps: seq<Step>)
    decreases |steps|
  {
    steps == [] || (Enabled(s, steps[0]) && Possible(Next(s, steps[0]), steps[1..]))
  }

  function Run(s: State, steps: seq<Step>): State
    requires Possible(s, steps)
    decreases |steps|
  {
    if steps == [] then s else Run(Next(s, steps[0]), steps[1..])
  }

  /******* Invariant *******/

  /** A read in progress holds what it sampled and loaded, in this order, since it began. */
  predicate ReadSound(files: seq<History>, r: Read) {
    && Reached(files, r.start)
    && match r.phase
       case Sampling => true
       case Loading(before, at) =>
         Reached(files, at) && NotAfter(r.start, at) && before == Signature(files, at)
       case Resampling(before, sampled, at) =>
         && Reached(files, sampled) && Reached(files, at)
         && NotAfter(r.start, sampled) && NotAfter(sampled, at) && before == Signature(files, sampled)
       case Done(snapshot, at) => Reached(files, at) && NotAfter(r.start, at) && |snapshot.source| == |files|
       case Failed => true
  }

  predicate Agrees(entry: Entry) {
    entry.snapshot.source == entry.signature
  }

  /** An entry is wrong about its signature exactly if it was filled from a file that both samples missed. */
  predicate FillSound(files: seq<History>, entry: Entry) {
    && |entry.signature| == |files| && |entry.snapshot.source| == |files|
    && (Agrees(entry) <==> !Missed(entry.signature, entry.snapshot.source))
  }

  predicate AllAgree(s: State) {
    forall entry :: entry in s.fills ==> Agrees(entry)
  }

  /** While all entries agree, what a read returns is what a load of the files in its own time would return. */
  predicate ResultCurrent(files: seq<History>, r: Read) {
    r.phase.Done? && Reached(files, r.phase.at) ==> r.phase.snapshot.source == Signature(files, r.phase.at)
  }

  predicate Canonical(s: State) {
    && (forall r :: r in s.loads ==> r.canonical && r.phase.Done? ==> r.phase.snapshot.canonical)
    && (forall c :: c in s.callers ==> c.canonical && c.phase.Received? ==> c.phase.snapshot.canonical)
    && (forall c :: c in s.callers ==>
          && (c.phase.Waiting? || c.phase.Chained? ==> c.phase.read < |s.loads|)
          && (c.canonical && c.phase.Waiting? ==> s.loads[c.phase.read].canonical))
  }

  predicate Cached(s: State) {
    && (s.inFlight.Some? ==> s.inFlight.value < |s.loads|)
    && (s.cached.Some? ==> s.cached.value in s.fills && s.cached.value.generation == s.generation)
    && (forall entry :: entry in s.hits ==> entry in s.fills)
    && (forall entry :: entry in s.fills ==> FillSound(s.files, entry))
    && (forall r :: r in s.loads ==> r.generation <= s.generation)
  }

  predicate Inv(s: State) {
    && (forall r :: r in s.loads ==> ReadSound(s.files, r))
    && Canonical(s)
    && Cached(s)
    && (AllAgree(s) ==> forall r :: r in s.loads ==> ResultCurrent(s.files, r))
  }

  /******* Every step keeps the invariant *******/

  lemma InvStart(files: seq<History>)
    ensures Inv(Start(files))
  {
  }

  lemma ReadGrows(files: seq<History>, files': seq<History>, r: Read)
    requires Grown(files, files') && ReadSound(files, r)
    ensures ReadSound(files', r)
    ensures ResultCurrent(files, r) && r.phase.Done? ==> ResultCurrent(files', r)
  {
    GrownKeeps(files, files', r.start);
    match r.phase
    case Sampling =>
    case Loading(_, at) => GrownKeeps(files, files', at);
    case Resampling(_, sampled, at) =>
      GrownKeeps(files, files', sampled);
      GrownKeeps(files, files', at);
    case Done(_, at) => GrownKeeps(files, files', at);
    case Failed =>
  }

  lemma ChangeKeeps(s: State, path: nat, present: bool)
    requires Inv(s) && path < |s.files|
    ensures Inv(Change(s, path, present))
  {
    var s' := Change(s, path, present);
    assert Grown(s.files, s'.files);
    hide ReadSound, ResultCurrent;
    forall r | r in s.loads
      ensures ReadSound(s'.files, r) && (AllAgree(s) ==> ResultCurrent(s'.files, r))
    {
      ReadGrows(s.files, s'.files, r);
      if !r.phase.Done? {
        NotDone(s'.files, r);
      }
    }
  }

  lemma NotDone(files: seq<History>, r: Read)
    requires !r.phase.Done?
    ensures ResultCurrent(files, r)
  {
  }

  /** A read may take any phase that is sound, and any result that is canonical enough and current. */
  lemma SetPhaseKeeps(s: State, read: ReadId, phase: Phase)
    requires Inv(s) && read < |s.loads|
    requires var r := s.loads[read].(phase := phase);
      && ReadSound(s.files, r)
      && (AllAgree(s) ==> ResultCurrent(s.files, r))
      && (r.canonical && phase.Done? ==> phase.snapshot.canonical)
    ensures Inv(SetPhase(s, read, phase))
  {
    hide ReadSound, ResultCurrent, FillSound;
    var s' := SetPhase(s, read, phase);
    assert forall r :: r in s'.loads ==> r in s.loads || r == s.loads[read].(phase := phase);
    assert s.loads[read] in s.loads;
  }

  lemma SampleKeeps(s: State, read: ReadId, e: Epochs)
    requires Inv(s) && Enabled(s, Sampled(read, e))
    ensures Inv(ApplySample(s, read, e))
  {
    var r := s.loads[read];
    assert r in s.loads;
    var before := Signature(s.files, e);
    hide Inv;
    if Hits(s, before, r.canonical) {
      CachedFacts(s);
      var entry := s.cached.value;
      assert AllAgree(s) ==> Agrees(entry);
      SetPhaseKeeps(s, read, Done(entry.snapshot, e));
      HitKeeps(SetPhase(s, read, Done(entry.snapshot, e)));
    } else {
      SetPhaseKeeps(s, read, Loading(before, e));
    }
  }

  lemma CachedFacts(s: State)
    requires Inv(s)
    ensures Cached(s)
  {
  }

  lemma HitKeeps(s: State)
    requires Inv(s) && s.cached.Some?
    ensures Inv(s.(hits := s.hits + [s.cached.value]))
  {
    hide ReadSound, ResultCurrent, FillSound;
  }

  lemma LoadKeeps(s: State, read: ReadId, e: Epochs)
    requires Inv(s) && Enabled(s, Loaded(read, e))
    ensures Inv(Next(s, Loaded(read, e)))
  {
    assert s.loads[read] in s.loads;
    hide Canonical, Cached;
    SetPhaseKeeps(s, read, Resampling(s.loads[read].phase.before, s.loads[read].phase.at, e));
  }

  lemma FillKeeps(s: State, entry: Entry)
    requires Inv(s) && FillSound(s.files, entry) && entry.generation == s.generation
    ensures Inv(s.(cached := Some(entry), fills := s.fills + [entry]))
  {
    hide ReadSound, ResultCurrent, FillSound;
    var s' := s.(cached := Some(entry), fills := s.fills + [entry]);
    assert forall f :: f in s.fills ==> f in s'.fills;
  }

  lemma ResampleKeeps(s: State, read: ReadId, e: Epochs)
    requires Inv(s) && Enabled(s, Resampled(read, e))
    ensures Inv(ApplyResample(s, read, e))
  {
    var r := s.loads[read];
    assert r in s.loads;
    var snapshot := Snapshot(Signature(s.files, r.phase.at), r.canonical);
    assert ReadSound(s.files, r);
    if r.phase.before == Signature(s.files, e) {
      Sandwich(s.files, r.phase.sampled, r.phase.at, e);
    }
    hide Inv;
    SetPhaseKeeps(s, read, Done(snapshot, r.phase.at));
    if r.phase.before == Signature(s.files, e) && r.generation == s.generation {
      FillKeeps(SetPhase(s, read, Done(snapshot, r.phase.at)), Entry(r.phase.before, snapshot, r.generation));
    }
  }

  lemma EnterKeeps(s: State, canonical: bool)
    requires Inv(s)
    ensures var entered := Enter(s, canonical);
      && Inv(entered.0)
      && (entered.1.Waiting? || entered.1.Chained?) && entered.1.read < |entered.0.loads|
      && (entered.1.Waiting? && canonical ==> entered.0.loads[entered.1.read].canonical)
      && entered.0.callers == s.callers
  {
    if s.inFlight.None? {
      var r := Read(canonical, s.generation, Now(s.files), Sampling);
      assert ReadSound(s.files, r) && ResultCurrent(s.files, r);
      hide ReadSound, ResultCurrent, FillSound;
      var s' := s.(loads := s.loads + [r], inFlight := Some(|s.loads|));
      assert forall x :: x in s'.loads ==> x in s.loads || x == r;
      assert forall c :: c in s.callers && (c.phase.Waiting? || c.phase.Chained?) ==>
        s'.loads[c.phase.read] == s.loads[c.phase.read];
    }
  }

  /** A caller may take a phase that fits what it asked for. */
  lemma CallerKeeps(s: State, callers: seq<Caller>)
    requires Inv(s)
    requires forall c :: c in callers ==> c in s.callers || CallerSound(s, c)
    ensures Inv(s.(callers := callers))
  {
    hide ReadSound, ResultCurrent, FillSound;
  }

  predicate CallerSound(s: State, c: Caller) {
    match c.phase
    case Waiting(read) => read < |s.loads| && (c.canonical ==> s.loads[read].canonical)
    case Chained(read) => read < |s.loads|
    case Received(snapshot) => c.canonical ==> snapshot.canonical
    case Rejected => true
  }

  lemma DeliverKeeps(s: State, caller: nat)
    requires Inv(s) && Enabled(s, Deliver(caller))
    ensures Inv(ApplyDeliver(s, caller))
  {
    var c := s.callers[caller];
    assert c in s.callers;
    var ended := s.loads[c.phase.read];
    assert ended in s.loads;
    assert c.canonical && c.phase.Waiting? && ended.phase.Done? ==> ended.phase.snapshot.canonical;
    EnterKeeps(s, c.canonical);
    hide Inv;
    if ended.phase.Failed? {
      CallerKeeps(s, s.callers[caller := c.(phase := Rejected)]);
    } else if c.phase.Waiting? {
      CallerKeeps(s, s.callers[caller := c.(phase := Received(ended.phase.snapshot))]);
    } else {
      var entered := Enter(s, c.canonical);
      CallerKeeps(entered.0, s.callers[caller := c.(phase := entered.1)]);
    }
  }

  lemma CallKeeps(s: State, canonical: bool)
    requires Inv(s)
    ensures Inv(Next(s, Call(canonical)))
  {
    CachedFacts(s);
    EnterKeeps(s, canonical);
    hide Inv;
    var entered := Enter(s, canonical);
    CallerKeeps(entered.0, s.callers + [Caller(canonical, entered.1)]);
  }

  lemma ClearKeeps(s: State, step: Step)
    requires Inv(s) && Enabled(s, step) && (step.Clear? || step.Settled?)
    ensures Inv(Next(s, step))
  {
    hide ReadSound, ResultCurrent, FillSound;
  }

  lemma FailKeeps(s: State, read: ReadId)
    requires Inv(s) && read < |s.loads|
    ensures Inv(SetPhase(s, read, Failed))
  {
    assert s.loads[read] in s.loads;
    hide Canonical, Cached;
    SetPhaseKeeps(s, read, Failed);
  }

  lemma InvNext(s: State, step: Step)
    requires Inv(s) && Enabled(s, step)
    ensures Inv(Next(s, step))
  {
    hide Inv, ApplySample, ApplyResample, ApplyDeliver, Enter;
    match step
    case Write(path) => ChangeKeeps(s, path, true);
    case Delete(path) => ChangeKeeps(s, path, false);
    case Call(canonical) => CallKeeps(s, canonical);
    case Sampled(read, e) => SampleKeeps(s, read, e);
    case Loaded(read, e) => LoadKeeps(s, read, e);
    case Resampled(read, e) => ResampleKeeps(s, read, e);
    case ReadFailed(read) => FailKeeps(s, read);
    case Settled(_) => ClearKeeps(s, step);
    case Deliver(caller) => DeliverKeeps(s, caller);
    case Clear => ClearKeeps(s, step);
  }

  /** Every reachable state, over every interleaving of reads, writes, deletions and clears. */
  lemma {:induction false} InvRun(s: State, steps: seq<Step>)
    requires Inv(s) && Possible(s, steps)
    ensures Inv(Run(s, steps))
    decreases |steps|
  {
    hide Inv, Next;
    if steps != [] {
      InvNext(s, steps[0]);
      InvRun(Next(s, steps[0]), steps[1..]);
    }
  }

  /******* Agreement with loading *******/

  /**
   * Over every run, an entry and each hit on it agree with loading at its signature unless the load saw a
   * file that both samples missed.
   */
  lemma AgreesExactly(files: seq<History>, steps: seq<Step>)
    requires Possible(Start(files), steps)
    ensures var s := Run(Start(files), steps);
      && (forall entry :: entry in s.fills ==>
            |entry.signature| == |entry.snapshot.source|
            && (entry.snapshot.source == entry.signature <==> !Missed(entry.signature, entry.snapshot.source)))
      && (forall entry :: entry in s.hits ==> entry in s.fills)
  {
    InvStart(files);
    InvRun(Start(files), steps);
  }

  /** Files that are there stay there. */
  predicate Persistent(files: seq<History>) {
    forall p, i, j :: 0 <= p < |files| && 0 <= i <= j < |files[p]| && files[p][i] ==> files[p][j]
  }

  lemma NothingMissed(files: seq<History>, a: Epochs, b: Epochs, c: Epochs)
    requires Reached(files, a) && Reached(files, b) && Reached(files, c) && NotAfter(a, b) && NotAfter(b, c)
    requires Signature(files, a) == Signature(files, c) && Persistent(files)
    ensures !Missed(Signature(files, a), Signature(files, b))
  {
    forall p | 0 <= p < |files| && Signature(files, a)[p] == Absent
      ensures Signature(files, b)[p] == Absent
    {
      assert Signature(files, c)[p] == Absent;
    }
  }

  lemma AgreeNext(s: State, step: Step)
    requires Inv(s) && Enabled(s, step) && !step.Delete? && AllAgree(s) && Persistent(s.files)
    ensures AllAgree(Next(s, step)) && Persistent(Next(s, step).files)
  {
    if step.Resampled? {
      var r := s.loads[step.read];
      assert r in s.loads && ReadSound(s.files, r);
      if r.phase.before == Signature(s.files, step.e) {
        NothingMissed(s.files, r.phase.sampled, r.phase.at, step.e);
        Sandwich(s.files, r.phase.sampled, r.phase.at, step.e);
      }
    }
  }

  predicate NeverDeletes(steps: seq<Step>) {
    forall i :: 0 <= i < |steps| ==> !steps[i].Delete?
  }

  lemma {:induction false} AgreeRun(s: State, steps: seq<Step>)
    requires Inv(s) && Possible(s, steps) && NeverDeletes(steps) && AllAgree(s) && Persistent(s.files)
    ensures AllAgree(Run(s, steps))
    decreases |steps|
  {
    hide Inv, Next, AllAgree, Persistent;
    if steps != [] {
      InvNext(s, steps[0]);
      AgreeNext(s, steps[0]);
      assert NeverDeletes(steps[1..]);
      AgreeRun(Next(s, steps[0]), steps[1..]);
    }
  }

  /**
   * As long as no file is deleted, every hit returns exactly what loading at its signature returns, and every
   * read, cached or not, returns what a load of the files as they were at some moment of that read returns.
   */
  lemma CacheAgreesWithLoading(files: seq<History>, steps: seq<Step>)
    requires Possible(Start(files), steps) && NeverDeletes(steps) && Persistent(files)
    ensures var s := Run(Start(files), steps);
      && (forall hit :: hit in s.hits ==> hit.snapshot.source == hit.signature)
      && (forall r :: r in s.loads && r.phase.Done? ==>
            && Reached(s.files, r.phase.at) && NotAfter(r.start, r.phase.at)
            && r.phase.snapshot.source == Signature(s.files, r.phase.at))
  {
    InvStart(files);
    InvRun(Start(files), steps);
    AgreeRun(Start(files), steps);
    var s := Run(Start(files), steps);
    forall r | r in s.loads && r.phase.Done?
      ensures ReadSound(s.files, r) && ResultCurrent(s.files, r)
    {
    }
  }

  /** A file that appears and disappears between two samples of its absence. */
  function Blink(): seq<Step> {
    [Call(false), Sampled(0, [0]), Write(0), Loaded(0, [1]), Delete(0), Resampled(0, [2])]
  }

  lemma TwoSteps(s: State, a: Step, b: Step, rest: seq<Step>)
    requires Enabled(s, a) && Enabled(Next(s, a), b) && Possible(Next(Next(s, a), b), rest)
    ensures Possible(s, [a, b] + rest) && Run(s, [a, b] + rest) == Run(Next(Next(s, a), b), rest)
  {
    hide Next, Enabled;
    assert ([b] + rest)[1..] == rest;
    assert Possible(Next(s, a), [b] + rest) && Run(Next(s, a), [b] + rest) == Run(Next(Next(s, a), b), rest);
    assert ([a, b] + rest)[1..] == [b] + rest;
  }

  /** The one read of that run, at its awaits. */
  function Blinking(file: History, phase: Phase): State {
    State([file], 0, None, Some(0), [Read(false, 0, [0], phase)], [Caller(false, Waiting(0))], [], [])
  }

  lemma BlinkStarts()
    ensures var s := Start([[false]]);
      Enabled(s, Call(false)) && Enabled(Next(s, Call(false)), Sampled(0, [0]))
      && Next(Next(s, Call(false)), Sampled(0, [0])) == Blinking([false], Loading([Absent], [0]))
  {
    assert Now([[false]]) == [0] && Signature([[false]], [0]) == [Absent];
    assert Next(Start([[false]]), Call(false)) == Blinking([false], Sampling);
  }

  lemma BlinkLoads()
    ensures var s := Blinking([false], Loading([Absent], [0]));
      Enabled(s, Write(0)) && Enabled(Next(s, Write(0)), Loaded(0, [1]))
      && Next(Next(s, Write(0)), Loaded(0, [1])) == Blinking([false, true], Resampling([Absent], [0], [1]))
  {
    var s := Blinking([false], Loading([Absent], [0]));
    assert s.files[0] + [true] == [false, true] && s.files[0 := s.files[0] + [true]] == [[false, true]];
    assert Next(s, Write(0)) == Blinking([false, true], Loading([Absent], [0]));
  }

  lemma BlinkEnds()
    ensures var s := Blinking([false, true], Resampling([Absent], [0], [1]));
      Enabled(s, Delete(0)) && Enabled(Next(s, Delete(0)), Resampled(0, [2]))
      && Next(Next(s, Delete(0)), Resampled(0, [2])).cached == Some(Entry([Absent], Snapshot([Stamp(1)], false), 0))
  {
    var s := Blinking([false, true], Resampling([Absent], [0], [1]));
    var files := [[false, true, false]];
    assert s.files[0] + [false] == [false, true, false] && s.files[0 := s.files[0] + [false]] == files;
    assert Next(s, Delete(0)) == Blinking([false, true, false], Resampling([Absent], [0], [1]));
    assert Signature(files, [1]) == [Stamp(1)] && Signature(files, [2]) == [Absent];
  }

  /** With deletions the cache can serve a file that is not there: the entry for its absence holds its content. */
  lemma DeletionFoolsTheCache()
    ensures Possible(Start([[false]]), Blink())
    ensures var s := Run(Start([[false]]), Blink());
      s.cached.Some? && s.cached.value.signature == [Absent] && s.cached.value.snapshot.source == [Stamp(1)]
  {
    BlinkStarts();
    BlinkLoads();
    BlinkEnds();
    hide Next, Enabled, Start;
    var s0 := Start([[false]]);
    var s2 := Blinking([false], Loading([Absent], [0]));
    var s4 := Blinking([false, true], Resampling([Absent], [0], [1]));
    var s6 := Next(Next(s4, Delete(0)), Resampled(0, [2]));
    assert Possible(s6, []);
    TwoSteps(s4, Delete(0), Resampled(0, [2]), []);
    TwoSteps(s2, Write(0), Loaded(0, [1]), [Delete(0), Resampled(0, [2])] + []);
    TwoSteps(s0, Call(false), Sampled(0, [0]), [Write(0), Loaded(0, [1])] + ([Delete(0), Resampled(0, [2])] + []));
    assert Blink()
      == [Call(false), Sampled(0, [0])] + ([Write(0), Loaded(0, [1])] + ([Delete(0), Resampled(0, [2])] + []));
  }

  /******* Canonical reads and clear *******/

  /** A caller that asked for a canonical read never receives what a non-canonical load returned. */
  lemma CanonicalStaysCanonical(files: seq<History>, steps: seq<Step>)
    requires Possible(Start(files), steps)
    ensures forall c :: c in Run(Start(files), steps).callers && c.canonical && c.phase.Received? ==>
      c.phase.snapshot.canonical
  {
    InvStart(files);
    InvRun(Start(files), steps);
  }

  predicate Outdated(s: State, count: nat) {
    count <= |s.loads| && forall i :: 0 <= i < count ==> s.loads[i].generation < s.generation
  }

  lemma OutdatedNext(s: State, step: Step, count: nat)
    requires Outdated(s, count) && Enabled(s, step)
    ensures Outdated(Next(s, step), count)
    ensures step.Resampled? && step.read < count ==>
      Next(s, step).cached == s.cached && Next(s, step).fills == s.fills
  {
  }

  lemma {:induction false} OutdatedRun(s: State, steps: seq<Step>, count: nat)
    requires Outdated(s, count) && Possible(s, steps)
    ensures Outdated(Run(s, steps), count)
    decreases |steps|
  {
    hide Outdated, Next;
    if steps != [] {
      OutdatedNext(s, steps[0], count);
      OutdatedRun(Next(s, steps[0]), steps[1..], count);
    }
  }

  /** `clear` empties the cache, and no read that began before it ever fills the cache afterwards. */
  lemma ClearIsFinal(s: State, steps: seq<Step>, step: Step)
    requires Inv(s) && Possible(Next(s, Clear), steps)
    requires Enabled(Run(Next(s, Clear), steps), step) && step.Resampled? && step.read < |s.loads|
    ensures Next(s, Clear).cached.None?
    ensures var t := Run(Next(s, Clear), steps);
      Next(t, step).cached == t.cached && Next(t, step).fills == t.fills
  {
    var cleared := Next(s, Clear);
    forall i | 0 <= i < |s.loads|
      ensures cleared.loads[i].generation < cleared.generation
    {
      assert s.loads[i] in s.loads;
    }
    OutdatedRun(cleared, steps, |s.loads|);
    OutdatedNext(Run(cleared, steps), step, |s.loads|);
  }

  /******* Reads are cached *******/

  /**
   * What fills the cache, exactly: a load between two equal samples, unless the cache was cleared since its read
   * began; and what empties it: a clear. No other step touches it.
   */
  lemma FillsExactly(s: State, step: Step)
    requires Enabled(s, step)
    ensures
      var s' := Next(s, step);
      if step.Resampled? && s.loads[step.read].phase.before == Signature(s.files, step.e)
         && s.loads[step.read].generation == s.generation
      then
        && s'.cached.Some?
        && s'.cached.value.signature == Signature(s.files, step.e)
        && s'.cached.value.snapshot
           == Snapshot(Signature(s.files, s.loads[step.read].phase.at), s.loads[step.read].canonical)
      else s'.cached == if step.Clear? then None else s.cached
  {
  }

  /**
   * Whether a sample ends a read at once, exactly: it does if the entry has this signature and is canonical
   * enough, and then its snapshot is the result; otherwise the read goes on to load.
   */
  lemma ServesExactly(s: State, read: ReadId, e: Epochs)
    requires Enabled(s, Sampled(read, e))
    ensures
      var phase := Next(s, Sampled(read, e)).loads[read].phase;
      if s.cached.Some? && s.cached.value.signature == Signature(s.files, e)
         && (s.loads[read].canonical ==> s.cached.value.snapshot.canonical)
      then phase == Done(s.cached.value.snapshot, e)
      else phase == Loading(Signature(s.files, e), e)
  {
  }

  /** What a caller waits for, exactly: a read in flight that is good enough, the end of one that is not, or its own. */
  lemma JoinsExactly(s: State, canonical: bool)
    requires Enabled(s, Call(canonical))
    ensures
      var s', caller := Next(s, Call(canonical)), |s.callers|;
      && s'.callers == s.callers + [Caller(canonical, s'.callers[caller].phase)]
      && match s.inFlight
         case None =>
           && s'.callers[caller].phase == Waiting(|s.loads|) && s'.inFlight == Some(|s.loads|)
           && s'.loads == s.loads + [Read(canonical, s.generation, Now(s.files), Sampling)]
         case Some(read) =>
           && s'.loads == s.loads && s'.inFlight == s.inFlight
           && s'.callers[caller].phase
              == if canonical && !s.loads[read].canonical then Chained(read) else Waiting(read)
  {
  }

  /** What a caller gets, exactly: what its read ends with; whoever waited for a lesser read asks again. */
  lemma DeliversExactly(s: State, caller: nat)
    requires Enabled(s, Deliver(caller))
    ensures
      var s', read := Next(s, Deliver(caller)), s.callers[caller].phase.read;
      && |s'.callers| == |s.callers|
      && (forall c :: 0 <= c < |s.callers| && c != caller ==> s'.callers[c] == s.callers[c])
      && s'.callers[caller].canonical == s.callers[caller].canonical
      && (s.loads[read].phase.Failed? ==> s'.callers[caller].phase.Rejected?)
      && (s.loads[read].phase.Done? && s.callers[caller].phase.Waiting? ==>
            s'.callers[caller].phase == Received(s.loads[read].phase.snapshot))
      && (s.loads[read].phase.Done? && s.callers[caller].phase.Chained? ==>
            s'.callers[caller].phase.Waiting? || s'.callers[caller].phase.Chained?)
      && (s.loads[read].phase.Done? && s.callers[caller].phase.Chained? && s.inFlight.None? ==>
            && s'.callers[caller].phase == Waiting(|s.loads|) && s'.inFlight == Some(|s.loads|)
            && s'.loads == s.loads + [Read(s.callers[caller].canonical, s.generation, Now(s.files), Sampling)])
  {
  }

  /** A clear forgets the entry and lets the next caller read for itself, whatever is in flight. */
  lemma ClearsExactly(s: State, canonical: bool)
    ensures
      var s' := Next(s, Clear);
      && s'.cached.None? && s'.inFlight.None? && s'.generation > s.generation && s'.loads == s.loads
      && Next(s', Call(canonical)).callers[|s.callers|].phase == Waiting(|s.loads|)
      && |Next(s', Call(canonical)).loads| == |s.loads| + 1
  {
  }

  /** A read of files that nobody changes meanwhile, by the only reader. */
  function UndisturbedRead(s: State, canonical: bool): seq<Step> {
    var n, e := |s.loads|, Now(s.files);
    [Call(canonical), Sampled(n, e), Loaded(n, e), Resampled(n, e), Settled(n), Deliver(|s.callers|)]
  }

  /** A read that is over after its first sample. */
  function ServedRead(s: State, canonical: bool): seq<Step> {
    [Call(canonical), Sampled(|s.loads|, Now(s.files)), Settled(|s.loads|), Deliver(|s.callers|)]
  }

  lemma {:induction false} RunInTwo(s: State, a: seq<Step>, b: seq<Step>)
    requires Possible(s, a) && Possible(Run(s, a), b)
    ensures Possible(s, a + b) && Run(s, a + b) == Run(Run(s, a), b)
    decreases |a|
  {
    hide Next, Enabled;
    if a == [] {
      assert a + b == b;
    } else {
      assert (a + b)[1..] == a[1..] + b;
      RunInTwo(Next(s, a[0]), a[1..], b);
    }
  }

  lemma OneStep(s: State, step: Step)
    requires Enabled(s, step)
    ensures Possible(s, [step]) && Run(s, [step]) == Next(s, step)
  {
    hide Next, Enabled;
    assert [step][1..] == [];
  }

  lemma ThreeSteps(s: State, a: Step, b: Step, c: Step)
    requires Enabled(s, a) && Enabled(Next(s, a), b) && Enabled(Next(Next(s, a), b), c)
    ensures Possible(s, [a, b, c]) && Run(s, [a, b, c]) == Next(Next(Next(s, a), b), c)
  {
    hide Next, Enabled;
    OneStep(Next(Next(s, a), b), c);
    assert [b, c][1..] == [c] && [a, b, c][1..] == [b, c];
  }

  lemma BothSteps(s: State, a: Step, b: Step)
    requires Enabled(s, a) && Enabled(Next(s, a), b)
    ensures Possible(s, [a, b]) && Run(s, [a, b]) == Next(Next(s, a), b)
  {
    hide Next, Enabled;
    OneStep(Next(s, a), b);
    assert [a, b][1..] == [b];
  }

  lemma NowIsReached(files: seq<History>)
    ensures Reached(files, Now(files)) && NotAfter(Now(files), Now(files))
  {
  }

  /** From every state without a read in flight: a read that nobody disturbs is cached and received. */
  lemma UndisturbedReadIsCached(s: State, canonical: bool)
    requires s.inFlight.None? && !Hits(s, Signature(s.files, Now(s.files)), canonical)
    ensures Possible(s, UndisturbedRead(s, canonical))
    ensures
      var t, snapshot := Run(s, UndisturbedRead(s, canonical)), Snapshot(Signature(s.files, Now(s.files)), canonical);
      && t.files == s.files && t.inFlight.None? && |t.loads| == |s.loads| + 1
      && |t.callers| == |s.callers| + 1 && t.callers[|s.callers|].phase == Received(snapshot)
      && t.cached.Some? && t.cached.value.signature == snapshot.source && t.cached.value.snapshot == snapshot
  {
    var n, e, steps := |s.loads|, Now(s.files), UndisturbedRead(s, canonical);
    NowIsReached(s.files);
    hide Signature, Now, Reached, NotAfter;
    var s1 := Next(s, steps[0]);
    var s2 := Next(s1, steps[1]);
    var s3 := Next(s2, steps[2]);
    var s4 := Next(s3, steps[3]);
    var s5 := Next(s4, steps[4]);
    var s6 := Next(s5, steps[5]);
    hide Next, Enabled;
    ThreeSteps(s, steps[0], steps[1], steps[2]);
    ThreeSteps(s3, steps[3], steps[4], steps[5]);
    RunInTwo(s, [steps[0], steps[1], steps[2]], [steps[3], steps[4], steps[5]]);
    assert steps == [steps[0], steps[1], steps[2]] + [steps[3], steps[4], steps[5]];
  }

  /** And the next read of the same files, unless it asks for more, is served from the cache without a load. */
  lemma NextReadIsServed(s: State, canonical: bool)
    requires s.inFlight.None? && Hits(s, Signature(s.files, Now(s.files)), canonical)
    ensures Possible(s, ServedRead(s, canonical))
    ensures
      var t := Run(s, ServedRead(s, canonical));
      && t.files == s.files && t.inFlight.None? && t.cached == s.cached
      && |t.callers| == |s.callers| + 1 && t.callers[|s.callers|].phase == Received(s.cached.value.snapshot)
      && t.hits == s.hits + [s.cached.value] && t.fills == s.fills
  {
    var steps := ServedRead(s, canonical);
    NowIsReached(s.files);
    hide Signature, Now, Reached, NotAfter;
    var s1 := Next(s, steps[0]);
    var s2 := Next(s1, steps[1]);
    var s3 := Next(s2, steps[2]);
    var s4 := Next(s3, steps[3]);
    hide Next, Enabled;
    BothSteps(s, steps[0], steps[1]);
    BothSteps(s2, steps[2], steps[3]);
    RunInTwo(s, [steps[0], steps[1]], [steps[2], steps[3]]);
    assert steps == [steps[0], steps[1]] + [steps[2], steps[3]];
  }

  /******* The cache *******/

  /** `stat` of every path, one after the other. */
  method TakeSignature(files: seq<History>, e: Epochs) returns (signature: seq<Stamp>)
    requires Reached(files, e)
    ensures signature == Signature(files, e)
  {
    signature := [];
    for p := 0 to |files|
      invariant |signature| == p
      invariant forall q :: 0 <= q < p ==> signature[q] == Signature(files, e)[q]
    {
      var part := if files[p][e[p]] then Stamp(e[p]) else Absent;
      signature := signature + [part];
    }
  }

  /** `files` are the files as they are now; a read is a call of `#readOnce` at one of its awaits. */
  class ProviderConfigSnapshotCache {
    var files: seq<History>
    var generation: nat
    var cached: Option<Entry>
    var inFlight: Option<ReadId>
    var loads: seq<Read>
    var callers: seq<Caller>
    ghost var fills: seq<Entry>
    ghost var hits: seq<Entry>

    ghost function Current(): State
      reads this
    {
      State(files, generation, cached, inFlight, loads, callers, fills, hits)
    }

    ghost predicate Valid()
      reads this
    {
      Inv(Current())
    }

    constructor (files: seq<History>)
      ensures Valid() && Current() == Start(files)
    {
      this.files, generation, cached, inFlight, loads, callers := files, 0, None, None, [], [];
      fills, hits := [], [];
      new;
      InvStart(files);
    }

    method EnterRead(canonical: bool) returns (phase: CallerPhase)
      requires inFlight.Some? ==> inFlight.value < |loads|
      modifies this`loads, this`inFlight
      ensures (Current(), phase) == Enter(old(Current()), canonical)
    {
      if inFlight.Some? {
        if !canonical || loads[inFlight.value].canonical {
          return Waiting(inFlight.value);
        }
        return Chained(inFlight.value);
      }
      phase := Waiting(|loads|);
      inFlight := Some(|loads|);
      loads := loads + [Read(canonical, generation, Now(files), Sampling)];
    }

    method CallRead(canonical: bool)
      requires Valid()
      modifies this
      ensures Valid() && Current() == Next(old(Current()), Call(canonical))
    {
      CachedFacts(Current());
      InvNext(Current(), Call(canonical));
      hide Inv;
      var phase := EnterRead(canonical);
      callers := callers + [Caller(canonical, phase)];
    }

    method FinishSample(read: ReadId, e: Epochs)
      requires Valid() && Enabled(Current(), Sampled(read, e))
      modifies this
      ensures Valid() && Current() == ApplySample(old(Current()), read, e)
    {
      SampleKeeps(Current(), read, e);
      hide Inv;
      var before := TakeSignature(files, e);
      var r := loads[read];
      if cached.Some? && cached.value.signature == before && (!r.canonical || cached.value.snapshot.canonical) {
        hits := hits + [cached.value];
        loads := loads[read := r.(phase := Done(cached.value.snapshot, e))];
      } else {
        loads := loads[read := r.(phase := Loading(before, e))];
      }
    }

    method FinishLoad(read: ReadId, e: Epochs)
      requires Valid() && Enabled(Current(), Loaded(read, e))
      modifies this
      ensures Valid() && Current() == Next(old(Current()), Loaded(read, e))
    {
      InvNext(Current(), Loaded(read, e));
      hide Inv;
      var r := loads[read];
      loads := loads[read := r.(phase := Resampling(r.phase.before, r.phase.at, e))];
    }

    method FinishResample(read: ReadId, e: Epochs)
      requires Valid() && Enabled(Current(), Resampled(read, e))
      modifies this
      ensures Valid() && Current() == ApplyResample(old(Current()), read, e)
    {
      ResampleKeeps(Current(), read, e);
      hide Inv;
      var r := loads[read];
      var source := TakeSignature(files, r.phase.at);
      var snapshot := Snapshot(source, r.canonical);
      var after := TakeSignature(files, e);
      if r.phase.before == after && r.generation == generation {
        cached := Some(Entry(after, snapshot, r.generation));
        fills := fills + [cached.value];
      }
      loads := loads[read := r.(phase := Done(snapshot, r.phase.at))];
    }

    method SettleRead(read: ReadId)
      requires Valid() && Enabled(Current(), Settled(read))
      modifies this
      ensures Valid() && Current() == Next(old(Current()), Settled(read))
    {
      InvNext(Current(), Settled(read));
      hide Inv;
      if inFlight == Some(read) {
        inFlight := None;
      }
    }

    method DeliverTo(caller: nat)
      requires Valid() && Enabled(Current(), Deliver(caller))
      modifies this
      ensures Valid() && Current() == ApplyDeliver(old(Current()), caller)
    {
      DeliverKeeps(Current(), caller);
      hide Inv;
      var c := callers[caller];
      var ended := loads[c.phase.read].phase;
      if ended.Failed? {
        callers := callers[caller := c.(phase := Rejected)];
      } else if c.phase.Waiting? {
        callers := callers[caller := c.(phase := Received(ended.snapshot))];
      } else {
        var phase := EnterRead(c.canonical);
        callers := callers[caller := c.(phase := phase)];
      }
    }

    method ClearCache()
      requires Valid()
      modifies this
      ensures Valid() && Current() == Next(old(Current()), Clear)
    {
      InvNext(Current(), Clear);
      hide Inv;
      generation := generation + 1;
      cached := None;
      inFlight := None;
    }
  }
}
