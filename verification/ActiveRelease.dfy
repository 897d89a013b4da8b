/**
 * Distributing built-in releases through a shared active file. Every process has its own bundled release;
 * what it reads or is given from remote is merged into the active file under a lock, one step per lock.
 */
module ActiveRelease {
  import opened Common

  /******* Releases *******/

  /** Two releases serialize to the same text exactly when they are equal. */
  datatype Release = Release(revision: nat, content: string)

  /** What reading a release file gives: no file, a file that does not decode, or a release. */
  datatype Candidate = Missing | Invalid | Valid(release: Release)

  datatype Fault = Unavailable | Conflict(revision: nat) | WriteFailed | Disposed

  datatype ApplyResult = Updated | Unchanged | Stale

  function Select(bundled: Candidate, active: Candidate): Result<Release, Fault> {
    if bundled.Valid? && active.Valid? && bundled.release.revision == active.release.revision then Ok(bundled.release)
    else if bundled.Valid? && (!active.Valid? || bundled.release.revision > active.release.revision) then
      Ok(bundled.release)
    else if active.Valid? then Ok(active.release)
    else Err(Unavailable)
  }

  /** The original's own form: the conflict test, then the first of the valid candidates that is newest. */
  method SelectReleaseCandidate(bundled: Candidate, active: Candidate) returns (r: Result<Release, Fault>)
    ensures r == Select(bundled, active)
  {
    if bundled.Valid? && active.Valid? && bundled.release.revision == active.release.revision
       && bundled.release != active.release {
      return Ok(bundled.release);
    }
    var valid: seq<Release> := [];
    if bundled.Valid? {
      valid := valid + [bundled.release];
    }
    if active.Valid? {
      valid := valid + [active.release];
    }
    if valid == [] {
      return Err(Unavailable);
    }
    var newest := valid[0];
    for i := 1 to |valid|
      invariant newest in valid[..i]
      invariant forall j :: 0 <= j < i ==> valid[j].revision <= newest.revision
      invariant forall j :: 0 <= j < i && valid[j].revision == newest.revision ==>
        exists k :: 0 <= k <= j && valid[k] == newest
    {
      if valid[i].revision > newest.revision {
        newest := valid[i];
      }
    }
    return Ok(newest);
  }

  /******* Locked steps *******/

  /** `canWrite` says whether the atomic write succeeds; when it fails the file stays as it was. */
  datatype Locked<T> = Locked(active: Candidate, result: Result<T, Fault>)

  function ReadAndMaterialize(bundled: Candidate, active: Candidate, canWrite: bool): Locked<Release> {
    match Select(bundled, active)
    case Err(e) => Locked(active, Err(e))
    case Ok(selected) =>
      if active == Valid(selected) then Locked(active, Ok(selected))
      else if canWrite then Locked(Valid(selected), Ok(selected))
      else Locked(active, Err(WriteFailed))
  }

  function ApplyRelease(
    bundled: Candidate, active: Candidate, release: Release, canMaterialize: bool, canWrite: bool): Locked<ApplyResult>
  {
    var current := ReadAndMaterialize(bundled, active, canMaterialize);
    match current.result
    case Err(e) => Locked(current.active, Err(e))
    case Ok(installed) =>
      if release.revision < installed.revision then Locked(current.active, Ok(Stale))
      else if release == installed then Locked(current.active, Ok(Unchanged))
      else if release.revision == installed.revision then Locked(current.active, Err(Conflict(release.revision)))
      else if canWrite then Locked(Valid(release), Ok(Updated))
      else Locked(current.active, Err(WriteFailed))
  }

  /** One locked body, by a process whose bundled file reads as `bundled`. */
  datatype Step =
    | Read(bundled: Candidate, canMaterialize: bool)
    | Apply(bundled: Candidate, release: Release, canMaterialize: bool, canWrite: bool)

  function Next(active: Candidate, step: Step): Candidate {
    match step
    case Read(bundled, canMaterialize) => ReadAndMaterialize(bundled, active, canMaterialize).active
    case Apply(bundled, release, canMaterialize, canWrite) =>
      ApplyRelease(bundled, active, release, canMaterialize, canWrite).active
  }

  function Run(active: Candidate, steps: seq<Step>): Candidate
    decreases |steps|
  {
    if steps == [] then active else Run(Next(active, steps[0]), steps[1..])
  }

  /******* The active revision never goes back *******/

  predicate AtLeast(newer: Candidate, older: Candidate) {
    older.Valid? ==> newer.Valid? && older.release.revision <= newer.release.revision
  }

  /** Over any interleaving, whichever writes fail and whatever each process bundles. */
  lemma {:induction false} RevisionNeverDecreases(active: Candidate, steps: seq<Step>)
    ensures AtLeast(Run(active, steps), active)
    decreases |steps|
  {
    if steps != [] {
      RevisionNeverDecreases(Next(active, steps[0]), steps[1..]);
    }
  }

  /** A reader is never given less than its own bundled release, nor less than what the file held. */
  lemma ReadGivesNewest(bundled: Candidate, active: Candidate, canWrite: bool)
    ensures var read := ReadAndMaterialize(bundled, active, canWrite);
      read.result.Ok? ==>
        && read.active == Valid(read.result.value)
        && Valid(read.result.value) in {bundled, active}
        && AtLeast(read.active, bundled) && AtLeast(read.active, active)
  {
  }

  /** The outcome of an apply, for every release and both files, when the file can be written. */
  lemma ApplyOutcome(bundled: Candidate, active: Candidate, release: Release)
    requires bundled.Valid? || active.Valid?
    ensures var before := ReadAndMaterialize(bundled, active, true).active;
      var applied := ApplyRelease(bundled, active, release, true, true);
      && before.Valid?
      && applied.active == (if release.revision > before.release.revision then Valid(release) else before)
      && (applied.result == Ok(Updated) <==> release.revision > before.release.revision)
      && (applied.result == Ok(Stale) <==> release.revision < before.release.revision)
      && (applied.result == Ok(Unchanged) <==> release == before.release)
      && (applied.result.Err? <==> release.revision == before.release.revision && release != before.release)
  {
  }

  /** A conflict at one revision is decided for the bundled release, and a second read changes nothing. */
  lemma ConflictGoesToBundled(bundled: Candidate, active: Candidate)
    requires bundled.Valid? && active.Valid? && bundled.release.revision == active.release.revision
    ensures ReadAndMaterialize(bundled, active, true).active == bundled
  {
  }

  lemma ReadIsIdempotent(bundled: Candidate, active: Candidate, canWrite: bool)
    ensures var once := ReadAndMaterialize(bundled, active, true);
      ReadAndMaterialize(bundled, once.active, canWrite) == once
  {
  }

  /** Watching the file settles: however often a process reads again what its own write announced, nothing changes. */
  lemma {:induction false} ReadsSettle(bundled: Candidate, active: Candidate, again: seq<bool>)
    ensures var steps := seq(|again|, i requires 0 <= i < |again| => Read(bundled, again[i]));
      Run(Next(active, Read(bundled, true)), steps) == Next(active, Read(bundled, true))
    decreases |again|
  {
    var steps := seq(|again|, i requires 0 <= i < |again| => Read(bundled, again[i]));
    if again != [] {
      ReadIsIdempotent(bundled, active, again[0]);
      ReadsSettle(bundled, active, again[1..]);
      var fewer := again[1..];
      assert steps[1..] == seq(|fewer|, i requires 0 <= i < |fewer| => Read(bundled, fewer[i]));
    }
  }

  /** Where the active file is the bundled file, the process behaves as one without a bundled release. */
  lemma SharedFileIsMissingBundled(file: Candidate, canWrite: bool)
    ensures Select(file, Missing) == Select(Missing, file)
    ensures ReadAndMaterialize(Missing, file, canWrite) == Locked(file, Select(file, Missing))
  {
  }

  /******* The active file is a join *******/

  /** The step's writes succeed. */
  predicate Sound(step: Step) {
    step.canMaterialize && (step.Apply? ==> step.canWrite)
  }

  /** From the first step on there is a release to start from. */
  predicate Grounded(active: Candidate, steps: seq<Step>) {
    active.Valid? || (steps != [] && steps[0].bundled.Valid?)
  }

  /** The releases that a step brings to the file. */
  function Offered(step: Step): set<Release> {
    (if step.bundled.Valid? then {step.bundled.release} else {}) + if step.Apply? then {step.release} else {}
  }

  function AllOffered(active: Candidate, steps: seq<Step>): set<Release>
    decreases |steps|
  {
    if steps == [] then (if active.Valid? then {active.release} else {})
    else AllOffered(active, steps[1..]) + Offered(steps[0])
  }

  predicate Newest(r: Release, among: set<Release>) {
    r in among && forall other :: other in among ==> other.revision <= r.revision
  }

  /** No revision is ever published with two contents. */
  predicate Consistent(releases: set<Release>) {
    forall a, b :: a in releases && b in releases && a.revision == b.revision ==> a == b
  }

  lemma NextIsJoin(active: Candidate, step: Step)
    requires Sound(step) && (active.Valid? || step.bundled.Valid?)
    ensures var active' := Next(active, step);
      && active'.Valid?
      && var among := Offered(step) + if active.Valid? then {active.release} else {};
         Newest(active'.release, among)
  {
  }

  /**
   * After any interleaving of reads and applies the file holds a release of the highest revision among the
   * initial one, all bundled ones and all that were applied.
   */
  lemma {:induction false} ActiveIsJoin(active: Candidate, steps: seq<Step>)
    requires Grounded(active, steps)
    requires forall s :: s in steps ==> Sound(s)
    ensures Run(active, steps).Valid? && Newest(Run(active, steps).release, AllOffered(active, steps))
    decreases |steps|
  {
    if steps != [] {
      var next := Next(active, steps[0]);
      NextIsJoin(active, steps[0]);
      hide Next;
      ActiveIsJoin(next, steps[1..]);
      OfferedStart(active, steps[1..]);
      OfferedStart(next, steps[1..]);
    }
  }

  /** Without any usable release, nothing is installed, not even one that is applied. */
  lemma NothingWithoutBaseline(active: Candidate, step: Step)
    requires !active.Valid? && !step.bundled.Valid?
    ensures Next(active, step) == active
  {
  }

  /** Whatever fails, the file never holds a release that nobody offered. */
  lemma {:induction false} NothingInvented(active: Candidate, steps: seq<Step>)
    ensures Run(active, steps).Valid? ==> Run(active, steps).release in AllOffered(active, steps)
    decreases |steps|
  {
    if steps != [] {
      NothingInvented(Next(active, steps[0]), steps[1..]);
      OfferedStart(active, steps[1..]);
      OfferedStart(Next(active, steps[0]), steps[1..]);
    }
  }

  /** The offers of the steps themselves. */
  function StepOffers(steps: seq<Step>): set<Release>
    decreases |steps|
  {
    if steps == [] then {} else StepOffers(steps[1..]) + Offered(steps[0])
  }

  lemma {:induction false} OfferedStart(active: Candidate, steps: seq<Step>)
    ensures AllOffered(active, steps) == StepOffers(steps) + if active.Valid? then {active.release} else {}
    decreases |steps|
  {
    if steps != [] {
      OfferedStart(active, steps[1..]);
    }
  }

  lemma {:induction false} StepOffersMember(steps: seq<Step>, r: Release)
    ensures r in StepOffers(steps) <==> exists s :: s in steps && r in Offered(s)
    decreases |steps|
  {
    if steps != [] {
      StepOffersMember(steps[1..], r);
    }
  }

  /** The steps from the first one at which there is a release to start from. */
  function FromBaseline(active: Candidate, steps: seq<Step>): seq<Step>
    decreases |steps|
  {
    if steps == [] || Grounded(active, steps) then steps else FromBaseline(active, steps[1..])
  }

  /**
   * Every run of successful writes, exactly: an apply before any usable release exists is refused, and the
   * rest is a join.
   */
  lemma {:induction false} JoinFromBaseline(active: Candidate, steps: seq<Step>)
    requires forall s :: s in steps ==> Sound(s)
    ensures var rest := FromBaseline(active, steps);
      && Run(active, steps) == Run(active, rest)
      && (if Grounded(active, rest) then
            Run(active, rest).Valid? && Newest(Run(active, rest).release, AllOffered(active, rest))
          else Run(active, rest) == active)
    decreases |steps|
  {
    if Grounded(active, steps) {
      ActiveIsJoin(active, steps);
    } else if steps != [] {
      NothingWithoutBaseline(active, steps[0]);
      hide Next;
      JoinFromBaseline(active, steps[1..]);
    }
  }

  /** Without conflicting revisions the order of steps, across all processes, does not matter. */
  lemma OrderIrrelevant(active: Candidate, a: seq<Step>, b: seq<Step>)
    requires multiset(a) == multiset(b) && Grounded(active, a) && Grounded(active, b)
    requires (forall s :: s in a ==> Sound(s)) && (forall s :: s in b ==> Sound(s))
    requires Consistent(AllOffered(active, a))
    ensures Run(active, a) == Run(active, b)
  {
    assert forall s :: s in a <==> s in multiset(a);
    assert forall s :: s in b <==> s in multiset(b);
    assert |a| == |multiset(a)| && |b| == |multiset(b)|;
    OfferedStart(active, a);
    OfferedStart(active, b);
    forall r
      ensures r in StepOffers(a) <==> r in StepOffers(b)
    {
      StepOffersMember(a, r);
      StepOffersMember(b, r);
    }
    assert AllOffered(active, a) == AllOffered(active, b);
    ActiveIsJoin(active, a);
    ActiveIsJoin(active, b);
  }

  /** With conflicting revisions it does: two processes that bundle different contents overwrite each other. */
  lemma ConflictsDependOnOrder(revision: nat)
    ensures var a, b := Valid(Release(revision, "a")), Valid(Release(revision, "b"));
      Run(Missing, [Read(a, true), Read(b, true)]) != Run(Missing, [Read(b, true), Read(a, true)])
  {
    var a, b := Valid(Release(revision, "a")), Valid(Release(revision, "b"));
    assert [Read(a, true), Read(b, true)][1..] == [Read(b, true)];
    assert [Read(b, true), Read(a, true)][1..] == [Read(a, true)];
    assert Run(a, [Read(b, true)]) == Run(b, []);
    assert Run(b, [Read(a, true)]) == Run(a, []);
    assert Run(Missing, [Read(a, true), Read(b, true)]) == Run(a, [Read(b, true)]);
    assert Run(Missing, [Read(b, true), Read(a, true)]) == Run(b, [Read(a, true)]);
    assert a.release.content[0] != b.release.content[0];
  }

  /******* The source *******/

  class ReleaseFile {
    var content: Candidate

    constructor (content: Candidate)
      ensures this.content == content
    {
      this.content := content;
    }
  }

  class BuiltinConfigSource {
    const bundledFile: ReleaseFile
    const activeFile: ReleaseFile
    var observed: Option<Release>
    var disposed: bool
    var emitted: seq<string>

    constructor (bundledFile: ReleaseFile, activeFile: ReleaseFile)
      ensures this.bundledFile == bundledFile && this.activeFile == activeFile
      ensures observed == None && !disposed && emitted == []
    {
      this.bundledFile, this.activeFile, observed, disposed, emitted := bundledFile, activeFile, None, false, [];
    }

    /** The bundled candidate as `ReadAndMaterialize` sees it. */
    ghost function Bundled(): Candidate
      reads this, bundledFile
    {
      if activeFile == bundledFile then Missing else bundledFile.content
    }

    method Emit(reason: string)
      modifies this`emitted
      ensures emitted == if disposed then old(emitted) else old(emitted) + [reason]
    {
      if !disposed {
        emitted := emitted + [reason];
      }
    }

    method ReadAndMaterializeLocked(canWrite: bool) returns (r: Result<Release, Fault>)
      modifies activeFile
      ensures Locked(activeFile.content, r) == ReadAndMaterialize(old(Bundled()), old(activeFile.content), canWrite)
    {
      var shared := activeFile == bundledFile;
      var bundled := bundledFile.content;
      var active := if shared then Missing else activeFile.content;
      var selected := SelectReleaseCandidate(bundled, active);
      if selected.Err? {
        return selected;
      }
      if !shared && active != Valid(selected.value) {
        if !canWrite {
          return Err(WriteFailed);
        }
        activeFile.content := Valid(selected.value);
      }
      return selected;
    }

    /** A read; when the lock body fails it falls back to the bundled file alone. */
    method Read(canWrite: bool) returns (r: Result<Release, Fault>)
      modifies this`observed, activeFile
      ensures disposed ==>
        r == Err(Disposed) && activeFile.content == old(activeFile.content) && observed == old(observed)
      ensures !disposed ==>
        var locked := ReadAndMaterialize(old(Bundled()), old(activeFile.content), canWrite);
        && activeFile.content == locked.active
        && r == (if locked.result.Ok? then locked.result else Select(old(bundledFile.content), Missing))
        && observed == if old(observed).None? && r.Ok? then Some(r.value) else old(observed)
    {
      if disposed {
        return Err(Disposed);
      }
      r := ReadAndMaterializeLocked(canWrite);
      if r.Err? {
        r := SelectReleaseCandidate(bundledFile.content, Missing);
      }
      if r.Ok? && observed.None? {
        observed := Some(r.value);
      }
    }

    method ApplyRemoteRelease(release: Release, canMaterialize: bool, canWrite: bool)
      returns (r: Result<ApplyResult, Fault>)
      modifies this`observed, this`emitted, activeFile
      ensures disposed ==>
        r == Err(Disposed) && activeFile.content == old(activeFile.content) && emitted == old(emitted)
        && observed == old(observed)
      ensures !disposed ==>
        && Locked(activeFile.content, r)
           == ApplyRelease(old(Bundled()), old(activeFile.content), release, canMaterialize, canWrite)
        && observed == (if r == Ok(Updated) then Some(release) else old(observed))
        && emitted == old(emitted) + if r == Ok(Updated) then ["remote-updated"] else []
    {
      if disposed {
        return Err(Disposed);
      }
      var current := ReadAndMaterializeLocked(canMaterialize);
      if current.Err? {
        return Err(current.error);
      }
      if release.revision < current.value.revision {
        return Ok(Stale);
      }
      if release.revision == current.value.revision {
        if release == current.value {
          return Ok(Unchanged);
        }
        return Err(Conflict(release.revision));
      }
      if !canWrite {
        return Err(WriteFailed);
      }
      activeFile.content := Valid(release);
      observed := Some(release);
      Emit("remote-updated");
      return Ok(Updated);
    }

    /** What a notification about the directory leads to: an event only for a release not yet observed. */
    method WatchRefresh(canWrite: bool)
      modifies this`observed, this`emitted, activeFile
      ensures disposed ==> emitted == old(emitted) && activeFile.content == old(activeFile.content)
      ensures !disposed ==>
        var locked := ReadAndMaterialize(old(Bundled()), old(activeFile.content), canWrite);
        && activeFile.content == locked.active
        && observed == (if locked.result.Ok? then Some(locked.result.value) else old(observed))
        && emitted == old(emitted) +
             if locked.result.Err? then ["watch-error"]
             else if old(observed) != Some(locked.result.value) then ["file-changed"]
             else []
    {
      if disposed {
        return;
      }
      var release := ReadAndMaterializeLocked(canWrite);
      if release.Err? {
        Emit("watch-error");
      } else if observed != Some(release.value) {
        observed := Some(release.value);
        Emit("file-changed");
      }
    }

    method Dispose()
      modifies this`disposed
      ensures disposed
    {
      disposed := true;
    }
  }
}
