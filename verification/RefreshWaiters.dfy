/** Waiters of the refresh loops and the record of how each of them was settled. */
module RefreshWaiters {
  import opened Common

  /** `madeAt` is the moment of the request, on a clock that ticks at every event. */
  datatype Waiter = Waiter(generation: nat, madeAt: nat, reason: string)

  /**
   * What settled a promise: the round that began at `beganAt`, that round by handing out the snapshot it
   * kept, or the disposal of the service.
   */
  datatype Cause = Round(beganAt: nat) | Retained(beganAt: nat) | Disposal

  /** `outcome` is the snapshot a promise was resolved with, or None when it was rejected. */
  datatype Settlement<T> = Settlement(waiter: Waiter, outcome: Option<T>, cause: Cause)

  /** The waiters that a settlement of everything up to `generation` leaves. */
  function Keep(waiters: seq<Waiter>, generation: nat): seq<Waiter> {
    if waiters == [] then []
    else (if waiters[0].generation <= generation then [] else [waiters[0]]) + Keep(waiters[1..], generation)
  }

  function Settle<T>(waiters: seq<Waiter>, generation: nat, outcome: Option<T>, cause: Cause): seq<Settlement<T>> {
    if waiters == [] then []
    else
      (if waiters[0].generation <= generation then [Settlement(waiters[0], outcome, cause)] else [])
      + Settle(waiters[1..], generation, outcome, cause)
  }

  function SettleAll<T>(waiters: seq<Waiter>): seq<Settlement<T>> {
    if waiters == [] then [] else [Settlement(waiters[0], None, Disposal)] + SettleAll(waiters[1..])
  }

  /** Both settling loops: those asked for by `generation` are settled, the others stay in order. */
  method SettleWaiters<T>(waiters: seq<Waiter>, generation: nat, outcome: Option<T>, cause: Cause)
    returns (remaining: seq<Waiter>, settled: seq<Settlement<T>>)
    ensures remaining == Keep(waiters, generation)
    ensures settled == Settle(waiters, generation, outcome, cause)
  {
    remaining, settled := [], [];
    for i := 0 to |waiters|
      invariant remaining + Keep(waiters[i..], generation) == Keep(waiters, generation)
      invariant
        settled + Settle(waiters[i..], generation, outcome, cause) == Settle(waiters, generation, outcome, cause)
    {
      assert waiters[i..][0] == waiters[i] && waiters[i..][1..] == waiters[i + 1..];
      AppendLaws(remaining, [waiters[i]], Keep(waiters[i + 1..], generation));
      AppendLaws(settled, [Settlement(waiters[i], outcome, cause)],
                 Settle(waiters[i + 1..], generation, outcome, cause));
      AppendLaws(Keep(waiters[i + 1..], generation), [], []);
      AppendLaws(Settle(waiters[i + 1..], generation, outcome, cause), [], []);
      if waiters[i].generation <= generation {
        settled := settled + [Settlement(waiters[i], outcome, cause)];
      } else {
        remaining := remaining + [waiters[i]];
      }
    }
    assert waiters[|waiters|..] == [];
    AppendLaws(remaining, [], []);
    AppendLaws(settled, [], []);
  }

  /******* Conservation *******/

  function Pending(waiters: seq<Waiter>, g: nat): nat {
    if waiters == [] then 0 else (if waiters[0].generation == g then 1 else 0) + Pending(waiters[1..], g)
  }

  function Answered<T>(settled: seq<Settlement<T>>, g: nat): nat {
    if settled == [] then 0 else (if settled[0].waiter.generation == g then 1 else 0) + Answered(settled[1..], g)
  }

  /** Request numbers 1 to `requested` are each waiting or settled, and that exactly once. */
  ghost predicate Accounted<T>(requested: nat, waiters: seq<Waiter>, settled: seq<Settlement<T>>) {
    forall g: nat :: Pending(waiters, g) + Answered(settled, g) == if 1 <= g <= requested then 1 else 0
  }

  lemma {:induction false} KeepMember(waiters: seq<Waiter>, generation: nat, w: Waiter)
    ensures w in Keep(waiters, generation) <==> w in waiters && w.generation > generation
    decreases |waiters|
  {
    if waiters != [] {
      KeepMember(waiters[1..], generation, w);
    }
  }

  lemma {:induction false} SettleMember<T>(
    waiters: seq<Waiter>, generation: nat, outcome: Option<T>, cause: Cause, s: Settlement<T>)
    ensures s in Settle(waiters, generation, outcome, cause) <==>
      s.waiter in waiters && s.waiter.generation <= generation && s.outcome == outcome && s.cause == cause
    decreases |waiters|
  {
    if waiters != [] {
      SettleMember(waiters[1..], generation, outcome, cause, s);
    }
  }

  lemma {:induction false} SettleAllMember<T>(waiters: seq<Waiter>, s: Settlement<T>)
    ensures s in SettleAll<T>(waiters) <==> s.waiter in waiters && s.outcome.None? && s.cause.Disposal?
    decreases |waiters|
  {
    if waiters != [] {
      SettleAllMember(waiters[1..], s);
    }
  }

  lemma {:induction false} AnsweredAppend<T>(a: seq<Settlement<T>>, b: seq<Settlement<T>>, g: nat)
    ensures Answered(a + b, g) == Answered(a, g) + Answered(b, g)
    decreases |a|
  {
    if a == [] {
      assert a + b == b;
    } else {
      AnsweredAppend(a[1..], b, g);
      assert (a + b)[1..] == a[1..] + b;
    }
  }

  lemma {:induction false} PendingAppend(a: seq<Waiter>, b: seq<Waiter>, g: nat)
    ensures Pending(a + b, g) == Pending(a, g) + Pending(b, g)
    decreases |a|
  {
    if a == [] {
      assert a + b == b;
    } else {
      PendingAppend(a[1..], b, g);
      assert (a + b)[1..] == a[1..] + b;
    }
  }

  lemma {:induction false} SettleConserves<T>(
    waiters: seq<Waiter>, generation: nat, outcome: Option<T>, cause: Cause, g: nat)
    ensures Pending(Keep(waiters, generation), g) + Answered(Settle(waiters, generation, outcome, cause), g)
      == Pending(waiters, g)
    decreases |waiters|
  {
    if waiters != [] {
      SettleConserves(waiters[1..], generation, outcome, cause, g);
      PendingAppend([waiters[0]], Keep(waiters[1..], generation), g);
      AnsweredAppend([Settlement(waiters[0], outcome, cause)], Settle(waiters[1..], generation, outcome, cause), g);
      AppendLaws(Keep(waiters[1..], generation), [], []);
      AppendLaws(Settle(waiters[1..], generation, outcome, cause), [], []);
    }
  }

  lemma {:induction false} SettleAllConserves<T>(waiters: seq<Waiter>, g: nat)
    ensures Answered(SettleAll<T>(waiters), g) == Pending(waiters, g)
    decreases |waiters|
  {
    if waiters != [] {
      SettleAllConserves<T>(waiters[1..], g);
      AnsweredAppend([Settlement<T>.Settlement(waiters[0], None, Disposal)], SettleAll<T>(waiters[1..]), g);
    }
  }

  lemma SettlingAccounts<T>(
    requested: nat, waiters: seq<Waiter>, settled: seq<Settlement<T>>,
    generation: nat, outcome: Option<T>, cause: Cause)
    requires Accounted(requested, waiters, settled)
    ensures Accounted(requested, Keep(waiters, generation), settled + Settle(waiters, generation, outcome, cause))
  {
    forall g: nat
      ensures Pending(Keep(waiters, generation), g)
        + Answered(settled + Settle(waiters, generation, outcome, cause), g) == if 1 <= g <= requested then 1 else 0
    {
      SettleConserves(waiters, generation, outcome, cause, g);
      AnsweredAppend(settled, Settle(waiters, generation, outcome, cause), g);
    }
  }

  lemma DisposalAccounts<T>(requested: nat, waiters: seq<Waiter>, settled: seq<Settlement<T>>)
    requires Accounted(requested, waiters, settled)
    ensures Accounted(requested, [], settled + SettleAll(waiters))
  {
    forall g: nat
      ensures Pending([], g) + Answered(settled + SettleAll(waiters), g) == if 1 <= g <= requested then 1 else 0
    {
      SettleAllConserves<T>(waiters, g);
      AnsweredAppend(settled, SettleAll(waiters), g);
    }
  }

  lemma RequestAccounts<T>(requested: nat, waiters: seq<Waiter>, settled: seq<Settlement<T>>, w: Waiter)
    requires Accounted(requested, waiters, settled) && w.generation == requested + 1
    ensures Accounted(requested + 1, waiters + [w], settled)
  {
    forall g: nat
      ensures Pending(waiters + [w], g) + Answered(settled, g) == if 1 <= g <= requested + 1 then 1 else 0
    {
      PendingAppend(waiters, [w], g);
    }
  }

  lemma {:induction false} PendingCounts(waiters: seq<Waiter>, i: nat)
    requires i < |waiters|
    ensures Pending(waiters, waiters[i].generation) > 0
    decreases i
  {
    if i > 0 {
      PendingCounts(waiters[1..], i - 1);
    }
  }

  lemma {:induction false} AnsweredCounts<T>(settled: seq<Settlement<T>>, i: nat)
    requires i < |settled|
    ensures Answered(settled, settled[i].waiter.generation) > 0
    decreases i
  {
    if i > 0 {
      AnsweredCounts(settled[1..], i - 1);
    }
  }

  lemma {:induction false} AnsweredTwice<T>(settled: seq<Settlement<T>>, i: nat, j: nat)
    requires i < j < |settled| && settled[i].waiter.generation == settled[j].waiter.generation
    ensures Answered(settled, settled[i].waiter.generation) > 1
    decreases i
  {
    if i == 0 {
      AnsweredCounts(settled[1..], j - 1);
    } else {
      AnsweredTwice(settled[1..], i - 1, j - 1);
    }
  }

  /** No promise settles twice, and none is settled while it is still waiting. */
  lemma SettledOnce<T>(requested: nat, waiters: seq<Waiter>, settled: seq<Settlement<T>>)
    requires Accounted(requested, waiters, settled)
    ensures forall i, j :: 0 <= i < j < |settled| ==> settled[i].waiter.generation != settled[j].waiter.generation
    ensures forall w, s :: w in waiters && s in settled ==> w.generation != s.waiter.generation
  {
    forall i, j | 0 <= i < j < |settled|
      ensures settled[i].waiter.generation != settled[j].waiter.generation
    {
      if settled[i].waiter.generation == settled[j].waiter.generation {
        AnsweredTwice(settled, i, j);
      }
    }
    forall w, s | w in waiters && s in settled
      ensures w.generation != s.waiter.generation
    {
      var i: nat :| i < |waiters| && waiters[i] == w;
      var j: nat :| j < |settled| && settled[j] == s;
      PendingCounts(waiters, i);
      AnsweredCounts(settled, j);
    }
  }

  lemma {:induction false} PendingHas(waiters: seq<Waiter>, g: nat)
    requires Pending(waiters, g) > 0
    ensures exists w :: w in waiters && w.generation == g
    decreases |waiters|
  {
    if waiters[0].generation == g {
      assert waiters[0] in waiters;
    } else {
      PendingHas(waiters[1..], g);
      var w :| w in waiters[1..] && w.generation == g;
      assert w in waiters;
    }
  }

  lemma {:induction false} AnsweredHas<T>(settled: seq<Settlement<T>>, g: nat)
    requires Answered(settled, g) > 0
    ensures exists s :: s in settled && s.waiter.generation == g
    decreases |settled|
  {
    if settled[0].waiter.generation == g {
      assert settled[0] in settled;
    } else {
      AnsweredHas(settled[1..], g);
      var s :| s in settled[1..] && s.waiter.generation == g;
      assert s in settled;
    }
  }

  /** Request number `i + 1` gave `reasons[i]` as its reason. */
  predicate Recorded<T>(reasons: seq<string>, waiters: seq<Waiter>, settled: seq<Settlement<T>>) {
    && (forall i :: 0 <= i < |waiters| ==> RecordedAs(reasons, waiters[i]))
    && (forall i :: 0 <= i < |settled| ==> RecordedAs(reasons, settled[i].waiter))
  }

  predicate RecordedAs(reasons: seq<string>, w: Waiter) {
    1 <= w.generation <= |reasons| && reasons[w.generation - 1] == w.reason
  }

  lemma RequestRecorded<T>(reasons: seq<string>, waiters: seq<Waiter>, settled: seq<Settlement<T>>, w: Waiter)
    requires Recorded(reasons, waiters, settled) && w.generation == |reasons| + 1
    ensures Recorded(reasons + [w.reason], waiters + [w], settled)
  {
  }

  lemma SettlingRecorded<T>(
    reasons: seq<string>, waiters: seq<Waiter>, settled: seq<Settlement<T>>,
    generation: nat, outcome: Option<T>, cause: Cause)
    requires Recorded(reasons, waiters, settled)
    ensures Recorded(reasons, Keep(waiters, generation), settled + Settle(waiters, generation, outcome, cause))
  {
    var kept, more := Keep(waiters, generation), Settle(waiters, generation, outcome, cause);
    forall i | 0 <= i < |kept|
      ensures RecordedAs(reasons, kept[i])
    {
      KeepMember(waiters, generation, kept[i]);
    }
    forall i | 0 <= i < |more|
      ensures RecordedAs(reasons, more[i].waiter)
    {
      SettleMember(waiters, generation, outcome, cause, more[i]);
    }
  }

  lemma DisposalRecorded<T>(reasons: seq<string>, waiters: seq<Waiter>, settled: seq<Settlement<T>>)
    requires Recorded(reasons, waiters, settled)
    ensures Recorded(reasons, [], settled + SettleAll(waiters))
  {
    var more := SettleAll<T>(waiters);
    forall i | 0 <= i < |more|
      ensures RecordedAs(reasons, more[i].waiter)
    {
      SettleAllMember(waiters, more[i]);
    }
  }

  predicate IsWaiting(waiters: seq<Waiter>, g: nat) {
    exists w :: w in waiters && w.generation == g
  }

  predicate IsSettled<T(==)>(settled: seq<Settlement<T>>, g: nat) {
    exists s :: s in settled && s.waiter.generation == g
  }

  /** No request is ever lost. */
  lemma NoneLost<T>(requested: nat, waiters: seq<Waiter>, settled: seq<Settlement<T>>, g: nat)
    requires Accounted(requested, waiters, settled) && 1 <= g <= requested
    ensures IsWaiting(waiters, g) || IsSettled(settled, g)
  {
    if Pending(waiters, g) > 0 {
      PendingHas(waiters, g);
    } else {
      AnsweredHas(settled, g);
    }
  }
}
