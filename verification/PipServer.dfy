/**
 * The "newest writer wins" protocol of the PiP session server (lcode-cua/pip-session-server.js).
 * Every stretch between two awaits is one step; any interleaving of steps is a run.
 */
module PipServer {
  import opened Common
  import opened PipState
  import opened PipInvariants
  import opened PipIsolation

  type ConnectionId = nat

  /** `Restoring` and `Applying` wait for the coordinator operation at that position of the queue. */
  datatype Phase = Waiting | Restoring(at: nat) | Ready | Applying(at: nat)

  datatype Connection = Connection(phase: Phase, closed: bool, epoch: nat)

  /** A decoded line: `authentic` stands for the protocol, version, role, capability and availability checks. */
  datatype Frame =
    | Malformed
    | Handshake(authentic: bool, snapshot: Snapshot)
    | EventFrame(event: Option<Event>)

  datatype Enqueued = Enqueued(epoch: nat, writer: ConnectionId, op: Operation)

  /**
   * `queue` is every client operation handed to the coordinator so far, in order; `results` says of the
   * executed ones, a prefix, whether their promise was fulfilled.
   */
  datatype ServerState = ServerState(
    connections: map<ConnectionId, Connection>,
    activeWriter: Option<ConnectionId>,
    writerEpoch: nat,
    closed: bool,
    queue: seq<Enqueued>,
    results: seq<bool>)

  const START := ServerState(map[], None, 0, false, [], [])

  datatype ServerStep =
    | Connect(id: ConnectionId)
    | Line(id: ConnectionId, frame: Frame)
    | Execute(ok: bool)
    | Settle(id: ConnectionId)
    | SocketClosed(id: ConnectionId)
    | CloseServer

  /******* Steps *******/

  predicate IsReady(c: Connection) {
    c.phase.Ready? || c.phase.Applying?
  }

  function CloseConnection(s: ServerState, id: ConnectionId): ServerState
    requires id in s.connections
  {
    s.(connections := s.connections[id := s.connections[id].(closed := true)],
       activeWriter := if s.activeWriter == Some(id) then None else s.activeWriter)
  }

  function SetPhase(s: ServerState, id: ConnectionId, phase: Phase): ServerState
    requires id in s.connections
  {
    s.(connections := s.connections[id := s.connections[id].(phase := phase)])
  }

  predicate AcceptsHandshake(frame: Frame) {
    frame.Handshake? && frame.authentic && ValidSnapshot(frame.snapshot)
  }

  /** An accepted handshake takes the next epoch and the writer role, and queues its snapshot. */
  function TakeOver(s: ServerState, id: ConnectionId, snapshot: Snapshot): ServerState
    requires id in s.connections
  {
    var epoch := s.writerEpoch + 1;
    s.(connections := s.connections[id := s.connections[id].(epoch := epoch, phase := Restoring(|s.queue|))],
       activeWriter := Some(id),
       writerEpoch := epoch,
       queue := s.queue + [Enqueued(epoch, id, ApplySnapshot(snapshot))])
  }

  predicate IsWriter(s: ServerState, id: ConnectionId) {
    id in s.connections && s.activeWriter == Some(id) && s.connections[id].epoch == s.writerEpoch
  }

  function HandleEventFrame(s: ServerState, id: ConnectionId, event: Option<Event>): ServerState
    requires id in s.connections
  {
    if !IsWriter(s, id) then CloseConnection(s, id)
    else if event.None? || !ValidEvent(event.value) then s
    else
      SetPhase(s, id, Applying(|s.queue|)).(
        queue := s.queue + [Enqueued(s.connections[id].epoch, id, ApplyEvent(event.value))])
  }

  /** `handleLine`; a connection's lines are handled one at a time. */
  function HandleLine(s: ServerState, id: ConnectionId, frame: Frame): ServerState {
    if id !in s.connections then s
    else
      var c := s.connections[id];
      if c.closed || s.closed || c.phase.Restoring? || c.phase.Applying? then s
      else if frame.Malformed? then CloseConnection(s, id)
      else if c.phase.Waiting? then
        if AcceptsHandshake(frame) then TakeOver(s, id, frame.snapshot) else CloseConnection(s, id)
      else if frame.Handshake? then CloseConnection(s, id)
      else HandleEventFrame(s, id, frame.event)
  }

  /** The stretch after the awaited coordinator operation of a connection. */
  function HandleSettled(s: ServerState, id: ConnectionId): ServerState {
    if id !in s.connections then s
    else
      var c := s.connections[id];
      match c.phase
      case Restoring(at) =>
        if at >= |s.results| then s
        else if !s.results[at] || s.closed || !IsWriter(s, id) then
          // the promise chain of the connection goes on, but the connection is closed
          SetPhase(CloseConnection(s, id), id, Waiting)
        else SetPhase(s, id, Ready)
      case Applying(at) => if at >= |s.results| then s else SetPhase(s, id, Ready)
      case _ => s
  }

  function Next(s: ServerState, step: ServerStep): ServerState {
    match step
    case Connect(id) =>
      if id in s.connections then s
      else s.(connections := s.connections[id := Connection(Waiting, false, 0)])
    case Line(id, frame) => HandleLine(s, id, frame)
    case Execute(ok) => if |s.results| < |s.queue| then s.(results := s.results + [ok]) else s
    case Settle(id) => HandleSettled(s, id)
    case SocketClosed(id) => if id in s.connections then CloseConnection(s, id) else s
    case CloseServer => s.(closed := true)
  }

  function RunServer(s: ServerState, steps: seq<ServerStep>): ServerState
    decreases |steps|
  {
    if steps == [] then s else RunServer(Next(s, steps[0]), steps[1..])
  }

  /******* The order of the queue *******/

  function EpochBefore(queue: seq<Enqueued>, i: nat): nat
    requires i <= |queue|
  {
    if i == 0 then 0 else queue[i - 1].epoch
  }

  /** A snapshot opens the next epoch; an event belongs to the epoch and the writer of its predecessor. */
  ghost predicate Tagged(queue: seq<Enqueued>) {
    forall i :: 0 <= i < |queue| ==> TaggedAt(queue, i)
  }

  ghost predicate TaggedAt(queue: seq<Enqueued>, i: nat)
    requires i < |queue|
  {
    match queue[i].op
    case ApplySnapshot(snapshot) => ValidSnapshot(snapshot) && queue[i].epoch == EpochBefore(queue, i) + 1
    case ApplyEvent(event) =>
      && ValidEvent(event) && i > 0
      && queue[i].epoch == queue[i - 1].epoch && queue[i].writer == queue[i - 1].writer
    case BindCapture(_) => false
  }

  /** The snapshot at `at` was queued by connection `id` for epoch `epoch` and has been applied. */
  ghost predicate Restored(s: ServerState, id: ConnectionId, epoch: nat, at: nat) {
    && at < |s.results| <= |s.queue| && s.results[at]
    && s.queue[at].op.ApplySnapshot? && s.queue[at].epoch == epoch && s.queue[at].writer == id
  }

  /** The event at position `i` comes after its own writer's applied snapshot. */
  ghost predicate FollowsSnapshot(s: ServerState, i: nat)
    requires i < |s.queue|
  {
    exists at: nat :: at < i && Restored(s, s.queue[i].writer, s.queue[i].epoch, at)
  }

  ghost predicate EventsFollow(s: ServerState) {
    forall i :: 0 <= i < |s.queue| && s.queue[i].op.ApplyEvent? ==> FollowsSnapshot(s, i)
  }

  ghost predicate ConnectionOk(s: ServerState, id: ConnectionId) {
    id in s.connections ==>
      var c := s.connections[id];
      && c.epoch <= s.writerEpoch
      && (c.phase.Restoring? ==>
            && c.phase.at < |s.queue| && s.queue[c.phase.at].op.ApplySnapshot?
            && s.queue[c.phase.at].epoch == c.epoch && s.queue[c.phase.at].writer == id)
      && (IsReady(c) ==> exists at: nat :: Restored(s, id, c.epoch, at))
  }

  ghost predicate ServerInv(s: ServerState) {
    && |s.results| <= |s.queue|
    && Tagged(s.queue)
    && s.writerEpoch == EpochBefore(s.queue, |s.queue|)
    && (forall id :: ConnectionOk(s, id))
    && (s.activeWriter.Some? ==>
          && s.activeWriter.value in s.connections && !s.connections[s.activeWriter.value].closed
          && s.connections[s.activeWriter.value].epoch == s.writerEpoch
          && s.queue != [] && s.queue[|s.queue| - 1].writer == s.activeWriter.value)
    && EventsFollow(s)
  }

  lemma QueueGrows(s: ServerState, t: ServerState)
    requires s.queue <= t.queue && s.results <= t.results && |t.results| <= |t.queue|
    ensures forall id, epoch, at :: Restored(s, id, epoch, at) ==> Restored(t, id, epoch, at)
    ensures forall i :: 0 <= i < |s.queue| && FollowsSnapshot(s, i) ==> FollowsSnapshot(t, i)
  {
    forall i | 0 <= i < |s.queue| && FollowsSnapshot(s, i)
      ensures FollowsSnapshot(t, i)
    {
      var at: nat :| at < i && Restored(s, s.queue[i].writer, s.queue[i].epoch, at);
      assert Restored(t, t.queue[i].writer, t.queue[i].epoch, at);
    }
  }

  lemma TaggedGrows(queue: seq<Enqueued>, e: Enqueued)
    requires Tagged(queue) && TaggedAt(queue + [e], |queue|)
    ensures Tagged(queue + [e])
  {
    forall i | 0 <= i < |queue|
      ensures TaggedAt(queue + [e], i)
    {
      assert TaggedAt(queue, i);
    }
  }

  lemma InvConnections(s: ServerState, id: ConnectionId, c: Connection)
    requires ServerInv(s) && ConnectionOk(s.(connections := s.connections[id := c]), id)
    requires s.activeWriter != Some(id) || (!c.closed && c.epoch == s.writerEpoch)
    ensures ServerInv(s.(connections := s.connections[id := c]))
  {
    hide Restored, FollowsSnapshot, ConnectionOk, Tagged, EventsFollow;
    var t := s.(connections := s.connections[id := c]);
    SameQueue(s, t);
    forall other
      ensures ConnectionOk(t, other)
    {
      OtherConnection(s, id, c, other);
    }
  }

  lemma SameQueue(s: ServerState, t: ServerState)
    requires EventsFollow(s) && t.queue == s.queue && t.results == s.results && |s.results| <= |s.queue|
    ensures EventsFollow(t)
  {
    QueueGrows(s, t);
  }

  lemma OtherConnection(s: ServerState, id: ConnectionId, c: Connection, other: ConnectionId)
    requires ConnectionOk(s, other) && ConnectionOk(s.(connections := s.connections[id := c]), id)
    ensures ConnectionOk(s.(connections := s.connections[id := c]), other)
  {
    if other != id && other in s.connections && IsReady(s.connections[other]) {
      var at: nat :| Restored(s, other, s.connections[other].epoch, at);
      assert Restored(s.(connections := s.connections[id := c]), other, s.connections[other].epoch, at);
    }
  }

  lemma InvClose(s: ServerState, id: ConnectionId)
    requires ServerInv(s) && id in s.connections
    ensures ServerInv(CloseConnection(s, id))
  {
    var u := s.(activeWriter := if s.activeWriter == Some(id) then None else s.activeWriter);
    QueueGrows(s, u);
    forall other
      ensures ConnectionOk(u, other)
    {
      assert ConnectionOk(s, other);
    }
    assert ServerInv(u);
    var c := s.connections[id].(closed := true);
    assert ConnectionOk(u, id);
    QueueGrows(u, u.(connections := u.connections[id := c]));
    assert ConnectionOk(u.(connections := u.connections[id := c]), id);
    InvConnections(u, id, c);
  }

  lemma InvPhase(s: ServerState, id: ConnectionId, phase: Phase)
    requires ServerInv(s) && id in s.connections && (phase.Waiting? || phase.Ready?)
    requires phase.Ready? ==> exists at: nat :: Restored(s, id, s.connections[id].epoch, at)
    ensures ServerInv(SetPhase(s, id, phase))
  {
    var c := s.connections[id].(phase := phase);
    var t := SetPhase(s, id, phase);
    assert ConnectionOk(s, id);
    QueueGrows(s, t);
    assert ConnectionOk(t, id);
    InvConnections(s, id, c);
  }

  lemma InvTakeOver(s: ServerState, id: ConnectionId, snapshot: Snapshot)
    requires ServerInv(s) && id in s.connections && !s.connections[id].closed && ValidSnapshot(snapshot)
    ensures ServerInv(TakeOver(s, id, snapshot))
  {
    var t := TakeOver(s, id, snapshot);
    var e := Enqueued(s.writerEpoch + 1, id, ApplySnapshot(snapshot));
    TaggedGrows(s.queue, e);
    QueueGrows(s, t);
    forall other
      ensures ConnectionOk(t, other)
    {
      assert ConnectionOk(s, other);
    }
    assert EventsFollow(t);
  }

  lemma InvEvent(s: ServerState, id: ConnectionId, event: Event)
    requires ServerInv(s) && IsWriter(s, id) && s.connections[id].phase.Ready? && ValidEvent(event)
    ensures ServerInv(HandleEventFrame(s, id, Some(event)))
  {
    var t := HandleEventFrame(s, id, Some(event));
    var e := Enqueued(s.writerEpoch, id, ApplyEvent(event));
    assert t.queue == s.queue + [e];
    assert ConnectionOk(s, id);
    TaggedGrows(s.queue, e);
    QueueGrows(s, t);
    var at: nat :| Restored(s, id, s.connections[id].epoch, at);
    assert Restored(t, id, s.writerEpoch, at);
    forall other
      ensures ConnectionOk(t, other)
    {
      assert ConnectionOk(s, other);
    }
    assert FollowsSnapshot(t, |s.queue|);
    assert EventsFollow(t);
  }

  lemma InvExecute(s: ServerState, ok: bool)
    requires ServerInv(s) && |s.results| < |s.queue|
    ensures ServerInv(s.(results := s.results + [ok]))
  {
    var t := s.(results := s.results + [ok]);
    QueueGrows(s, t);
    forall id
      ensures ConnectionOk(t, id)
    {
      assert ConnectionOk(s, id);
    }
  }

  lemma InvSettled(s: ServerState, id: ConnectionId)
    requires ServerInv(s)
    ensures ServerInv(HandleSettled(s, id))
  {
    hide ServerInv;
    if id in s.connections {
      var c := s.connections[id];
      match c.phase
      case Restoring(at) =>
        if at < |s.results| {
          if !s.results[at] || s.closed || !IsWriter(s, id) {
            InvClose(s, id);
            InvPhase(CloseConnection(s, id), id, Waiting);
          } else {
            RestoringIsRestored(s, id);
            InvPhase(s, id, Ready);
          }
        }
      case Applying(at) =>
        if at < |s.results| {
          ReadyIsRestored(s, id);
          InvPhase(s, id, Ready);
        }
      case _ =>
    }
  }

  lemma RestoringIsRestored(s: ServerState, id: ConnectionId)
    requires ServerInv(s) && id in s.connections && s.connections[id].phase.Restoring?
    requires s.connections[id].phase.at < |s.results| && s.results[s.connections[id].phase.at]
    ensures exists at: nat :: Restored(s, id, s.connections[id].epoch, at)
  {
    assert ConnectionOk(s, id);
    assert Restored(s, id, s.connections[id].epoch, s.connections[id].phase.at);
  }

  lemma ReadyIsRestored(s: ServerState, id: ConnectionId)
    requires ServerInv(s) && id in s.connections && IsReady(s.connections[id])
    ensures exists at: nat :: Restored(s, id, s.connections[id].epoch, at)
  {
    assert ConnectionOk(s, id);
  }

  lemma InvConnect(s: ServerState, id: ConnectionId)
    requires ServerInv(s) && id !in s.connections
    ensures ServerInv(s.(connections := s.connections[id := Connection(Waiting, false, 0)]))
  {
    InvConnections(s, id, Connection(Waiting, false, 0));
  }

  lemma InvCloseServer(s: ServerState)
    requires ServerInv(s)
    ensures ServerInv(s.(closed := true))
  {
    var t := s.(closed := true);
    QueueGrows(s, t);
    forall id
      ensures ConnectionOk(t, id)
    {
      assert ConnectionOk(s, id);
    }
  }

  lemma InvNext(s: ServerState, step: ServerStep)
    requires ServerInv(s)
    ensures ServerInv(Next(s, step))
  {
    hide ServerInv, TakeOver, CloseConnection, HandleEventFrame;
    match step
    case Connect(id) =>
      if id !in s.connections {
        InvConnect(s, id);
      }
    case Line(id, frame) =>
      if id in s.connections {
        InvClose(s, id);
        var c := s.connections[id];
        if !c.closed && c.phase.Waiting? && AcceptsHandshake(frame) {
          InvTakeOver(s, id, frame.snapshot);
        } else if c.phase.Ready? && frame.EventFrame? {
          EventCases(s, id, frame.event);
        }
      }
    case Execute(ok) =>
      if |s.results| < |s.queue| {
        InvExecute(s, ok);
      }
    case Settle(id) => InvSettled(s, id);
    case SocketClosed(id) =>
      if id in s.connections {
        InvClose(s, id);
      }
    case CloseServer => InvCloseServer(s);
  }

  lemma EventCases(s: ServerState, id: ConnectionId, event: Option<Event>)
    requires ServerInv(s) && id in s.connections && s.connections[id].phase.Ready?
    ensures ServerInv(HandleEventFrame(s, id, event))
  {
    hide ServerInv;
    if !IsWriter(s, id) {
      InvClose(s, id);
    } else if event.Some? && ValidEvent(event.value) {
      InvEvent(s, id, event.value);
    }
  }

  lemma {:induction false} InvRunServer(s: ServerState, steps: seq<ServerStep>)
    requires ServerInv(s)
    ensures ServerInv(RunServer(s, steps))
    decreases |steps|
  {
    hide ServerInv, Next;
    if steps != [] {
      InvNext(s, steps[0]);
      InvRunServer(Next(s, steps[0]), steps[1..]);
    }
  }

  lemma InvStart()
    ensures ServerInv(START)
  {
  }

  /******* What the queue looks like in every reachable state *******/

  /** Epochs never go back, so nothing of an older writer follows a newer handshake. */
  lemma {:induction false} EpochsNeverDecrease(queue: seq<Enqueued>, i: nat, j: nat)
    requires Tagged(queue) && i <= j < |queue|
    ensures queue[i].epoch <= queue[j].epoch
    ensures queue[i].epoch == queue[j].epoch ==>
      queue[i].writer == queue[j].writer && (i < j ==> queue[j].op.ApplyEvent?)
    decreases j - i
  {
    if i < j {
      EpochsNeverDecrease(queue, i, j - 1);
      assert TaggedAt(queue, j);
    }
  }

  /** Every epoch is opened by exactly one snapshot, which precedes all its events. */
  lemma {:induction false} EpochOpening(queue: seq<Enqueued>, j: nat) returns (i: nat)
    requires Tagged(queue) && j < |queue|
    ensures i <= j && queue[i].op.ApplySnapshot? && queue[i].epoch == queue[j].epoch
    ensures queue[i].writer == queue[j].writer
    ensures forall k :: i < k <= j ==> queue[k].op.ApplyEvent?
    ensures forall k :: 0 <= k < |queue| && k != i && queue[k].op.ApplySnapshot? ==> queue[k].epoch != queue[j].epoch
    decreases j
  {
    assert TaggedAt(queue, j);
    if queue[j].op.ApplySnapshot? {
      i := j;
    } else {
      i := EpochOpening(queue, j - 1);
    }
    forall k | 0 <= k < |queue| && k != i && queue[k].op.ApplySnapshot?
      ensures queue[k].epoch != queue[j].epoch
    {
      if k < i {
        EpochsNeverDecrease(queue, k, i);
      } else {
        EpochsNeverDecrease(queue, i, k);
      }
    }
  }

  /** In every run: writer takeover order, and events only after their own writer's applied snapshot. */
  lemma WriterTakeover(steps: seq<ServerStep>)
    ensures
      var s := RunServer(START, steps);
      && Tagged(s.queue)
      && (forall i, j :: 0 <= i <= j < |s.queue| ==> s.queue[i].epoch <= s.queue[j].epoch)
      && (forall i :: 0 <= i < |s.queue| && s.queue[i].op.ApplyEvent? ==> FollowsSnapshot(s, i))
  {
    InvStart();
    InvRunServer(START, steps);
    var s := RunServer(START, steps);
    forall i, j | 0 <= i <= j < |s.queue|
      ensures s.queue[i].epoch <= s.queue[j].epoch
    {
      EpochsNeverDecrease(s.queue, i, j);
    }
  }

  /******* Isolation of the newest writer, down to the coordinator state *******/

  function Ops(queue: seq<Enqueued>): seq<Operation> {
    seq(|queue|, i requires 0 <= i < |queue| => queue[i].op)
  }

  /** `h` is a coordinator history: the queue's operations in order, with captures anywhere in between. */
  ghost predicate Realises(h: seq<Entry>, queue: seq<Enqueued>) {
    ValidHistory(h) && ClientOps(h) == Ops(queue)
  }

  lemma {:induction false} SplitHistory(h: seq<Entry>, a: seq<Operation>, b: seq<Operation>) returns (n: nat)
    requires ClientOps(h) == a + b
    ensures n <= |h| && ClientOps(h[..n]) == a && ClientOps(h[n..]) == b
    decreases |h|
  {
    if a == [] {
      n := 0;
      assert h[..0] == [] && h[0..] == h && a + b == b;
    } else if h[0].op.BindCapture? {
      n := SplitHistory(h[1..], a, b);
      n := n + 1;
      assert h[..n][0] == h[0] && h[..n][1..] == h[1..][..n - 1] && h[n..] == h[1..][n - 1..];
    } else {
      assert (a + b)[0] == a[0] == h[0].op;
      assert ClientOps(h)[1..] == ClientOps(h[1..]) == a[1..] + b;
      n := SplitHistory(h[1..], a[1..], b);
      n := n + 1;
      assert h[..n][0] == h[0] && h[..n][1..] == h[1..][..n - 1] && h[n..] == h[1..][n - 1..];
      assert a == [a[0]] + a[1..];
    }
  }

  /**
   * Two servers with arbitrary pasts whose newest writers sent the same snapshot and events leave their
   * coordinators with the same sessions, open turns, sequence numbers, event ids, focus and eviction order,
   * whatever captures arrived, as long as the presenter rejected none of those newest operations.
   */
  lemma NewestWriterDecides(
    stepsA: seq<ServerStep>, stepsB: seq<ServerStep>, a: nat, b: nat, hA: seq<Entry>, hB: seq<Entry>, cfg: Config)
    requires
      var qA, qB := RunServer(START, stepsA).queue, RunServer(START, stepsB).queue;
      && a < |qA| && b < |qB| && Ops(qA[a..]) == Ops(qB[b..]) && qA[a].op.ApplySnapshot?
      && Realises(hA, qA) && Realises(hB, qB)
      && ClientsPresentedAfter(hA, a) && ClientsPresentedAfter(hB, b)
    ensures Similar(Run(EMPTY_STATE, hA, cfg), Run(EMPTY_STATE, hB, cfg))
  {
    hide RunServer, Similar, Inv, ValidOperation, Run, ClientsPresentedAfter, ClientOps;
    var qA, qB := RunServer(START, stepsA).queue, RunServer(START, stepsB).queue;
    var m := NewestHalf(qA, a, hA, cfg);
    var n := NewestHalf(qB, b, hB, cfg);
    assert Ops(qA[a..])[0] == qA[a].op;
    LifecycleIgnoresCaptures(Run(EMPTY_STATE, hA[..m], cfg), Run(EMPTY_STATE, hB[..n], cfg), hA[m..], hB[n..], cfg);
  }

  /** The part of a history that belongs to the queue from `a` on. */
  lemma NewestHalf(queue: seq<Enqueued>, a: nat, h: seq<Entry>, cfg: Config) returns (m: nat)
    requires a <= |queue| && Realises(h, queue) && ClientsPresentedAfter(h, a)
    ensures m <= |h| && ClientOps(h[m..]) == Ops(queue[a..]) && ClientsPresented(h[m..])
    ensures ValidHistory(h[m..]) && Inv(Run(EMPTY_STATE, h[..m], cfg), cfg)
    ensures Run(EMPTY_STATE, h, cfg) == Run(Run(EMPTY_STATE, h[..m], cfg), h[m..], cfg)
  {
    hide Inv, ValidOperation;
    assert Ops(queue) == Ops(queue[..a]) + Ops(queue[a..]);
    m := SplitHistory(h, Ops(queue[..a]), Ops(queue[a..]));
    InvInitially(cfg);
    InvRun(EMPTY_STATE, h[..m], cfg);
    PresentedSuffix(h, m, a);
    assert h == h[..m] + h[m..];
    RunAppend(EMPTY_STATE, h[..m], h[m..], cfg);
  }

  /** Client operations from the `skip`-th on are accepted by the presenter. */
  ghost predicate ClientsPresentedAfter(h: seq<Entry>, skip: nat)
    decreases |h|
  {
    if h == [] then true
    else if h[0].op.BindCapture? then ClientsPresentedAfter(h[1..], skip)
    else if skip > 0 then ClientsPresentedAfter(h[1..], skip - 1)
    else h[0].presenterOk && ClientsPresentedAfter(h[1..], 0)
  }

  lemma {:induction false} PresentedSuffix(h: seq<Entry>, n: nat, skip: nat)
    requires n <= |h| && |ClientOps(h[..n])| == skip && ClientsPresentedAfter(h, skip)
    ensures ClientsPresented(h[n..])
    decreases |h|
  {
    if n > 0 {
      assert h[..n][0] == h[0] && h[..n][1..] == h[1..][..n - 1] && h[n..] == h[1..][n - 1..];
      PresentedSuffix(h[1..], n - 1, if h[0].op.BindCapture? then skip else skip - 1);
    } else if h != [] {
      assert h[0..] == h && h[1..][0..] == h[1..] && h[1..][..0] == [];
      PresentedSuffix(h[1..], 0, 0);
      forall i | 0 <= i < |h| && !h[i].op.BindCapture?
        ensures h[i].presenterOk
      {
        if i > 0 {
          assert h[1..][i - 1] == h[i];
        }
      }
    }
  }

  /******* Implementation *******/

  class PipSessionServer {
    var connections: map<ConnectionId, Connection>
    var activeWriter: Option<ConnectionId>
    var writerEpoch: nat
    var closed: bool
    ghost var queue: seq<Enqueued>
    ghost var results: seq<bool>
    var queued: nat
    var settled: seq<bool>

    ghost function State(): ServerState
      reads this
    {
      ServerState(connections, activeWriter, writerEpoch, closed, queue, results)
    }

    ghost predicate Valid()
      reads this
    {
      ServerInv(State()) && queued == |queue| && settled == results
    }

    constructor ()
      ensures Valid() && State() == START
    {
      connections, activeWriter, writerEpoch, closed := map[], None, 0, false;
      queue, results, queued, settled := [], [], 0, [];
      new;
      InvStart();
    }

    method Accept(id: ConnectionId)
      requires Valid()
      modifies this
      ensures Valid() && State() == Next(old(State()), Connect(id))
    {
      InvNext(State(), Connect(id));
      if id !in connections {
        connections := connections[id := Connection(Waiting, false, 0)];
      }
    }

    /** `closeConnection`, and what `writeFailureAndClose` does to the server's state. */
    method Close(id: ConnectionId)
      requires id in connections
      modifies this`connections, this`activeWriter
      ensures State() == CloseConnection(old(State()), id)
    {
      connections := connections[id := connections[id].(closed := true)];
      if activeWriter == Some(id) {
        activeWriter := None;
      }
    }

    method HandleHandshake(id: ConnectionId, frame: Frame)
      requires Valid() && id in connections && connections[id].phase.Waiting? && !connections[id].closed
      modifies this
      ensures State() == if AcceptsHandshake(frame) then TakeOver(old(State()), id, frame.snapshot)
        else CloseConnection(old(State()), id)
      ensures queued == |queue| && settled == results
    {
      if !frame.Handshake? || !frame.authentic || !ValidSnapshot(frame.snapshot) {
        Close(id);
        return;
      }
      writerEpoch := writerEpoch + 1;
      connections := connections[id := connections[id].(epoch := writerEpoch, phase := Restoring(queued))];
      activeWriter := Some(id);
      queue := queue + [Enqueued(writerEpoch, id, ApplySnapshot(frame.snapshot))];
      queued := queued + 1;
    }

    method HandleEvent(id: ConnectionId, event: Option<Event>)
      requires Valid() && id in connections && connections[id].phase.Ready?
      modifies this
      ensures State() == HandleEventFrame(old(State()), id, event)
      ensures queued == |queue| && settled == results
    {
      if activeWriter != Some(id) || connections[id].epoch != writerEpoch {
        Close(id);
        return;
      }
      if event.None? || !ValidEvent(event.value) {
        return;
      }
      queue := queue + [Enqueued(connections[id].epoch, id, ApplyEvent(event.value))];
      connections := connections[id := connections[id].(phase := Applying(queued))];
      queued := queued + 1;
    }

    method OnLine(id: ConnectionId, frame: Frame)
      requires Valid()
      modifies this
      ensures Valid() && State() == Next(old(State()), Line(id, frame))
    {
      InvNext(State(), Line(id, frame));
      hide ServerInv;
      if id !in connections {
        return;
      }
      var c := connections[id];
      if c.closed || closed || c.phase.Restoring? || c.phase.Applying? {
        return;
      }
      if frame.Malformed? {
        Close(id);
        return;
      }
      if c.phase.Waiting? {
        HandleHandshake(id, frame);
        return;
      }
      if frame.Handshake? {
        Close(id);
        return;
      }
      HandleEvent(id, frame.event);
    }

    /** The coordinator finishes the oldest queued client operation. */
    method OnExecuted(ok: bool)
      requires Valid()
      modifies this
      ensures Valid() && State() == Next(old(State()), Execute(ok))
    {
      InvNext(State(), Execute(ok));
      if |settled| < queued {
        results := results + [ok];
        settled := settled + [ok];
      }
    }

    method OnSettled(id: ConnectionId)
      requires Valid()
      modifies this
      ensures Valid() && State() == Next(old(State()), Settle(id))
    {
      InvNext(State(), Settle(id));
      hide ServerInv;
      if id !in connections {
        return;
      }
      var c := connections[id];
      if c.phase.Restoring? && c.phase.at < |settled| {
        if !settled[c.phase.at] || closed || activeWriter != Some(id) || c.epoch != writerEpoch {
          Close(id);
          connections := connections[id := connections[id].(phase := Waiting)];
          return;
        }
        connections := connections[id := c.(phase := Ready)];
      } else if c.phase.Applying? && c.phase.at < |settled| {
        connections := connections[id := c.(phase := Ready)];
      }
    }

    method OnSocketClosed(id: ConnectionId)
      requires Valid()
      modifies this
      ensures Valid() && State() == Next(old(State()), SocketClosed(id))
    {
      InvNext(State(), SocketClosed(id));
      hide ServerInv;
      if id in connections {
        Close(id);
      }
    }

    method Shutdown()
      requires Valid()
      modifies this
      ensures Valid() && State() == Next(old(State()), CloseServer)
    {
      InvNext(State(), CloseServer);
      closed := true;
    }
  }
}
