/**
 * What the PiP session server delivers: the queue of the coordinator is computed from the lines that the
 * connections sent, so nothing is dropped, added or reordered.
 */
module PipDelivery {
  import opened Common
  import opened PipState
  import opened PipServer

  /******* What one step delivers *******/

  /** A connection may speak: neither side is closed, and no line of it is being handled. */
  predicate Listening(s: ServerState, id: ConnectionId) {
    && !s.closed && id in s.connections && !s.connections[id].closed
    && (s.connections[id].phase.Waiting? || s.connections[id].phase.Ready?)
  }

  /** A first line that is an authentic handshake with a well-formed snapshot. */
  predicate Opens(s: ServerState, step: ServerStep) {
    && step.Line? && Listening(s, step.id) && s.connections[step.id].phase.Waiting?
    && step.frame.Handshake? && step.frame.authentic && ValidSnapshot(step.frame.snapshot)
  }

  /** A later line that is a well-formed event of the connection that took over last. */
  predicate Delivers(s: ServerState, step: ServerStep) {
    && step.Line? && Listening(s, step.id) && s.connections[step.id].phase.Ready?
    && s.activeWriter == Some(step.id)
    && step.frame.EventFrame? && step.frame.event.Some? && ValidEvent(step.frame.event.value)
  }

  /**
   * Exactly these two kinds of line reach the coordinator, each with one operation, and the connection then
   * waits for it; nothing else changes the queue.
   */
  lemma StepDelivers(s: ServerState, step: ServerStep)
    requires ServerInv(s)
    ensures
      var t := Next(s, step);
      if Opens(s, step) then
        && t.writerEpoch == s.writerEpoch + 1 && t.activeWriter == Some(step.id)
        && t.queue == s.queue + [Enqueued(t.writerEpoch, step.id, ApplySnapshot(step.frame.snapshot))]
        && t.connections == s.connections[step.id := Connection(Restoring(|s.queue|), false, t.writerEpoch)]
      else if Delivers(s, step) then
        && t.queue == s.queue + [Enqueued(s.writerEpoch, step.id, ApplyEvent(step.frame.event.value))]
        && t.connections == s.connections[step.id := Connection(Applying(|s.queue|), false, s.writerEpoch)]
        && t.writerEpoch == s.writerEpoch && t.activeWriter == s.activeWriter
      else
        t.queue == s.queue && t.writerEpoch == s.writerEpoch
  {
    hide Tagged, EventsFollow;
  }

  /******* What a run delivers *******/

  /** The snapshot with which epoch `epoch` is opened. */
  function Opening(s: ServerState, steps: seq<ServerStep>, epoch: nat): Option<Snapshot>
    decreases |steps|
  {
    if steps == [] then None
    else if Opens(s, steps[0]) && s.writerEpoch + 1 == epoch then Some(steps[0].frame.snapshot)
    else Opening(Next(s, steps[0]), steps[1..], epoch)
  }

  /** The well-formed events that the writer of epoch `epoch` sent while it was ready, in order. */
  function EventsSent(s: ServerState, steps: seq<ServerStep>, epoch: nat): seq<Event>
    decreases |steps|
  {
    if steps == [] then []
    else
      (if Delivers(s, steps[0]) && s.writerEpoch == epoch then [steps[0].frame.event.value] else [])
      + EventsSent(Next(s, steps[0]), steps[1..], epoch)
  }

  function Applied(events: seq<Event>): seq<Operation> {
    seq(|events|, i requires 0 <= i < |events| => ApplyEvent(events[i]))
  }

  /** The operations that were queued for one epoch, in order. */
  function OfEpoch(queue: seq<Enqueued>, epoch: nat): seq<Operation> {
    if queue == [] then []
    else
      OfEpoch(queue[..|queue| - 1], epoch)
      + if queue[|queue| - 1].epoch == epoch then [queue[|queue| - 1].op] else []
  }

  /** What the steps from `s` on queue for one epoch. */
  function Traffic(s: ServerState, steps: seq<ServerStep>, epoch: nat): seq<Operation> {
    (match Opening(s, steps, epoch) case Some(snapshot) => [ApplySnapshot(snapshot)] case None => [])
    + Applied(EventsSent(s, steps, epoch))
  }

  lemma OfEpochMore(queue: seq<Enqueued>, e: Enqueued, epoch: nat)
    ensures OfEpoch(queue + [e], epoch) == OfEpoch(queue, epoch) + if e.epoch == epoch then [e.op] else []
  {
    assert (queue + [e])[..|queue|] == queue;
  }

  lemma AppliedMore(event: Event, events: seq<Event>)
    ensures Applied([event] + events) == [ApplyEvent(event)] + Applied(events)
  {
  }

  lemma {:induction false} NoOpening(s: ServerState, steps: seq<ServerStep>, epoch: nat)
    requires ServerInv(s) && epoch <= s.writerEpoch
    ensures Opening(s, steps, epoch) == None
    decreases |steps|
  {
    hide ServerInv, Next, Opens, Delivers;
    if steps != [] {
      StepDelivers(s, steps[0]);
      InvNext(s, steps[0]);
      NoOpening(Next(s, steps[0]), steps[1..], epoch);
    }
  }

  /** Nothing is queued for an epoch but the snapshot that opens it and then the events of its writer. */
  lemma {:induction false} TrafficFrom(s: ServerState, steps: seq<ServerStep>, epoch: nat)
    requires ServerInv(s)
    ensures OfEpoch(RunServer(s, steps).queue, epoch) == OfEpoch(s.queue, epoch) + Traffic(s, steps, epoch)
    decreases |steps|
  {
    hide ServerInv, Next, Opens, Delivers, OfEpoch, Applied;
    if steps == [] {
      AppliedNothing();
    } else {
      var t := Next(s, steps[0]);
      InvNext(s, steps[0]);
      TrafficFrom(t, steps[1..], epoch);
      TrafficStep(s, steps, epoch);
    }
  }

  lemma AppliedNothing()
    ensures Applied([]) == []
  {
  }

  lemma TrafficStep(s: ServerState, steps: seq<ServerStep>, epoch: nat)
    requires ServerInv(s) && steps != []
    ensures
      var t := Next(s, steps[0]);
      OfEpoch(s.queue, epoch) + Traffic(s, steps, epoch) == OfEpoch(t.queue, epoch) + Traffic(t, steps[1..], epoch)
  {
    hide ServerInv, Next, OfEpoch, Applied, ValidEvent, ValidSnapshot, Listening;
    var t := Next(s, steps[0]);
    StepDelivers(s, steps[0]);
    var later := EventsSent(t, steps[1..], epoch);
    assert [] + later == later;
    if Opens(s, steps[0]) {
      OfEpochMore(s.queue, t.queue[|s.queue|], epoch);
      OpensOrDelivers(s, steps[0]);
      InvNext(s, steps[0]);
      if epoch == t.writerEpoch {
        NoOpening(t, steps[1..], epoch);
      }
    } else if Delivers(s, steps[0]) {
      OfEpochMore(s.queue, t.queue[|s.queue|], epoch);
      if epoch == s.writerEpoch {
        InvNext(s, steps[0]);
        NoOpening(t, steps[1..], epoch);
        AppliedMore(steps[0].frame.event.value, later);
      }
    }
  }

  lemma OpensOrDelivers(s: ServerState, step: ServerStep)
    ensures !(Opens(s, step) && Delivers(s, step))
  {
  }

  /**
   * In every run, for every epoch: what the coordinator is handed is the snapshot of its handshake, followed
   * by exactly the events that its writer sent while it was ready.
   */
  lemma EpochIsTraffic(steps: seq<ServerStep>, epoch: nat)
    ensures OfEpoch(RunServer(START, steps).queue, epoch) == Traffic(START, steps, epoch)
  {
    InvStart();
    TrafficFrom(START, steps, epoch);
    hide RunServer, Traffic;
    assert OfEpoch(START.queue, epoch) == [];
  }

  /******* A writer that is left alone is served completely *******/

  function Executes(n: nat): seq<ServerStep> {
    seq(n, i requires 0 <= i < n => Execute(true))
  }

  /** One event, its operation, and the answer to it. */
  function EventSteps(id: ConnectionId, events: seq<Event>): seq<ServerStep> {
    if events == [] then []
    else [Line(id, EventFrame(Some(events[0]))), Execute(true), Settle(id)] + EventSteps(id, events[1..])
  }

  /** Handshake, everything still queued, the answer, and the events. */
  function SessionSteps(s: ServerState, id: ConnectionId, snapshot: Snapshot, events: seq<Event>): seq<ServerStep> {
    [Line(id, Handshake(true, snapshot))] + (Executes(Unexecuted(s) + 1) + ([Settle(id)] + EventSteps(id, events)))
  }

  function Unexecuted(s: ServerState): nat {
    if |s.results| <= |s.queue| then |s.queue| - |s.results| else 0
  }

  ghost predicate ReadyWriter(s: ServerState, id: ConnectionId) {
    && ServerInv(s) && !s.closed && |s.results| == |s.queue|
    && s.activeWriter == Some(id) && id in s.connections && s.connections[id].phase.Ready?
  }

  function Queued(epoch: nat, id: ConnectionId, events: seq<Event>): seq<Enqueued> {
    seq(|events|, i requires 0 <= i < |events| => Enqueued(epoch, id, ApplyEvent(events[i])))
  }

  lemma {:induction false} RunMore(s: ServerState, a: seq<ServerStep>, b: seq<ServerStep>)
    ensures RunServer(s, a + b) == RunServer(RunServer(s, a), b)
    decreases |a|
  {
    hide Next;
    if a == [] {
      assert a + b == b;
    } else {
      assert (a + b)[1..] == a[1..] + b;
      RunMore(Next(s, a[0]), a[1..], b);
    }
  }

  lemma {:induction false} RunExecutes(s: ServerState, n: nat)
    requires |s.results| + n <= |s.queue|
    ensures
      var t := RunServer(s, Executes(n));
      && t == s.(results := t.results) && |t.results| == |s.results| + n && s.results <= t.results
      && forall i :: |s.results| <= i < |t.results| ==> t.results[i]
    decreases n
  {
    if n > 0 {
      assert Executes(n)[1..] == Executes(n - 1);
      RunExecutes(Next(s, Execute(true)), n - 1);
    }
  }

  lemma ServesEvent(s: ServerState, id: ConnectionId, event: Event)
    requires ReadyWriter(s, id) && ValidEvent(event)
    ensures
      var t := Next(Next(Next(s, Line(id, EventFrame(Some(event)))), Execute(true)), Settle(id));
      && ReadyWriter(t, id) && t.writerEpoch == s.writerEpoch
      && t.queue == s.queue + [Enqueued(s.writerEpoch, id, ApplyEvent(event))]
  {
    var a := Next(s, Line(id, EventFrame(Some(event))));
    var b := Next(a, Execute(true));
    InvNext(s, Line(id, EventFrame(Some(event))));
    InvNext(a, Execute(true));
    InvNext(b, Settle(id));
    WriterIsOpen(s, id);
    hide ServerInv;
  }

  lemma WriterIsOpen(s: ServerState, id: ConnectionId)
    requires ServerInv(s) && s.activeWriter == Some(id)
    ensures id in s.connections && !s.connections[id].closed && s.connections[id].epoch == s.writerEpoch
  {
  }

  lemma {:induction false} ServesEvents(s: ServerState, id: ConnectionId, events: seq<Event>)
    requires ReadyWriter(s, id) && forall i :: 0 <= i < |events| ==> ValidEvent(events[i])
    ensures
      var t := RunServer(s, EventSteps(id, events));
      ReadyWriter(t, id) && t.queue == s.queue + Queued(s.writerEpoch, id, events)
    decreases |events|
  {
    hide Next, ReadyWriter;
    if events != [] {
      ServesEvent(s, id, events[0]);
      var first := [Line(id, EventFrame(Some(events[0]))), Execute(true), Settle(id)];
      var t := Next(Next(Next(s, first[0]), first[1]), first[2]);
      ThreeSteps(s, first[0], first[1], first[2]);
      RunMore(s, first, EventSteps(id, events[1..]));
      ServesEvents(t, id, events[1..]);
      assert Queued(s.writerEpoch, id, events)
        == [Enqueued(s.writerEpoch, id, ApplyEvent(events[0]))] + Queued(s.writerEpoch, id, events[1..]);
    }
  }

  lemma ThreeSteps(s: ServerState, a: ServerStep, b: ServerStep, c: ServerStep)
    ensures RunServer(s, [a, b, c]) == Next(Next(Next(s, a), b), c)
  {
    hide Next;
    assert [c][1..] == [] && RunServer(Next(Next(s, a), b), [c]) == Next(Next(Next(s, a), b), c);
    assert [b, c][1..] == [c] && [a, b, c][1..] == [b, c];
  }

  /** What a handshake, its execution and its answer leave behind. */
  lemma ServesHandshake(s: ServerState, id: ConnectionId, snapshot: Snapshot)
    requires ServerInv(s) && !s.closed && ValidSnapshot(snapshot)
    requires id in s.connections && !s.connections[id].closed && s.connections[id].phase.Waiting?
    ensures
      var a := Next(s, Line(id, Handshake(true, snapshot)));
      var b := RunServer(a, Executes(Unexecuted(s) + 1));
      var t := Next(b, Settle(id));
      && ReadyWriter(t, id) && t.writerEpoch == s.writerEpoch + 1
      && t.queue == s.queue + [Enqueued(s.writerEpoch + 1, id, ApplySnapshot(snapshot))]
  {
    var line := Line(id, Handshake(true, snapshot));
    var n := Unexecuted(s) + 1;
    var a := Next(s, line);
    InvNext(s, line);
    StepDelivers(s, line);
    RunExecutes(a, n);
    InvRunServer(a, Executes(n));
    var b := RunServer(a, Executes(n));
    InvNext(b, Settle(id));
    assert b.results[|s.queue|];
    hide ServerInv, RunServer;
  }

  /**
   * From every reachable state of an open server: a connection that shakes hands and is left alone becomes
   * the ready writer, and its snapshot and all its events are handed to the coordinator, in order.
   */
  lemma WriterIsServed(past: seq<ServerStep>, id: ConnectionId, snapshot: Snapshot, events: seq<Event>)
    requires var s := RunServer(START, past);
      && !s.closed && id in s.connections && !s.connections[id].closed && s.connections[id].phase.Waiting?
    requires ValidSnapshot(snapshot) && forall i :: 0 <= i < |events| ==> ValidEvent(events[i])
    ensures
      var s := RunServer(START, past);
      var t := RunServer(s, SessionSteps(s, id, snapshot, events));
      && ReadyWriter(t, id)
      && t.queue == s.queue + [Enqueued(s.writerEpoch + 1, id, ApplySnapshot(snapshot))]
                  + Queued(s.writerEpoch + 1, id, events)
  {
    InvStart();
    InvRunServer(START, past);
    var s := RunServer(START, past);
    ServesHandshake(s, id, snapshot);
    hide Next, ReadyWriter, ServerInv;
    var line, settle := [Line(id, Handshake(true, snapshot))], [Settle(id)];
    var executes, rest := Executes(Unexecuted(s) + 1), EventSteps(id, events);
    var a := Next(s, line[0]);
    var b := RunServer(a, executes);
    var c := Next(b, settle[0]);
    RunMore(s, line, executes + (settle + rest));
    RunMore(a, executes, settle + rest);
    RunMore(b, settle, rest);
    OneStep(s, line[0]);
    OneStep(b, settle[0]);
    ServesEvents(c, id, events);
  }

  lemma OneStep(s: ServerState, step: ServerStep)
    ensures RunServer(s, [step]) == Next(s, step)
  {
    hide Next;
    assert [step][1..] == [];
  }

  /******* Closing *******/

  /** A line for which a connection is closed: no JSON, no proper handshake, a second one, or an event of no writer. */
  predicate Offends(s: ServerState, step: ServerStep, id: ConnectionId) {
    && step.Line? && step.id == id && Listening(s, id)
    && match step.frame
       case Malformed => true
       case Handshake(authentic, snapshot) => s.connections[id].phase.Ready? || !authentic || !ValidSnapshot(snapshot)
       case EventFrame(_) => s.connections[id].phase.Waiting? || s.activeWriter != Some(id)
  }

  /** A handshake whose snapshot failed, or that was overtaken or cut off before it was answered. */
  predicate Fails(s: ServerState, step: ServerStep, id: ConnectionId) {
    && step == Settle(id) && id in s.connections && s.connections[id].phase.Restoring?
    && s.connections[id].phase.at < |s.results|
    && (!s.results[s.connections[id].phase.at] || s.closed || s.activeWriter != Some(id))
  }

  /** Exactly what opens and closes a connection, and when the writer is given up. */
  lemma ClosesExactly(s: ServerState, step: ServerStep, id: ConnectionId)
    requires ServerInv(s)
    ensures
      var t := Next(s, step);
      && (id in t.connections <==> id in s.connections || step == Connect(id))
      && (id in t.connections && id !in s.connections ==> t.connections[id] == Connection(Waiting, false, 0))
      && (id in s.connections ==>
            (t.connections[id].closed <==>
               s.connections[id].closed || step == SocketClosed(id) || Offends(s, step, id) || Fails(s, step, id)))
      && (id in s.connections && s.activeWriter == Some(id) ==>
            (t.activeWriter == Some(id) <==>
               !t.connections[id].closed && !(Opens(s, step) && step.id != id)))
      && (t.closed <==> s.closed || step.CloseServer?)
  {
    hide Tagged, EventsFollow, ConnectionOk, ValidEvent, ValidSnapshot;
  }

  ghost predicate Shut(s: ServerState, id: ConnectionId) {
    s.closed || (id in s.connections && s.connections[id].closed)
  }

  lemma ShutStep(s: ServerState, step: ServerStep, id: ConnectionId)
    requires ServerInv(s) && Shut(s, id)
    ensures Shut(Next(s, step), id) && s.queue <= Next(s, step).queue
    ensures forall i :: |s.queue| <= i < |Next(s, step).queue| ==> Next(s, step).queue[i].writer != id
  {
    ClosesExactly(s, step, id);
    StepDelivers(s, step);
    hide ServerInv, Next;
  }

  /**
   * What is closed stays closed: nothing of this connection is queued any more, and nothing at all by a closed
   * server.
   */
  lemma {:induction false} ShutIsFinal(s: ServerState, steps: seq<ServerStep>, id: ConnectionId)
    requires ServerInv(s) && Shut(s, id)
    ensures
      var t := RunServer(s, steps);
      && Shut(t, id) && s.queue <= t.queue
      && forall i :: |s.queue| <= i < |t.queue| ==> t.queue[i].writer != id
    decreases |steps|
  {
    hide ServerInv, Next, Shut;
    if steps != [] {
      ShutStep(s, steps[0], id);
      InvNext(s, steps[0]);
      ShutIsFinal(Next(s, steps[0]), steps[1..], id);
    }
  }
}
