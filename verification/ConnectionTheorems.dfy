/** The guarantees a connection gives on every run. */
module ConnectionTheorems {
  import opened RpcCore
  import opened Connection
  import opened Lifetime
  import opened LifetimeProofs
  import opened Sending
  import opened Histories
  import opened Protocol
  import opened ProtocolProofs
  import opened OneFinish

  /** Everything that every admissible step keeps. */
  predicate FullInv(c: Conn) {
    Inv(c) && SendInv(c.rpc) && StallInv(c) && Ledger(c.rpc) && CallbackInv(c)
  }

  lemma ListenerSendInv(kind: Kind, stopping: bool, down: bool, held: bool)
    ensures SendInv(Listener(kind, stopping, down, held).rpc) && StallInv(Listener(kind, stopping, down, held))
  {
    assert Items(Listener(kind, stopping, down, held).rpc.calls) == [];
  }

  lemma ListenerLedger(kind: Kind, stopping: bool, down: bool, held: bool)
    ensures Ledger(Listener(kind, stopping, down, held).rpc)
  {
    var r := Listener(kind, stopping, down, held).rpc;
    assert Events(r.handled) == [] && CallEvents(r.calls) == [];
  }

  lemma ListenerCallbacks(kind: Kind, stopping: bool, down: bool, held: bool)
    ensures CallbackInv(Listener(kind, stopping, down, held))
  {
    var c := Listener(kind, stopping, down, held);
    assert Events(c.rpc.handled) == [] && OnRequests(c.rpc.received) == [];
    assert !Owed(c) && !Over(c);
  }

  lemma ListenerFullInv(kind: Kind, stopping: bool, down: bool, held: bool)
    requires down ==> stopping
    ensures FullInv(Listener(kind, stopping, down, held))
  {
    ListenerInv(kind, stopping, down, held);
    ListenerSendInv(kind, stopping, down, held);
    ListenerLedger(kind, stopping, down, held);
    ListenerCallbacks(kind, stopping, down, held);
  }

  lemma FullStep(c: Conn, s: Step)
    requires FullInv(c) && Enabled(c, s) && Admissible(c, s)
    ensures FullInv(Next(c, s))
  {
    StepKeeps(c, s);
    SendKeeps(c, s);
    StallKeeps(c, s);
    LedgerKeeps(c, s);
    CallbackKeeps(c, s);
  }

  lemma {:induction false} FullRun(c: Conn, steps: seq<Step>)
    requires FullInv(c) && AdmissibleRun(c, steps)
    ensures IsRun(c, steps) && FullInv(Run(c, steps))
    decreases |steps|
  {
    if steps != [] {
      FullStep(c, steps[0]);
      FullRun(Next(c, steps[0]), steps[1..]);
    }
  }

  /** `c` is reached from a fresh listener by admissible steps. */
  ghost predicate Reachable(c: Conn) {
    exists kind, stopping: bool, down: bool, held: bool, steps :: ReachedBy(c, kind, stopping, down, held, steps)
  }

  predicate ReachedBy(c: Conn, kind: Kind, stopping: bool, down: bool, held: bool, steps: seq<Step>) {
    var start := Listener(kind, stopping, down, held);
    (down ==> stopping) && AdmissibleRun(start, steps) && IsRun(start, steps) && Run(start, steps) == c
  }

  lemma ReachableFullInv(c: Conn)
    requires Reachable(c)
    ensures FullInv(c)
  {
    var kind, stopping: bool, down: bool, held: bool, steps :| ReachedBy(c, kind, stopping, down, held, steps);
    ListenerFullInv(kind, stopping, down, held);
    FullRun(Listener(kind, stopping, down, held), steps);
  }

  lemma ListenerReachable(kind: Kind, stopping: bool, down: bool, held: bool)
    requires down ==> stopping
    ensures Reachable(Listener(kind, stopping, down, held))
  {
    assert ReachedBy(Listener(kind, stopping, down, held), kind, stopping, down, held, []);
  }

  lemma ReachableStep(c: Conn, s: Step)
    requires Reachable(c) && Enabled(c, s) && Admissible(c, s)
    ensures Reachable(Next(c, s))
  {
    var kind, stopping: bool, down: bool, held: bool, steps :| ReachedBy(c, kind, stopping, down, held, steps);
    AdmissibleSnoc(Listener(kind, stopping, down, held), steps, s);
    assert ReachedBy(Next(c, s), kind, stopping, down, held, steps + [s]);
  }

  lemma {:induction false} AdmissibleSnoc(c: Conn, steps: seq<Step>, s: Step)
    requires AdmissibleRun(c, steps) && IsRun(c, steps)
    requires Enabled(Run(c, steps), s) && Admissible(Run(c, steps), s)
    ensures AdmissibleRun(c, steps + [s]) && IsRun(c, steps + [s])
    ensures Run(c, steps + [s]) == Next(Run(c, steps), s)
    decreases |steps|
  {
    RunSnoc(c, steps, s);
    if steps == [] {
      assert steps + [s] == [s] && [s][1..] == [];
    } else {
      AdmissibleSnoc(Next(c, steps[0]), steps[1..], s);
      assert (steps + [s])[0] == steps[0] && (steps + [s])[1..] == steps[1..] + [s];
    }
  }

  /** Lifetime safety and abort freedom: while any tag of the Rpc is held by
      gRPC or waits in a queue, or a thread works for it, it is in
      active_rpcs_; and no undefined behaviour, failed check or missing
      handler was met on the way. The "unknown reason" branch is never entered. */
  lemma LifetimeSafety(c: Conn)
    requires Reachable(c)
    ensures c.rpc.faults == {}
    ensures forall e :: e != WriteNeeded && InFlight(c, e) > 0 ==> c.active
    ensures c.prog != Halt || c.writers != map[] ==> c.active
    ensures c.prog != ProgramFor(c.rpc.kind, NewConnection, false, false)
  {
    ReachableFullInv(c);
    TagsKeepActive(c);
    FailureUnreachable(c);
  }

  lemma TagsKeepActive(c: Conn)
    requires Inv(c)
    ensures forall e :: e != WriteNeeded && InFlight(c, e) > 0 ==> c.active
  {
    if !c.active {
      assert Events(c.cq) == [];
      forall e | e != WriteNeeded ensures InFlight(c, e) == 0 {
        assert e !in multiset(c.queue);
      }
    }
  }

  lemma FailureUnreachable(c: Conn)
    requires Inv(c)
    ensures c.prog != ProgramFor(c.rpc.kind, NewConnection, false, false)
  {}

  /** The pending flag of an active Rpc is set exactly when one tag of that
      event is in flight, and it is clear exactly when none is. */
  lemma FlagsMirrorTags(c: Conn, e: Event)
    requires Reachable(c) && c.active && e in {NewConnection, Read, Write, Finish}
    ensures e in c.rpc.pending <==> InFlight(c, e) == 1
    ensures e !in c.rpc.pending <==> InFlight(c, e) == 0
  {
    ReachableFullInv(c);
    TrackedEvent(c, e);
  }

  /** The connection and its end are handled at most once each; the flag is
      set exactly until then. */
  lemma HandledOnce(c: Conn, e: Event)
    requires Reachable(c) && e in {NewConnection, Done}
    ensures Handled(c.rpc, e) == (if e in c.rpc.pending then 0 else 1)
  {
    ReachableFullInv(c);
  }

  /** No leak: between events, some tag is on its way for every active Rpc. */
  lemma NoLeak(c: Conn) returns (e: Event)
    requires Reachable(c) && c.active && c.prog == Halt
    ensures e != WriteNeeded && e in c.rpc.pending && InFlight(c, e) == 1
  {
    ReachableFullInv(c);
    e := PendingTag(c);
  }

  lemma PendingTag(c: Conn) returns (e: Event)
    requires Inv(c) && c.active && c.prog == Halt
    ensures e != WriteNeeded && e in c.rpc.pending && InFlight(c, e) == 1
  {
    if Listening(c) {
      e := NewConnection;
    } else {
      e :| e in c.rpc.pending;
    }
    TrackedEvent(c, e);
  }

  /** After removal no step touches the Rpc: stale WRITE_NEEDED events are
      ignored, Writer calls find nothing to lock, and nothing else happens. */
  lemma RetiredIsInert(c: Conn, s: Step)
    requires Reachable(c) && !c.active && Enabled(c, s)
    ensures Next(c, s).rpc == c.rpc && !Next(c, s).active && Next(c, s).writers == map[]
    ensures s.Begin? || s.WriterLock? || s.Drop? || s.StopServing? || s.GrpcShutdown?
    ensures s.Begin? ==> c.queue[0] == WriteNeeded
  {
    ReachableFullInv(c);
  }

  /** The shared_ptr that handling a WRITE_NEEDED holds never outlives the
      removal of the Rpc: while it is held operations are outstanding, so
      RemoveIfNotPending keeps the Rpc. */
  lemma WriteNeededNeverRemoves(c: Conn)
    requires Reachable(c) && c.pinned
    ensures c.active && IsAnyEventPending(c.rpc) && !Removing(c)
  {
    ReachableFullInv(c);
    PinnedIsPending(c);
  }

  /** Completions reach the handler programs in the order and with the
      outcomes gRPC reported. */
  lemma HandledInOrder(c: Conn)
    requires Reachable(c)
    ensures c.rpc.handled <= c.rpc.posted
  {
    ReachableFullInv(c);
  }

  /** Over the whole life of an Rpc, gRPC was handed what the handler and the
      Writers sent, in the order in which they sent it, but for what is still queued. */
  lemma ListenerSends(kind: Kind, stopping: bool, down: bool, held: bool, steps: seq<Step>)
    requires IsRun(Listener(kind, stopping, down, held), steps)
    ensures var c := Listener(kind, stopping, down, held);
      var r := Run(c, steps).rpc;
      Items(r.calls) + r.sendQueue == SentItems(c, steps) && !(Write in r.pending && Finish in r.pending)
  {
    ListenerSendInv(kind, stopping, down, held);
    SendOrder(Listener(kind, stopping, down, held), steps);
  }

  /** The messages `ms`, all of them but at most the last, or all and the end. */
  predicate Heard(callbacks: seq<Callback>, ms: seq<Message>) {
    || ReadSide(callbacks) == OnRequests(ms)
    || (ms != [] && ReadSide(callbacks) == OnRequests(ms[..|ms| - 1]))
    || ReadSide(callbacks) == OnRequests(ms) + [OnReadsDone]
  }

  predicate ReceivedInOrder(r: Rpc, reported: seq<Completion>, stored: seq<Message>) {
    r.handled <= reported && Heard(r.callbacks, stored)
  }

  lemma SawAll(c: Conn, kind: Kind, steps: seq<Step>, r: Rpc, reported: seq<Completion>, stored: seq<Message>)
    requires IsRun(c, steps) && c.rpc.kind == kind && c.rpc.posted == [] && c.rpc.received == []
    requires r == Run(c, steps).rpc && reported == Reported(steps) && stored == Delivered(kind, steps)
    ensures r.posted == reported && r.received == stored
  {
    DeliveriesAreRecorded(c, steps);
  }

  lemma HeardInOrder(c: Conn, steps: seq<Step>)
    requires FullInv(c) && AdmissibleRun(c, steps)
    ensures IsRun(c, steps)
    ensures var r := Run(c, steps).rpc; r.handled <= r.posted && Heard(r.callbacks, r.received)
  {
    FullRun(c, steps);
    ShapeIsHeard(Run(c, steps).rpc);
  }

  lemma ShapeIsHeard(r: Rpc)
    ensures AnyShape(r) ==> Heard(r.callbacks, r.received)
  {
    assert OnRequests(r.received) + [] == OnRequests(r.received);
    if r.received != [] {
      var most := r.received[..|r.received| - 1];
      assert OnRequests(most) + [] == OnRequests(most);
    }
  }

  lemma ListenerIsNew(kind: Kind, stopping: bool, down: bool, held: bool)
    ensures var r := Listener(kind, stopping, down, held).rpc; r.kind == kind && r.posted == [] && r.received == []
  {}

  lemma ReceivesInOrder(c: Conn, kind: Kind, steps: seq<Step>)
    requires FullInv(c) && AdmissibleRun(c, steps) && c.rpc.kind == kind && c.rpc.posted == [] && c.rpc.received == []
    ensures IsRun(c, steps)
    ensures ReceivedInOrder(Run(c, steps).rpc, Reported(steps), Delivered(kind, steps))
  {
    HeardInOrder(c, steps);
    SawAll(c, kind, steps, Run(c, steps).rpc, Reported(steps), Delivered(kind, steps));
  }

  /** Completions reach the handler programs in the order and with the outcomes
      gRPC reported; messages reach the handler in the order gRPC stored them, all
      of them but at most the last, and then at most the end of the stream. */
  lemma ListenerReceives(kind: Kind, stopping: bool, down: bool, held: bool, steps: seq<Step>)
    requires (down ==> stopping) && AdmissibleRun(Listener(kind, stopping, down, held), steps)
    ensures IsRun(Listener(kind, stopping, down, held), steps)
    ensures ReceivedInOrder(Run(Listener(kind, stopping, down, held), steps).rpc, Reported(steps), Delivered(kind, steps))
  {
    ListenerFullInv(kind, stopping, down, held);
    ListenerIsNew(kind, stopping, down, held);
    ReceivesInOrder(Listener(kind, stopping, down, held), kind, steps);
  }

  /** The server reads on until the stream of requests is over: between events a
      served Rpc has a read outstanding exactly until its handler was told of the
      end, and the handler was told of every Finish that is done. */
  lemma ReadsOn(c: Conn)
    requires Reachable(c) && c.active && c.prog == Halt && c.rpc.handler
    ensures Read in c.rpc.pending <==> OnReadsDone !in c.rpc.callbacks
    ensures multiset(c.rpc.callbacks)[OnFinish] == Handled(c.rpc, Finish)
  {
    ReachableFullInv(c);
    EndIsTold(c.rpc, Owed(c), Over(c));
  }

  lemma EndIsTold(r: Rpc, owed: bool, over: bool)
    requires Shape(r, owed, over)
    ensures over <==> OnReadsDone in r.callbacks
  {
    ReadSideIn(r.callbacks, OnReadsDone);
    var heard := if owed then r.received[..|r.received| - 1] else r.received;
    var shape := OnRequests(heard) + (if over then [OnReadsDone] else []);
    if over { assert shape[|heard|] == OnReadsDone; }
  }

  lemma {:induction false} ReadSideIn(s: seq<Callback>, x: Callback)
    requires x != OnFinish
    ensures x in ReadSide(s) <==> x in s
    decreases |s|
  {
    if s != [] { ReadSideIn(s[1..], x); }
  }

  /** The send queue of an active Rpc never stalls before its Finish. */
  lemma NoStall(c: Conn)
    requires Reachable(c) && c.active && c.rpc.sendQueue != [] && !Finished(c.rpc.calls)
    ensures Attended(c)
  {
    ReachableFullInv(c);
  }

  /** The handler exists before it is called. It sees the received messages
      in order, then OnReadsDone at most once and no message after it; for
      unary requests OnRequest and OnReadsDone come first of all. It sees
      OnFinish at most once per Finish call. */
  lemma CallbackProtocol(c: Conn)
    requires Reachable(c)
    ensures c.rpc.callbacks != [] ==> c.rpc.handler
    ensures AnyShape(c.rpc)
    ensures multiset(c.rpc.callbacks)[OnFinish] <= multiset(CallEvents(c.rpc.calls))[Finish]
  {
    ReachableFullInv(c);
  }

  // ---------------------------------------------------------------------
  // One Finish

  predicate TimelyRun(c: Conn, steps: seq<Step>)
    decreases |steps|
  {
    steps == [] ||
    (Enabled(c, steps[0]) && Timely(c, steps[0]) && TimelyRun(Next(c, steps[0]), steps[1..]))
  }

  lemma {:induction false} TimelyRunKeeps(c: Conn, steps: seq<Step>)
    requires FullInv(c) && TimelyInv(c) && AdmissibleRun(c, steps) && TimelyRun(c, steps)
    ensures IsRun(c, steps) && TimelyInv(Run(c, steps)) && FullInv(Run(c, steps))
    decreases |steps|
  {
    if steps != [] {
      FullStep(c, steps[0]);
      TimelyKeeps(c, steps[0]);
      TimelyRunKeeps(Next(c, steps[0]), steps[1..]);
    }
  }

  lemma ListenerTimely(kind: Kind, stopping: bool, down: bool, held: bool)
    ensures TimelyInv(Listener(kind, stopping, down, held)) && DisciplineInv(Listener(kind, stopping, down, held))
  {
    assert Events(Listener(kind, stopping, down, held).rpc.handled) == [];
  }

  /** For all kinds and any senders: if every WRITE_NEEDED is pushed before the
      completion of a Finish reaches the event queue, the calls are Writes
      followed by at most one Finish; a unary response leads to at most one call. */
  lemma TimelySendsFinishOnce(kind: Kind, stopping: bool, down: bool, held: bool, steps: seq<Step>)
    requires (down ==> stopping)
    requires var c := Listener(kind, stopping, down, held); AdmissibleRun(c, steps) && TimelyRun(c, steps)
    ensures IsRun(Listener(kind, stopping, down, held), steps)
    ensures var calls := Run(Listener(kind, stopping, down, held), steps).rpc.calls;
      FinishLast(calls) && (!kind.StreamsResponses() ==> |calls| <= 1)
  {
    var c := Listener(kind, stopping, down, held);
    ListenerFullInv(kind, stopping, down, held);
    ListenerTimely(kind, stopping, down, held);
    TimelyRunKeeps(c, steps);
    KindStays(c, steps);
    UnaryCalls(Run(c, steps).rpc);
  }

  predicate DisciplinedRun(c: Conn, steps: seq<Step>)
    decreases |steps|
  {
    steps == [] ||
    (Enabled(c, steps[0]) && Disciplined(c, steps[0]) && DisciplinedRun(Next(c, steps[0]), steps[1..]))
  }

  lemma {:induction false} DisciplinedRunIsTimely(c: Conn, steps: seq<Step>)
    requires FullInv(c) && DisciplineInv(c) && AdmissibleRun(c, steps) && DisciplinedRun(c, steps)
    ensures TimelyRun(c, steps)
    decreases |steps|
  {
    if steps != [] {
      FullStep(c, steps[0]);
      DisciplinedIsTimely(c, steps[0]);
      DisciplineKeeps(c, steps[0]);
      DisciplinedRunIsTimely(Next(c, steps[0]), steps[1..]);
    }
  }

  /** In particular if all sends come from the handler before OnConnection
      returns, whatever mix of Send and Finish calls it makes. */
  lemma OneFinishOnly(kind: Kind, stopping: bool, down: bool, held: bool, steps: seq<Step>)
    requires (down ==> stopping)
    requires var c := Listener(kind, stopping, down, held); AdmissibleRun(c, steps) && DisciplinedRun(c, steps)
    ensures IsRun(Listener(kind, stopping, down, held), steps)
    ensures var calls := Run(Listener(kind, stopping, down, held), steps).rpc.calls;
      FinishLast(calls) && (!kind.StreamsResponses() ==> |calls| <= 1)
  {
    ListenerFullInv(kind, stopping, down, held);
    ListenerTimely(kind, stopping, down, held);
    DisciplinedRunIsTimely(Listener(kind, stopping, down, held), steps);
    TimelySendsFinishOnce(kind, stopping, down, held, steps);
  }

  lemma UnaryCalls(r: Rpc)
    requires SendInv(r) && FinishLast(r.calls)
    ensures !r.kind.StreamsResponses() ==> |r.calls| <= 1
  {
    assert |r.calls| > 1 ==> RightCall(r.kind, r.calls[0]) && r.calls[0].WriteCall?;
  }

  lemma StepKind(c: Conn, s: Step)
    requires Enabled(c, s)
    ensures Next(c, s).rpc.kind == c.rpc.kind
  {
    if !Sends(c, s) { SendFrame(c, s); } else { SendNextEffect(c.rpc); }
  }

  lemma {:induction false} KindStays(c: Conn, steps: seq<Step>)
    requires IsRun(c, steps)
    ensures Run(c, steps).rpc.kind == c.rpc.kind
    decreases |steps|
  {
    if steps != [] {
      StepKind(c, steps[0]);
      KindStays(Next(c, steps[0]), steps[1..]);
    }
  }
}
