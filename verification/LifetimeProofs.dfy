/** Every step of a connection keeps the lifetime invariant, provided removals
    are admissible. */
module LifetimeProofs {
  import opened RpcCore
  import opened Connection
  import opened Lifetime

  lemma EventsAppend(cq: seq<Completion>, x: Completion)
    ensures Events(cq + [x]) == Events(cq) + [x.event]
  {}

  lemma EventsTail(cq: seq<Completion>)
    requires cq != []
    ensures Events(cq) == [cq[0].event] + Events(cq[1..])
  {}

  lemma MultisetTail(q: seq<Event>)
    requires q != []
    ensures multiset(q) == multiset{q[0]} + multiset(q[1..])
  {
    assert q == [q[0]] + q[1..];
  }

  lemma {:induction false} ResultsAppend(q: seq<Event>, e: Event, oks: set<Event>)
    ensures Results(q + [e], oks) == Results(q, oks) + (if e == WriteNeeded then [] else [Completion(e, e in oks)])
    decreases |q|
  {
    if q != [] {
      ResultsAppend(q[1..], e, oks);
      assert (q + [e])[1..] == q[1..] + [e];
    }
  }

  lemma {:induction false} ResultsFrame(q: seq<Event>, oks: set<Event>, oks': set<Event>)
    requires forall e :: e in q ==> (e in oks <==> e in oks')
    ensures Results(q, oks) == Results(q, oks')
    decreases |q|
  {
    if q != [] { ResultsFrame(q[1..], oks, oks'); }
  }

  /** Without WRITE_NEEDED entries the results mirror the queue. */
  lemma {:induction false} ResultsPlain(q: seq<Event>, oks: set<Event>)
    requires WriteNeeded !in q
    ensures |Results(q, oks)| == |q|
    ensures q != [] ==> Results(q, oks)[0] == Completion(q[0], q[0] in oks)
    decreases |q|
  {
    if q != [] { ResultsPlain(q[1..], oks); }
  }

  lemma ListenerInv(kind: Kind, stopping: bool, down: bool, held: bool)
    requires down ==> stopping
    ensures Inv(Listener(kind, stopping, down, held))
  {
    var c := Listener(kind, stopping, down, held);
    assert Events(c.cq) == [];
  }

  lemma TrackedEvent(c: Conn, e: Event)
    requires AllTracked(c) && e != WriteNeeded
    ensures Tracked(c, e)
  {}

  /** What the tags in flight and their order depend on. */
  lemma QuietTracks(c: Conn, c': Conn)
    requires AllTracked(c) && Fifo(c) && c'.cq == c.cq && c'.queue == c.queue
    requires c'.rpc.pending == c.rpc.pending && c'.rpc.tokens == c.rpc.tokens && c'.rpc.oks == c.rpc.oks
    requires c'.rpc.posted == c.rpc.posted && c'.rpc.handled == c.rpc.handled
    ensures AllTracked(c') && Fifo(c')
  {
    assert forall e :: InFlight(c', e) == InFlight(c, e);
  }

  /** An event thread at work for an Rpc it does not refuse. */
  lemma WorkConnected(c: Conn)
    requires Inv(c) && c.prog.Then? && c.prog.action != Remove
    ensures c.active && Connected(c) && AllTracked(c)
  {}

  lemma CompletedMoves(c: Conn, e: Event, ok: bool, m: Message)
    requires e in c.rpc.tokens
    ensures var c' := Completed(c, e, ok, m);
      && (Fifo(c) ==> Fifo(c'))
      && Events(c'.cq) == Events(c.cq) + [e]
      && (forall x :: InFlight(c', x) ==
            InFlight(c, x) - (if e == NewConnection && !ok && x == Done && Done in c.rpc.tokens then 1 else 0))
  {
    EventsAppend(c.cq, Completion(e, ok));
    var c' := Completed(c, e, ok, m);
    if Fifo(c) {
      assert c'.rpc.posted == c'.rpc.handled + Results(c'.queue, c'.rpc.oks) + c'.cq;
    }
  }

  lemma ListeningQuiet(c: Conn)
    requires Inv(c) && c.active && Listening(c)
    ensures c.rpc.posted == [] <==> NewConnection in c.rpc.tokens
    ensures c.queue != [] ==> c.queue[0] == NewConnection && c.rpc.started == (NewConnection in c.rpc.oks)
    ensures c.rpc.posted == [] ==> c.queue == [] && c.cq == [] && Done in c.rpc.tokens
  {
    ResultsPlain(c.queue, c.rpc.oks);
    if c.rpc.posted == [] {
      assert Tracked(c, NewConnection);
    } else if c.queue != [] {
      assert c.rpc.posted[0] == Results(c.queue, c.rpc.oks)[0];
      assert multiset(c.queue)[NewConnection] >= 1;
    } else {
      assert c.rpc.posted[0] == c.cq[0];
      assert NewConnection == Events(c.cq)[0];
      assert multiset(Events(c.cq))[NewConnection] >= 1;
    }
  }

  lemma CompleteListening(c: Conn, e: Event, ok: bool, m: Message)
    requires Inv(c) && Enabled(c, Complete(e, ok, m))
    requires c.active && Listening(c)
    ensures Inv(Completed(c, e, ok, m))
  {
    CompletedMoves(c, e, ok, m);
    ListeningQuiet(c);
    ListenerEvent(c, e);
    ListenTracks(c, e, ok, m);
    ListeningStays(c, e, ok, m);
  }

  /** Only NEW_CONNECTION and DONE can be outstanding. */
  lemma ListenerEvent(c: Conn, e: Event)
    requires AllTracked(c) && c.rpc.pending == {NewConnection, Done} && e in c.rpc.tokens
    ensures e == NewConnection || e == Done
  {
    assert InFlight(c, e) >= 1;
    if e != WriteNeeded { TrackedEvent(c, e); }
  }

  lemma ListenTracks(c: Conn, e: Event, ok: bool, m: Message)
    requires AllTracked(c) && Listening(c) && Enabled(c, Complete(e, ok, m)) && (e == NewConnection || e == Done)
    requires c.rpc.posted == [] <==> NewConnection in c.rpc.tokens
    requires c.rpc.posted == [] ==> Done in c.rpc.tokens
    ensures AllTracked(Completed(c, e, ok, m))
  {
    CompletedMoves(c, e, ok, m);
    var c' := Completed(c, e, ok, m);
    assert Failed(c'.rpc) == (if e == NewConnection then !ok else Failed(c.rpc));
  }

  lemma ListeningStays(c: Conn, e: Event, ok: bool, m: Message)
    requires Listening(c) && Enabled(c, Complete(e, ok, m)) && (e == NewConnection || e == Done)
    requires c.rpc.posted == [] <==> NewConnection in c.rpc.tokens
    ensures Listening(Completed(c, e, ok, m))
  {}

  /** What a connected Rpc's program depends on. */
  lemma ConnectedFrame(c: Conn, c': Conn)
    requires Connected(c)
    requires c'.prog == c.prog && c'.writers == c.writers
    requires c'.rpc.kind == c.rpc.kind && c'.rpc.pending == c.rpc.pending && c'.rpc.handler == c.rpc.handler
    requires c'.rpc.sendQueue == c.rpc.sendQueue && c'.rpc.enqueued == c.rpc.enqueued
    requires c'.rpc.calls == c.rpc.calls && c'.rpc.callbacks == c.rpc.callbacks
    requires c'.rpc.posted != [] && c'.rpc.started && !Failed(c'.rpc)
    requires WriteNeeded in c'.queue ==> WriteNeeded in c.queue
    ensures Connected(c')
  {}

  lemma CompleteKeeps(c: Conn, e: Event, ok: bool, m: Message)
    requires Inv(c) && Enabled(c, Complete(e, ok, m))
    ensures Inv(Completed(c, e, ok, m))
  {
    if c.active && Listening(c) {
      CompleteListening(c, e, ok, m);
    } else {
      CompleteTracks(c, e, ok, m);
      if Connected(c) { ConnectedFrame(c, Completed(c, e, ok, m)); }
    }
  }

  lemma CompleteTracks(c: Conn, e: Event, ok: bool, m: Message)
    requires Inv(c) && Enabled(c, Complete(e, ok, m))
    requires !(c.active && Listening(c))
    ensures c.active && NewConnection != e && c.rpc.posted != []
    ensures AllTracked(Completed(c, e, ok, m)) && Fifo(Completed(c, e, ok, m))
    ensures Failed(Completed(c, e, ok, m).rpc) == Failed(c.rpc)
  {
    CompletedMoves(c, e, ok, m);
    assert InFlight(c, e) >= 1;
    TrackedEvent(c, e);
  }

  lemma ForwardResults(queue: seq<Event>, oks: set<Event>, oks': set<Event>, cq: seq<Completion>)
    requires cq != [] && cq[0].event !in queue && cq[0].event != WriteNeeded
    requires forall e :: e != cq[0].event ==> (e in oks <==> e in oks')
    requires cq[0].ok == (cq[0].event in oks')
    ensures Results(queue, oks) + cq == Results(queue + [cq[0].event], oks') + cq[1..]
  {
    ResultsFrame(queue, oks, oks');
    ResultsAppend(queue, cq[0].event, oks');
    assert cq == [cq[0]] + cq[1..];
  }

  lemma ForwardCounts(c: Conn)
    requires c.active && c.cq != []
    ensures forall e :: InFlight(Forwarded(c), e) == InFlight(c, e)
    ensures Events(c.cq) == [c.cq[0].event] + Events(Forwarded(c).cq)
  {
    EventsTail(c.cq);
  }

  lemma ForwardFifo(c: Conn)
    requires Fifo(c) && c.active && c.cq != []
    requires c.cq[0].event != WriteNeeded && c.cq[0].event !in c.queue
    ensures Fifo(Forwarded(c))
  {
    ForwardResults(c.queue, c.rpc.oks, Forwarded(c).rpc.oks, c.cq);
    calc {
      c.rpc.posted;
      c.rpc.handled + Results(c.queue, c.rpc.oks) + c.cq;
      c.rpc.handled + (Results(c.queue, c.rpc.oks) + c.cq);
    }
  }

  lemma ForwardTracks(c: Conn)
    requires Fifo(c) && AllTracked(c) && c.active && c.cq != []
    ensures Fifo(Forwarded(c)) && AllTracked(Forwarded(c))
    ensures NewConnection in c.rpc.pending || c.cq[0].event != NewConnection
    ensures c.cq[0].event != WriteNeeded
  {
    ForwardCounts(c);
    var x := c.cq[0].event;
    assert x in Events(c.cq);
    TrackedEvent(c, x);
    assert multiset(c.queue)[x] == 0;
    ForwardFifo(c);
  }

  lemma ForwardStage(c: Conn)
    requires AllTracked(c) && c.active && c.cq != []
    requires c.cq[0].event != WriteNeeded
    requires NewConnection in c.rpc.pending || c.cq[0].event != NewConnection
    ensures Listening(c) ==> Listening(Forwarded(c))
    ensures Refusing(c) ==> Refusing(Forwarded(c))
    ensures Connected(c) ==> Connected(Forwarded(c))
  {
    if Listening(c) { ForwardListening(c); }
    if Refusing(c) { ForwardRefusing(c); }
    if Connected(c) { ForwardConnected(c); }
  }

  lemma ForwardListening(c: Conn)
    requires Listening(c) && c.active && c.cq != [] && c.cq[0].event != WriteNeeded
    ensures Listening(Forwarded(c))
  {}

  lemma ForwardRefusing(c: Conn)
    requires Refusing(c) && c.active && c.cq != [] && c.cq[0].event != WriteNeeded && c.cq[0].event != NewConnection
    ensures Refusing(Forwarded(c))
  {}

  lemma ForwardConnected(c: Conn)
    requires Connected(c) && c.active && c.cq != [] && c.cq[0].event != WriteNeeded
    ensures Connected(Forwarded(c))
  {
    ConnectedFrame(c, Forwarded(c));
  }

  lemma ForwardKeeps(c: Conn)
    requires Inv(c) && Enabled(c, Forward)
    ensures Inv(Forwarded(c))
  {
    ForwardTracks(c);
    ForwardStage(c);
  }

  lemma BeginFifo(c: Conn)
    requires c.queue != [] && Fifo(c) && (Alive(c) || c.queue[0] == WriteNeeded)
    ensures Fifo(Begun(c))
  {
    var e := c.queue[0];
    if e != WriteNeeded {
      var x := Completion(e, e in c.rpc.oks);
      HeadFirst(c.rpc.handled, x, Results(c.queue[1..], c.rpc.oks), c.cq);
    }
  }

  lemma HeadFirst(handled: seq<Completion>, x: Completion, tail: seq<Completion>, cq: seq<Completion>)
    ensures handled + ([x] + tail) + cq == handled + [x] + tail + cq
  {}

  lemma BeginCounts(c: Conn)
    requires c.queue != []
    ensures forall e :: InFlight(Begun(c), e) == InFlight(c, e) - (if e == c.queue[0] then 1 else 0)
    ensures WriteNeeded in Begun(c).queue ==> WriteNeeded in c.queue
  {
    MultisetTail(c.queue);
    assert Begun(c).rpc.tokens == c.rpc.tokens;
  }

  lemma BeginRetired(c: Conn)
    requires Inv(c) && Enabled(c, Begin) && !c.active
    ensures Inv(Begun(c))
  {
    BeginFifo(c);
    BeginCounts(c);
  }

  lemma BeginListening(c: Conn)
    requires Inv(c) && Enabled(c, Begin) && c.active && Listening(c)
    ensures Inv(Begun(c))
  {
    ListeningQuiet(c);
    BeginFifo(c);
    BeginCounts(c);
    var c' := Begun(c);
    assert c'.rpc.pending == {Done};
    assert AllTracked(c');
    if c.stopping { assert Refusing(c'); } else { assert Connected(c'); }
  }

  lemma BeginConnected(c: Conn)
    requires Inv(c) && Enabled(c, Begin) && c.active && Connected(c)
    ensures Inv(Begun(c))
  {
    BeginFifo(c);
    BeginTracks(c);
    BegunConnected(c);
  }

  lemma BeginTracks(c: Conn)
    requires AllTracked(c) && c.active && c.queue != [] && !Failed(c.rpc)
    ensures AllTracked(Begun(c)) && (c.queue[0] != WriteNeeded ==> c.queue[0] in c.rpc.pending)
  {
    BeginCounts(c);
    var e := c.queue[0];
    assert multiset(c.queue)[e] >= 1;
    if e != WriteNeeded { TrackedEvent(c, e); }
  }

  lemma BegunConnected(c: Conn)
    requires Connected(c) && c.active && c.prog == Halt && c.queue != [] && WriteNeeded !in c.rpc.pending
    requires c.queue[0] != WriteNeeded ==> c.queue[0] in c.rpc.pending
    ensures Connected(Begun(c)) && Begun(c).rpc.faults == c.rpc.faults
    ensures Begun(c).pinned ==> Releasing(Begun(c).prog)
  {
    AnyPending(c.rpc);
  }

  lemma AnyPending(r: Rpc)
    requires r.pending != {} && NewConnection !in r.pending && WriteNeeded !in r.pending
    ensures IsAnyEventPending(r)
  {
    var e :| e in r.pending;
    assert e.Read? || e.Write? || e.Finish? || e.Done?;
  }

  lemma BeginKeeps(c: Conn)
    requires Inv(c) && Enabled(c, Begin)
    ensures Inv(Begun(c))
  {
    if !c.active { BeginRetired(c); }
    else if Listening(c) { BeginListening(c); }
    else { BeginConnected(c); }
  }

  lemma ActCreateHandler(c: Conn)
    requires Inv(c) && c.active && c.prog.Then? && c.prog.action == CreateHandler
    ensures Inv(Acted(c))
  {
    WorkConnected(c);
    CreateConnected(c);
    QuietTracks(c, Acted(c));
  }

  lemma CreateConnected(c: Conn)
    requires c.active && Connected(c) && c.prog.Then? && c.prog.action == CreateHandler
    ensures Connected(Acted(c)) && Acted(c).active && Acted(c).rpc == c.rpc.(handler := true)
  {}

  lemma ActCallback(c: Conn)
    requires Inv(c) && c.active && c.prog.Then?
    requires c.prog.action in {CallOnRequest, CallOnReadsDone, CallOnFinish, CallbackReturn}
    ensures Inv(Acted(c))
  {
    WorkConnected(c);
    CallbackConnected(c);
    QuietAct(c);
    QuietTracks(c, Acted(c));
  }

  lemma CallbackConnected(c: Conn)
    requires c.active && Connected(c) && c.prog.Then?
    requires c.prog.action in {CallOnRequest, CallOnReadsDone, CallOnFinish, CallbackReturn}
    ensures Connected(Acted(c)) && Acted(c).rpc.faults == c.rpc.faults
  {}

  /** A WRITE_NEEDED event changes neither the tags in flight nor their order. */
  lemma PushTracks(c: Conn, c': Conn)
    requires AllTracked(c) && Fifo(c)
    requires c'.rpc == c.rpc && c'.cq == c.cq && c'.queue == c.queue + [WriteNeeded]
    ensures AllTracked(c') && Fifo(c')
  {
    ResultsAppend(c.queue, WriteNeeded, c.rpc.oks);
    assert forall e :: e != WriteNeeded ==> InFlight(c', e) == InFlight(c, e);
  }

  lemma ActPush(c: Conn)
    requires Inv(c) && c.active && c.prog.Then? && c.prog.action == PushWriteNeeded
    ensures Inv(Acted(c))
  {
    PushTracks(c, Acted(c));
  }

  /** HandleSendQueue starts at most one operation, and only when none is outstanding. */
  lemma SendQueueStarts(r: Rpc) returns (e: Event)
    ensures var r' := HandleSendQueue(r);
      && r'.kind == r.kind && r'.handler == r.handler && r'.oks == r.oks
      && r'.posted == r.posted && r'.handled == r.handled && r'.started == r.started
      && r'.faults == r.faults && e in {Write, Finish}
      && (r' == r || (Write !in r.pending && Finish !in r.pending &&
                      r'.pending == r.pending + {e} && r'.tokens == r.tokens + multiset{e}))
  {
    e := if r.sendQueue == [] || r.sendQueue[0].msg.None? || !r.kind.StreamsResponses() then Finish else Write;
  }

  lemma SendNextConnected(c: Conn)
    requires c.active && Connected(c) && c.prog.Then? && c.prog.action == SendNext
    ensures Connected(Acted(c))
  {
    var _ := SendQueueStarts(c.rpc);
  }

  /** Starting an operation sets its flag and puts its tag in flight. */
  lemma StartTracks(c: Conn, c': Conn, x: Event)
    requires AllTracked(c) && x !in c.rpc.pending && x !in {WriteNeeded, Done}
    requires c'.rpc.pending == c.rpc.pending + {x} && c'.rpc.tokens == c.rpc.tokens + multiset{x}
    requires c'.rpc.posted == c.rpc.posted && c'.cq == c.cq && c'.queue == c.queue
    ensures AllTracked(c')
  {
    assert forall e :: InFlight(c', e) == InFlight(c, e) + (if e == x then 1 else 0);
  }

  lemma ActStartRead(c: Conn)
    requires Inv(c) && c.active && c.prog.Then? && c.prog.action == StartRead
    ensures Inv(Acted(c))
  {
    StartTracks(c, Acted(c), Read);
  }

  lemma ActSendNext(c: Conn)
    requires Inv(c) && c.active && c.prog.Then? && c.prog.action == SendNext
    ensures Inv(Acted(c))
  {
    var x := SendQueueStarts(c.rpc);
    SendNextConnected(c);
    if HandleSendQueue(c.rpc) != c.rpc { StartTracks(c, Acted(c), x); }
  }

  lemma NothingInFlight(c: Conn)
    requires AllTracked(c)
    requires forall e :: e != WriteNeeded ==> InFlight(c, e) == 0
    ensures c.rpc.tokens == multiset{} && c.cq == [] && Stale(c.queue)
  {
    assert forall e :: e != WriteNeeded ==> InFlight(c, e) >= c.rpc.tokens[e];
    assert multiset(Events(c.cq)) == multiset{};
    assert |Events(c.cq)| == |multiset(Events(c.cq))|;
    forall i | 0 <= i < |c.queue| ensures c.queue[i] == WriteNeeded {
      assert c.queue[i] in multiset(c.queue);
    }
  }

  lemma ActRemoveIfNotPending(c: Conn)
    requires Inv(c) && c.active && c.prog.Then? && c.prog.action == RemoveIfNotPending && Admissible(c, Act)
    ensures Inv(Acted(c))
  {
    WorkConnected(c);
    if IsAnyEventPending(c.rpc) {
      PendingKept(c);
      QuietTracks(c, Acted(c));
    } else {
      NothingPending(c);
    }
  }

  lemma PendingKept(c: Conn)
    requires c.active && Connected(c) && c.prog.Then? && c.prog.action == RemoveIfNotPending
    requires IsAnyEventPending(c.rpc) && (c.pinned ==> Releasing(c.prog))
    ensures Connected(Acted(c)) && Acted(c).active && Acted(c).rpc == c.rpc
    ensures Acted(c).pinned ==> Releasing(Acted(c).prog)
  {}

  lemma NothingPending(c: Conn)
    requires AllTracked(c) && c.active && Connected(c) && !c.pinned && c.writers == map[] && !OutlivesService(c)
    requires c.prog.Then? && c.prog.action == RemoveIfNotPending && !IsAnyEventPending(c.rpc)
    ensures Retired(Acted(c)) && !Acted(c).active && Acted(c).rpc == c.rpc && Acted(c).queue == c.queue
  {
    assert forall e :: e != WriteNeeded ==> Tracked(c, e) && e !in c.rpc.pending;
    NothingInFlight(c);
  }

  lemma ActRemove(c: Conn)
    requires Inv(c) && c.active && c.prog.Then? && c.prog.action == Remove && Admissible(c, Act)
    ensures Inv(Acted(c))
  {
    assert Refusing(c);
    assert forall e :: e != WriteNeeded ==> Tracked(c, e) && (e !in c.rpc.pending || e == Done);
    NothingInFlight(c);
    StaleOnly(c.queue);
  }

  lemma StaleOnly(q: seq<Event>)
    requires Stale(q)
    ensures q == [] || WriteNeeded in q
  {
    assert q == [] || q[0] == WriteNeeded;
  }

  /** Replacing the listener and releasing the shared_ptr. */
  lemma ActElsewhere(c: Conn)
    requires Inv(c) && c.active && c.prog.Then?
    requires c.prog.action in {CloneRpc, SelectQueue, AddClone, Register, DropClone, Release}
    ensures Inv(Acted(c))
  {
    WorkConnected(c);
    ElsewhereConnected(c);
    QuietTracks(c, Acted(c));
  }

  lemma ElsewhereConnected(c: Conn)
    requires c.active && Connected(c) && c.prog.Then? && (c.pinned ==> Releasing(c.prog))
    requires c.prog.action in {CloneRpc, SelectQueue, AddClone, Register, DropClone, Release}
    ensures Connected(Acted(c)) && Acted(c).active && Acted(c).rpc == c.rpc
    ensures Acted(c).pinned ==> Releasing(Acted(c).prog)
  {
    ElsewhereRunnable(c.rpc, c.prog);
    assert Acted(c).prog == c.prog.next && Acted(c).rpc == c.rpc;
  }

  lemma ElsewhereRunnable(r: Rpc, p: Program)
    requires Runnable(r, p) && p.Then? && p.action in {CloneRpc, SelectQueue, AddClone, Register, DropClone, Release}
    ensures Runnable(r, p.next) && InProgram(r, p.next)
    ensures Releasing(p) ==> p.next == Halt
  {}

  lemma ActKeeps(c: Conn)
    requires Inv(c) && Enabled(c, Act) && Admissible(c, Act)
    ensures Inv(Acted(c))
  {
    match c.prog.action
    case CreateHandler => ActCreateHandler(c);
    case CallOnRequest => ActCallback(c);
    case CallOnReadsDone => ActCallback(c);
    case CallOnFinish => ActCallback(c);
    case CallbackReturn => ActCallback(c);
    case PushWriteNeeded => ActPush(c);
    case StartRead => ActStartRead(c);
    case SendNext => ActSendNext(c);
    case RemoveIfNotPending => ActRemoveIfNotPending(c);
    case Remove => ActRemove(c);
    case _ => ActElsewhere(c);
  }

  /** While the event thread holds a shared_ptr, operations are outstanding. */
  lemma PinnedIsPending(c: Conn)
    requires Inv(c) && c.pinned
    ensures c.active && IsAnyEventPending(c.rpc) && !Removing(c)
  {}

  lemma EnqueueKeeps(c: Conn, item: SendItem, prog: Program, writers: map<nat, WriterPc>)
    requires Inv(c) && c.active && Connected(c) && c.rpc.handler
    requires InProgram(c.rpc, prog) && (c.pinned ==> Releasing(prog))
    ensures Inv(c.(rpc := EnqueueMessage(c.rpc, item), prog := prog, writers := writers))
  {
    var c' := c.(rpc := EnqueueMessage(c.rpc, item), prog := prog, writers := writers);
    QuietTracks(c, c');
  }

  lemma HandlerSendKeeps(c: Conn, item: SendItem)
    requires Inv(c) && Enabled(c, HandlerSend(item))
    ensures Inv(HandlerSent(c, item))
  {
    EnqueueKeeps(c, item, Then(PushWriteNeeded, c.prog), c.writers);
  }

  /** Writers only exist while the handler does. */
  lemma WritersImplyHandler(c: Conn, w: nat)
    requires Inv(c) && w in c.writers
    ensures c.active && Connected(c) && c.rpc.handler
  {}

  lemma WriterLockKeeps(c: Conn, w: nat, item: SendItem)
    requires Inv(c) && Enabled(c, WriterLock(w, item))
    ensures Inv(Next(c, WriterLock(w, item)))
  {
    if Alive(c) {
      var c' := c.(writers := c.writers[w := Locked(item)]);
      QuietTracks(c, c');
    }
  }

  lemma WriterEnqueueKeeps(c: Conn, w: nat)
    requires Inv(c) && Enabled(c, WriterEnqueue(w))
    ensures Inv(WriterEnqueued(c, w))
  {
    WritersImplyHandler(c, w);
    EnqueueKeeps(c, c.writers[w].item, c.prog, c.writers[w := Enqueued]);
  }

  lemma HandlerFrame(c: Conn, c': Conn)
    requires Connected(c) && c.rpc.handler
    requires c'.rpc == c.rpc && c'.prog == c.prog
    ensures Connected(c')
  {}

  lemma WriterPushKeeps(c: Conn, w: nat)
    requires Inv(c) && Enabled(c, WriterPush(w))
    ensures Inv(WriterPushed(c, w))
  {
    WritersImplyHandler(c, w);
    PushTracks(c, WriterPushed(c, w));
    HandlerFrame(c, WriterPushed(c, w));
  }

  lemma WriterReturnKeeps(c: Conn, w: nat)
    requires Inv(c) && Enabled(c, WriterReturn(w))
    ensures Inv(Next(c, WriterReturn(w)))
  {
    WritersImplyHandler(c, w);
    QuietTracks(c, c.(writers := c.writers - {w}));
  }

  lemma DropKeeps(c: Conn)
    requires Inv(c) && c.held
    ensures Inv(c.(held := false))
  {
    var c' := c.(held := false);
    if c.active {
      QuietTracks(c, c');
      if Connected(c) { ConnectedFrame(c, c'); }
    }
  }

  lemma ShutdownStage(c: Conn, c': Conn)
    requires c' == c.(stopping := true, down := c'.down) && (c.down ==> c'.down)
    ensures Listening(c) ==> Listening(c')
    ensures Refusing(c) ==> Refusing(c')
    ensures Connected(c) ==> Connected(c')
    ensures Fifo(c) ==> Fifo(c')
    ensures AllTracked(c) ==> AllTracked(c')
  {
    assert forall e :: InFlight(c', e) == InFlight(c, e);
    if Connected(c) { ConnectedFrame(c, c'); }
  }

  lemma ShutdownKeeps(c: Conn, down: bool)
    requires Inv(c) && (down ==> c.stopping)
    ensures Inv(c.(stopping := true, down := c.down || down))
  {
    ShutdownStage(c, c.(stopping := true, down := c.down || down));
  }

  lemma StepKeeps(c: Conn, s: Step)
    requires Inv(c) && Enabled(c, s) && Admissible(c, s)
    ensures Inv(Next(c, s))
  {
    match s
    case Complete(e, ok, m) => CompleteKeeps(c, e, ok, m);
    case Forward => ForwardKeeps(c);
    case Begin => BeginKeeps(c);
    case Act => ActKeeps(c);
    case HandlerSend(item) => HandlerSendKeeps(c, item);
    case WriterLock(w, item) => WriterLockKeeps(c, w, item);
    case WriterEnqueue(w) => WriterEnqueueKeeps(c, w);
    case WriterPush(w) => WriterPushKeeps(c, w);
    case WriterReturn(w) => WriterReturnKeeps(c, w);
    case Drop => DropKeeps(c);
    case StopServing => ShutdownKeeps(c, false);
    case GrpcShutdown => ShutdownKeeps(c, true);
  }
}
