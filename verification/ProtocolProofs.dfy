/** Every admissible step keeps the ledger and the callback protocol. */
module ProtocolProofs {
  import opened RpcCore
  import opened Connection
  import opened Lifetime
  import opened LifetimeProofs
  import opened Sending
  import opened Protocol

  lemma CallEventsAppend(calls: seq<Call>, x: Call)
    ensures CallEvents(calls + [x]) == CallEvents(calls) + [if x.WriteCall? then Write else Finish]
  {}

  lemma HandledAppend(r: Rpc, x: Completion)
    ensures forall e :: multiset(Events(r.handled + [x]))[e] == Handled(r, e) + (if e == x.event then 1 else 0)
  {
    EventsAppend(r.handled, x);
  }

  /** A step that neither dispatches a completion nor makes a call. */
  lemma LedgerFrame(r: Rpc, r': Rpc)
    requires Ledger(r)
    requires r'.handled == r.handled && r'.calls == r.calls
    requires forall e :: e in {NewConnection, Write, Finish, Done} ==> (e in r'.pending <==> e in r.pending)
    ensures Ledger(r')
  {}

  lemma LedgerSendNext(r: Rpc)
    requires Ledger(r)
    ensures Ledger(HandleSendQueue(r))
  {
    SendNextEffect(r);
    if HandleSendQueue(r) != r { CallEventsAppend(r.calls, CallFor(r.kind, r.sendQueue[0])); }
  }

  lemma BeginIsPending(c: Conn)
    requires Inv(c) && Enabled(c, Begin) && c.queue[0] != WriteNeeded
    ensures c.active && c.queue[0] in c.rpc.pending
  {
    assert c.queue[0] in multiset(c.queue);
    if c.active { TrackedEvent(c, c.queue[0]); }
  }

  lemma LedgerDispatch(r: Rpc, e: Event, stopping: bool)
    requires Ledger(r) && (e != WriteNeeded ==> e in r.pending)
    ensures Ledger(Dispatch(r, true, e, stopping).rpc)
  {
    HandledAppend(r, Completion(e, e in r.oks));
  }

  lemma LedgerBegin(c: Conn)
    requires Inv(c) && Enabled(c, Begin) && Ledger(c.rpc)
    ensures Ledger(Begun(c).rpc)
  {
    if c.queue[0] != WriteNeeded { BeginIsPending(c); }
    LedgerDispatch(c.rpc, c.queue[0], c.stopping);
  }

  lemma LedgerActSend(c: Conn)
    requires c.prog.Then? && c.prog.action == SendNext && c.active && Ledger(c.rpc)
    ensures Ledger(Acted(c).rpc)
  {
    LedgerSendNext(c.rpc);
    assert Acted(c).rpc == HandleSendQueue(c.rpc);
  }

  lemma LedgerAct(c: Conn)
    requires c.prog.Then? && c.active && Ledger(c.rpc)
    ensures Ledger(Acted(c).rpc)
  {
    if c.prog.action == SendNext {
      LedgerActSend(c);
    } else {
      if c.prog.action != StartRead { QuietAct(c); }
      LedgerFrame(c.rpc, Acted(c).rpc);
    }
  }

  predicate SameBooks(r: Rpc, r': Rpc) {
    r'.pending == r.pending && r'.handled == r.handled && r'.calls == r.calls
  }

  lemma PostBooks(r: Rpc, e: Event, ok: bool, m: Message)
    ensures SameBooks(r, Post(r, e, ok, m))
  {}

  lemma ForwardBooks(c: Conn)
    requires c.cq != []
    ensures SameBooks(c.rpc, Forwarded(c).rpc)
  {}

  lemma SendBooks(c: Conn, item: SendItem)
    ensures SameBooks(c.rpc, HandlerSent(c, item).rpc) && SameBooks(c.rpc, EnqueueMessage(c.rpc, item))
  {}

  lemma PushBooks(c: Conn, w: nat)
    ensures SameBooks(c.rpc, WriterPushed(c, w).rpc)
  {}

  /** Flags, dispatched completions and calls change in Begin and Act only. */
  lemma BooksStay(c: Conn, s: Step)
    requires Enabled(c, s) && !s.Begin? && !s.Act?
    ensures SameBooks(c.rpc, Next(c, s).rpc)
  {
    match s
    case Complete(e, ok, m) => PostBooks(c.rpc, e, ok, m);
    case Forward => ForwardBooks(c);
    case HandlerSend(item) => SendBooks(c, item);
    case WriterEnqueue(w) => SendBooks(c, c.writers[w].item);
    case WriterPush(w) => PushBooks(c, w);
    case _ =>
  }

  lemma LedgerOther(c: Conn, s: Step)
    requires Ledger(c.rpc) && Enabled(c, s) && !s.Begin? && !s.Act?
    ensures Ledger(Next(c, s).rpc)
  {
    BooksStay(c, s);
    LedgerFrame(c.rpc, Next(c, s).rpc);
  }

  lemma LedgerKeeps(c: Conn, s: Step)
    requires Inv(c) && Ledger(c.rpc) && Enabled(c, s)
    ensures Ledger(Next(c, s).rpc)
  {
    match s
    case Begin => LedgerBegin(c);
    case Act => LedgerAct(c);
    case _ => LedgerOther(c, s);
  }

  // ---------------------------------------------------------------------
  // Callbacks

  lemma {:induction false} ReadSideAppend(s: seq<Callback>, x: Callback)
    ensures ReadSide(s + [x]) == ReadSide(s) + (if x == OnFinish then [] else [x])
    decreases |s|
  {
    if s != [] {
      ReadSideAppend(s[1..], x);
      assert (s + [x])[1..] == s[1..] + [x];
    }
  }

  lemma OnRequestsAppend(ms: seq<Message>, m: Message)
    ensures OnRequests(ms + [m]) == OnRequests(ms) + [OnRequest(m)]
  {}

  /** What the callback invariant reads from the memory. */
  predicate SameReads(r: Rpc, r': Rpc) {
    && r'.kind == r.kind && r'.started == r.started && r'.request == r.request
    && r'.received == r.received && r'.callbacks == r.callbacks
    && Handled(r', Finish) == Handled(r, Finish)
  }

  lemma CallbackFrame(c: Conn, c': Conn)
    requires CallbackInv(c) && SameReads(c.rpc, c'.rpc)
    requires Next?(c'.prog, CallOnFinish) <==> Next?(c.prog, CallOnFinish)
    requires c'.active ==> c.active && Owed(c') == Owed(c) && Over(c') == Over(c)
    ensures CallbackInv(c')
  {}

  lemma EventIn(cq: seq<Completion>, x: Completion)
    ensures x in cq ==> x.event in Events(cq)
  {
    if x in cq {
      var i :| 0 <= i < |cq| && cq[i] == x;
      assert Events(cq)[i] == x.event;
    }
  }

  /** A successful read in transit is the one outstanding read. */
  lemma ReadInTransit(c: Conn)
    requires AllTracked(c) && ReadArriving(c)
    ensures Read in c.rpc.pending && Read !in c.rpc.tokens
    ensures Completion(Read, true) in c.cq ==> Read !in c.queue
  {
    EventIn(c.cq, Completion(Read, true));
    assert Read in multiset(Events(c.cq)) || Read in multiset(c.queue);
    TrackedEvent(c, Read);
  }

  lemma NotReading(r: Rpc, p: Program)
    requires InProgram(r, p) && Read in r.pending && r.kind.StreamsRequests()
    ensures !Next?(p, CallOnRequest) && !Next?(p, StartRead) && !Next?(p, CallOnReadsDone)
  {}

  lemma ReadIssued(c: Conn)
    requires Inv(c) && Read in c.rpc.tokens
    ensures c.active && AllTracked(c) && Read in c.rpc.pending && c.rpc.started
    ensures c.rpc.kind.StreamsRequests() && InProgram(c.rpc, c.prog)
  {
    assert InFlight(c, Read) >= 1;
    TrackedEvent(c, Read);
  }

  /** While a read is outstanding the handler is owed nothing and the stream is open. */
  lemma ReadOutstanding(c: Conn)
    requires c.active && AllTracked(c) && Read in c.rpc.tokens && Read in c.rpc.pending
    requires c.rpc.kind.StreamsRequests() && InProgram(c.rpc, c.prog)
    ensures !Owed(c) && !Over(c) && !Next?(c.prog, CallOnRequest)
  {
    if ReadArriving(c) { ReadInTransit(c); }
    NotReading(c.rpc, c.prog);
  }

  lemma ShapeReceive(r: Rpc, r': Rpc, m: Message)
    requires Shape(r, false, false) && r.kind.StreamsRequests() && r.started
    requires r'.kind == r.kind && r'.started && r'.callbacks == r.callbacks
    requires r'.request == m && r'.received == r.received + [m]
    ensures Shape(r', true, false)
  {
    assert r'.received[..|r.received|] == r.received;
  }

  lemma CallbackCompleteRead(c: Conn, ok: bool, m: Message)
    requires CallbackInv(c) && c.active && c.rpc.started && c.rpc.kind.StreamsRequests()
    requires !Owed(c) && !Over(c) && Read in c.rpc.pending
    ensures CallbackInv(Completed(c, Read, ok, m))
  {
    var c' := Completed(c, Read, ok, m);
    assert Over(c') == false;
    assert Handled(c'.rpc, Finish) == Handled(c.rpc, Finish);
    if ok {
      assert c'.cq[|c.cq|] == Completion(Read, true);
      assert Owed(c');
      ShapeReceive(c.rpc, c'.rpc, m);
    } else {
      assert !Owed(c');
      CallbackFrame(c, c');
    }
  }

  lemma CallbackCompleteNew(c: Conn, ok: bool, m: Message)
    requires c.active && Listening(c) && CallbackInv(c) && !c.rpc.started && !ReadArriving(c)
    ensures CallbackInv(Completed(c, NewConnection, ok, m))
  {
    var c' := Completed(c, NewConnection, ok, m);
    assert c.rpc.received == [] && c.rpc.callbacks == [];
    assert !Over(c') && !Over(c) && Handled(c'.rpc, Finish) == Handled(c.rpc, Finish);
    assert Shape(c'.rpc, Owed(c'), false);
  }

  lemma CallbackCompleteOther(c: Conn, e: Event, ok: bool, m: Message)
    requires CallbackInv(c) && e != Read && e != NewConnection
    ensures CallbackInv(Completed(c, e, ok, m))
  {
    var c' := Completed(c, e, ok, m);
    assert ReadArriving(c') <==> ReadArriving(c);
    assert c'.rpc.handled == c.rpc.handled;
    CallbackFrame(c, c');
  }

  lemma ListenerIssued(c: Conn)
    requires Inv(c) && NewConnection in c.rpc.tokens
    ensures c.active && Listening(c) && !c.rpc.started && !ReadArriving(c)
  {
    assert InFlight(c, NewConnection) >= 1;
    TrackedEvent(c, NewConnection);
    ListeningQuiet(c);
  }

  lemma CallbackComplete(c: Conn, e: Event, ok: bool, m: Message)
    requires Inv(c) && CallbackInv(c) && Enabled(c, Complete(e, ok, m))
    ensures CallbackInv(Completed(c, e, ok, m))
  {
    if e == Read {
      ReadIssued(c);
      ReadOutstanding(c);
      CallbackCompleteRead(c, ok, m);
    }
    else if e == NewConnection {
      ListenerIssued(c);
      CallbackCompleteNew(c, ok, m);
    }
    else { CallbackCompleteOther(c, e, ok, m); }
  }

  lemma ReadTravels(c: Conn)
    requires AllTracked(c) && c.active && c.cq != []
    ensures ReadArriving(Forwarded(c)) <==> ReadArriving(c)
  {
    var c', x := Forwarded(c), c.cq[0];
    EventsTail(c.cq);
    assert c.cq == [x] + c.cq[1..];
    if x.event == Read {
      TrackedEvent(c, Read);
      assert multiset(c.queue)[Read] == 0 && multiset(Events(c'.cq))[Read] == 0;
      EventIn(c'.cq, Completion(Read, true));
    }
  }

  lemma CallbackForward(c: Conn)
    requires c.active && AllTracked(c) && CallbackInv(c) && c.cq != []
    ensures CallbackInv(Forwarded(c))
  {
    ReadTravels(c);
    CallbackFrame(c, Forwarded(c));
  }

  // --- Begin -----------------------------------------------------------

  lemma DispatchFinish(r: Rpc, e: Event, stopping: bool)
    requires e != WriteNeeded
    ensures Handled(Dispatch(r, true, e, stopping).rpc, Finish) == Handled(r, Finish) + (if e == Finish then 1 else 0)
  {
    HandledAppend(r, Completion(e, e in r.oks));
  }

  /** Their programs do not concern it either. */
  lemma OtherPrograms(kind: Kind, e: Event, ok: bool, stopping: bool)
    requires e != Read && e != NewConnection
    ensures var p := ProgramFor(kind, e, ok, stopping);
      && !Next?(p, CallOnRequest) && !Next?(p, StartRead) && !Next?(p, CallOnReadsDone)
      && (Next?(p, CallOnFinish) <==> e == Finish)
  {}

  lemma BeginOtherFlags(c: Conn)
    requires c.prog == Halt && c.queue != [] && c.active
    requires c.queue[0] != Read && c.queue[0] != NewConnection
    ensures Owed(Begun(c)) == Owed(c) && Over(Begun(c)) == Over(c)
    ensures Next?(Begun(c).prog, CallOnFinish) <==> c.queue[0] == Finish
  {
    OtherPrograms(c.rpc.kind, c.queue[0], c.queue[0] == WriteNeeded || c.queue[0] in c.rpc.oks, c.stopping);
    assert Read in c.queue <==> Read in c.queue[1..];
  }

  /** What a dispatch leaves alone. */
  lemma DispatchFrame(r: Rpc, alive: bool, e: Event, stopping: bool)
    ensures var r' := Dispatch(r, alive, e, stopping).rpc;
      && r'.kind == r.kind && r'.started == r.started && r'.request == r.request
      && r'.received == r.received && r'.callbacks == r.callbacks
      && (e == WriteNeeded || !alive ==> r'.handled == r.handled)
  {}

  /** WRITE_NEEDED, WRITE, FINISH and DONE do not concern the request stream. */
  lemma CallbackBeginOther(c: Conn)
    requires CallbackInv(c) && c.prog == Halt && c.queue != [] && c.active
    requires c.queue[0] != Read && c.queue[0] != NewConnection
    ensures CallbackInv(Begun(c))
  {
    var c' := Begun(c);
    BeginOtherFlags(c);
    DispatchFrame(c.rpc, true, c.queue[0], c.stopping);
    if c.queue[0] != WriteNeeded { DispatchFinish(c.rpc, c.queue[0], c.stopping); }
    assert Shape(c'.rpc, Owed(c), Over(c));
  }

  lemma CallbackBeginStale(c: Conn)
    requires CallbackInv(c) && c.prog == Halt && c.queue != [] && !Alive(c) && c.queue[0] == WriteNeeded
    ensures CallbackInv(Begun(c))
  {}

  lemma BeginNewFlags(c: Conn)
    requires c.prog == Halt && c.queue != [] && c.active && c.queue[0] == NewConnection
    requires !c.rpc.handler && Read !in c.rpc.pending && !ReadArriving(c)
    ensures Owed(Begun(c)) == Owed(c) && Over(Begun(c)) == Over(c)
    ensures !Next?(Begun(c).prog, CallOnFinish)
  {}

  lemma CallbackBeginNew(c: Conn)
    requires CallbackInv(c) && c.prog == Halt && c.queue != [] && c.active && c.queue[0] == NewConnection
    requires !c.rpc.handler && Read !in c.rpc.pending && !ReadArriving(c)
    ensures CallbackInv(Begun(c))
  {
    BeginNewFlags(c);
    DispatchFrame(c.rpc, true, NewConnection, c.stopping);
    DispatchFinish(c.rpc, NewConnection, c.stopping);
    CallbackFrame(c, Begun(c));
  }

  lemma BeginReadFlags(c: Conn)
    requires c.prog == Halt && c.queue != [] && c.active && c.queue[0] == Read
    requires c.rpc.kind.StreamsRequests() && Read in c.rpc.pending
    requires Read !in c.queue[1..] && Completion(Read, true) !in c.cq
    ensures Owed(Begun(c)) == Owed(c) && Over(Begun(c)) == Over(c)
    ensures !Next?(Begun(c).prog, CallOnFinish)
  {}

  lemma CallbackBeginRead(c: Conn)
    requires CallbackInv(c) && c.prog == Halt && c.queue != [] && c.active && c.queue[0] == Read
    requires c.rpc.kind.StreamsRequests() && Read in c.rpc.pending
    requires Read !in c.queue[1..] && Completion(Read, true) !in c.cq
    ensures CallbackInv(Begun(c))
  {
    BeginReadFlags(c);
    DispatchFrame(c.rpc, true, Read, c.stopping);
    DispatchFinish(c.rpc, Read, c.stopping);
    CallbackFrame(c, Begun(c));
  }

  /** The head of the queue is the only tag of its event in flight. */
  lemma HeadIsUnique(c: Conn)
    requires AllTracked(c) && c.queue != [] && c.queue[0] != WriteNeeded
    ensures c.queue[0] in c.rpc.pending && c.queue[0] !in c.queue[1..]
    ensures forall ok :: Completion(c.queue[0], ok) !in c.cq
  {
    var e := c.queue[0];
    MultisetTail(c.queue);
    TrackedEvent(c, e);
    assert multiset(c.queue[1..])[e] == 0 && multiset(Events(c.cq))[e] == 0;
    EventIn(c.cq, Completion(e, true));
    EventIn(c.cq, Completion(e, false));
  }

  lemma CallbackBegin(c: Conn)
    requires Inv(c) && CallbackInv(c) && Enabled(c, Begin)
    ensures CallbackInv(Begun(c))
  {
    if !c.active {
      CallbackBeginStale(c);
    } else if c.queue[0] == Read {
      HeadIsUnique(c);
      CallbackBeginRead(c);
    } else if c.queue[0] == NewConnection {
      HeadIsUnique(c);
      if ReadArriving(c) { ReadInTransit(c); }
      CallbackBeginNew(c);
    } else {
      CallbackBeginOther(c);
    }
  }

  // --- Act -------------------------------------------------------------

  lemma CallbackActCreate(c: Conn)
    requires CallbackInv(c) && c.active && c.prog.Then? && c.prog.action == CreateHandler
    requires InProgram(c.rpc, c.prog) && !c.rpc.handler && c.rpc.started
    ensures CallbackInv(Acted(c))
  {
    assert Acted(c).rpc == c.rpc.(handler := true) && Base(Acted(c).prog) == c.prog.next;
    CallbackFrame(c, Acted(c));
  }

  lemma ShapeRequest(r: Rpc, r': Rpc)
    requires Shape(r, true, false) && r' == r.(callbacks := r.callbacks + [OnRequest(r.request)])
    ensures Shape(r', false, false)
  {
    ReadSideAppend(r.callbacks, OnRequest(r.request));
    var n := |r.received|;
    assert r.received == r.received[..n - 1] + [r.received[n - 1]];
    OnRequestsAppend(r.received[..n - 1], r.received[n - 1]);
  }

  lemma ShapeReadsDone(r: Rpc, r': Rpc)
    requires Shape(r, false, false) && r' == r.(callbacks := r.callbacks + [OnReadsDone]) && r.started
    requires !r.kind.StreamsRequests() ==> ReadSide(r.callbacks) == r.callbacks
    ensures Shape(r', false, true)
  {
    ReadSideAppend(r.callbacks, OnReadsDone);
  }

  lemma {:induction false} ReadSideAll(s: seq<Callback>)
    requires OnFinish !in s
    ensures ReadSide(s) == s
    decreases |s|
  {
    if s != [] { ReadSideAll(s[1..]); }
  }

  lemma CallbackActRequest(c: Conn)
    requires CallbackInv(c) && c.active && c.prog.Then? && c.prog.action == CallOnRequest
    requires InProgram(c.rpc, c.prog) && c.rpc.handler && c.rpc.started && !ReadArriving(c)
    ensures CallbackInv(Acted(c))
  {
    var c' := Acted(c);
    assert Owed(c) && !Over(c) && !Owed(c') && !Over(c');
    ShapeRequest(c.rpc, c'.rpc);
    assert Handled(c'.rpc, Finish) == Handled(c.rpc, Finish);
  }

  /** The connection after a callback was invoked. */
  function Called(c: Conn, x: Callback): Conn
    requires c.prog.Then?
  {
    c.(rpc := c.rpc.(callbacks := c.rpc.callbacks + [x]), prog := Then(CallbackReturn, c.prog.next))
  }

  lemma ActedIsCalled(c: Conn)
    requires c.active && c.rpc.handler && c.prog.Then?
    ensures c.prog.action == CallOnReadsDone ==> Acted(c) == Called(c, OnReadsDone)
    ensures c.prog.action == CallOnFinish ==> Acted(c) == Called(c, OnFinish)
  {}

  lemma ReadsDoneFlags(c: Conn, c': Conn)
    requires c.prog.Then? && c.prog.action == CallOnReadsDone
    requires c.prog.next == Then(RemoveIfNotPending, Halt) || c.prog.next == CLONING
    requires c.rpc.handler && !ReadArriving(c) && Read !in c.rpc.pending && c' == Called(c, OnReadsDone)
    ensures !Owed(c) && !Over(c) && !Owed(c') && Over(c')
    ensures !Next?(c.prog, CallOnFinish) && !Next?(c'.prog, CallOnFinish)
    ensures Handled(c'.rpc, Finish) == Handled(c.rpc, Finish)
  {}

  lemma ReadsDoneCalled(c: Conn, c': Conn)
    requires CallbackInv(c) && c.active && c.prog.Then? && c.prog.action == CallOnReadsDone
    requires c.prog.next == Then(RemoveIfNotPending, Halt) || c.prog.next == CLONING
    requires c.rpc.handler && c.rpc.started && !ReadArriving(c) && Read !in c.rpc.pending
    requires c' == Called(c, OnReadsDone)
    ensures CallbackInv(c')
  {
    ReadsDoneFlags(c, c');
    if !c.rpc.kind.StreamsRequests() { ReadSideAll(c.rpc.callbacks); }
    ShapeReadsDone(c.rpc, c'.rpc);
  }

  lemma CallbackActReadsDone(c: Conn)
    requires CallbackInv(c) && c.active && c.prog.Then? && c.prog.action == CallOnReadsDone
    requires InProgram(c.rpc, c.prog) && c.rpc.handler && c.rpc.started && !ReadArriving(c)
    requires Read !in c.rpc.pending
    ensures CallbackInv(Acted(c))
  {
    ActedIsCalled(c);
    ReadsDoneCalled(c, Acted(c));
  }

  lemma ShapeFinish(r: Rpc, r': Rpc, owed: bool, over: bool)
    requires Shape(r, owed, over) && r' == r.(callbacks := r.callbacks + [OnFinish])
    requires !r.kind.StreamsRequests() ==> over
    ensures Shape(r', owed, over)
  {
    ReadSideAppend(r.callbacks, OnFinish);
  }

  lemma CallbackActFinish(c: Conn)
    requires CallbackInv(c) && c.active && c.prog.Then? && c.prog.action == CallOnFinish
    requires InProgram(c.rpc, c.prog) && c.rpc.handler && (!c.rpc.kind.StreamsRequests() ==> Read !in c.rpc.pending)
    ensures CallbackInv(Acted(c))
  {
    ActedIsCalled(c);
    FinishCalled(c, Acted(c));
  }

  lemma FinishFlags(c: Conn, c': Conn)
    requires c.prog == Then(CallOnFinish, Then(RemoveIfNotPending, Halt)) && c' == Called(c, OnFinish)
    ensures Owed(c') == Owed(c) && Over(c') == Over(c)
    ensures Next?(c.prog, CallOnFinish) && !Next?(c'.prog, CallOnFinish)
    ensures Handled(c'.rpc, Finish) == Handled(c.rpc, Finish)
  {}

  lemma FinishCalled(c: Conn, c': Conn)
    requires CallbackInv(c) && c.active && c.prog == Then(CallOnFinish, Then(RemoveIfNotPending, Halt))
    requires c.rpc.handler && (!c.rpc.kind.StreamsRequests() ==> Read !in c.rpc.pending)
    requires c' == Called(c, OnFinish)
    ensures CallbackInv(c')
  {
    FinishFlags(c, c');
    ShapeFinish(c.rpc, c'.rpc, Owed(c), Over(c));
  }

  lemma CallbackActRead(c: Conn)
    requires CallbackInv(c) && c.active && c.prog.Then? && c.prog.action == StartRead
    requires InProgram(c.rpc, c.prog)
    ensures CallbackInv(Acted(c))
  {
    CallbackFrame(c, Acted(c));
  }

  lemma CallbackActSend(c: Conn)
    requires CallbackInv(c) && c.active && c.prog.Then? && c.prog.action == SendNext
    requires InProgram(c.rpc, c.prog)
    ensures CallbackInv(Acted(c))
  {
    SendQueueKeepsReads(c.rpc);
    SendFlags(c, Acted(c));
    CallbackFrame(c, Acted(c));
  }

  lemma SendFlags(c: Conn, c': Conn)
    requires c.prog.Then? && c.prog.action == SendNext && InProgram(c.rpc, c.prog)
    requires c'.prog == c.prog.next && c'.cq == c.cq && c'.queue == c.queue
    requires c'.rpc.kind == c.rpc.kind && c'.rpc.started == c.rpc.started && c'.rpc.handler == c.rpc.handler
    requires c'.rpc.oks == c.rpc.oks && (Read in c'.rpc.pending <==> Read in c.rpc.pending)
    ensures Owed(c') == Owed(c) && Over(c') == Over(c)
    ensures !Next?(c'.prog, CallOnFinish) && !Next?(c.prog, CallOnFinish)
  {}

  lemma SendQueueKeepsReads(r: Rpc)
    ensures var r' := HandleSendQueue(r);
      && r'.kind == r.kind && r'.started == r.started && r'.request == r.request
      && r'.received == r.received && r'.callbacks == r.callbacks && r'.handled == r.handled
      && r'.handler == r.handler && r'.oks == r.oks
      && (Read in r'.pending <==> Read in r.pending)
  {}

  /** Owed and Over depend on the program only through its next read action. */
  lemma FlagsFrame(c: Conn, c': Conn)
    requires c'.rpc == c.rpc && c'.cq == c.cq && (Read in c'.queue <==> Read in c.queue)
    requires SameNext(c.prog, c'.prog)
    ensures Owed(c') == Owed(c) && Over(c') == Over(c)
  {}

  predicate SameNext(p: Program, p': Program) {
    && (Next?(p', CallOnRequest) <==> Next?(p, CallOnRequest))
    && (Next?(p', StartRead) <==> Next?(p, StartRead))
    && (Next?(p', CallOnReadsDone) <==> Next?(p, CallOnReadsDone))
    && (Next?(p', CallOnFinish) <==> Next?(p, CallOnFinish))
  }

  /** Returning from handler code, cloning, removing and releasing. */
  predicate MovesOn(a: Action) {
    || a.CallbackReturn? || a.CloneRpc? || a.SelectQueue? || a.AddClone? || a.Register? || a.DropClone?
    || a.Release? || a.RemoveIfNotPending? || a.Remove?
  }

  lemma BaseAfter(r: Rpc, p: Program)
    requires p.Then? && MovesOn(p.action)
    requires InProgram(r, p) || p == Then(Remove, Halt)
    ensures SameNext(p, p.next)
  {}

  lemma CallbackActOther(c: Conn)
    requires CallbackInv(c) && c.active && c.prog.Then? && MovesOn(c.prog.action)
    requires SameNext(c.prog, c.prog.next)
    ensures CallbackInv(Acted(c))
  {
    ActMovesOn(c);
    FlagsFrame(c, Acted(c));
    CallbackFrame(c, Acted(c));
  }

  lemma ActMovesOn(c: Conn)
    requires c.active && c.prog.Then? && MovesOn(c.prog.action)
    ensures var c' := Acted(c);
      c'.rpc == c.rpc && c'.cq == c.cq && c'.queue == c.queue && c'.prog == c.prog.next
  {}

  lemma CallbackActPush(c: Conn)
    requires CallbackInv(c) && c.active && c.prog.Then? && c.prog.action == PushWriteNeeded
    requires InProgram(c.rpc, c.prog)
    ensures CallbackInv(Acted(c))
  {
    var c' := Acted(c);
    assert c'.rpc == c.rpc && Base(c'.prog) == Base(c.prog);
    FlagsFrame(c, c');
    CallbackFrame(c, c');
  }

  lemma NoReadArriving(c: Conn)
    requires AllTracked(c) && Read !in c.rpc.pending
    ensures !ReadArriving(c)
  {
    if ReadArriving(c) { ReadInTransit(c); }
  }

  lemma CallbackAct(c: Conn)
    requires Inv(c) && CallbackInv(c) && Enabled(c, Act)
    ensures CallbackInv(Acted(c))
  {
    if c.prog.action == Remove {
      BaseAfter(c.rpc, c.prog);
      CallbackActOther(c);
    } else {
      WorkConnected(c);
      CallbackActConnected(c);
    }
  }

  lemma CallbackActConnected(c: Conn)
    requires Connected(c) && AllTracked(c) && c.active && CallbackInv(c)
    requires c.prog.Then? && c.prog.action != Remove
    ensures CallbackInv(Acted(c))
  {
    match c.prog.action
    case CreateHandler => CallbackActCreate(c);
    case CallOnRequest => NoReadArriving(c); CallbackActRequest(c);
    case CallOnReadsDone => NoReadArriving(c); CallbackActReadsDone(c);
    case CallOnFinish => CallbackActFinish(c);
    case StartRead => CallbackActRead(c);
    case SendNext => CallbackActSend(c);
    case PushWriteNeeded => CallbackActPush(c);
    case _ => BaseAfter(c.rpc, c.prog); CallbackActOther(c);
  }

  // --- the rest --------------------------------------------------------

  lemma CallbackEnqueue(c: Conn, item: SendItem, prog: Program, writers: map<nat, WriterPc>)
    requires CallbackInv(c) && Base(prog) == Base(c.prog)
    ensures CallbackInv(c.(rpc := EnqueueMessage(c.rpc, item), prog := prog, writers := writers))
  {
    var c' := c.(rpc := EnqueueMessage(c.rpc, item), prog := prog, writers := writers);
    assert Owed(c') == Owed(c) && Over(c') == Over(c);
    CallbackFrame(c, c');
  }

  lemma CallbackSend(c: Conn, item: SendItem)
    requires Alive(c) && CallbackInv(c) && Enabled(c, HandlerSend(item))
    ensures CallbackInv(HandlerSent(c, item))
  {
    CallbackEnqueue(c, item, Then(PushWriteNeeded, c.prog), c.writers);
  }

  /** A step that changes only writers, shutdown flags and WRITE_NEEDED events. */
  lemma CallbackBystander(c: Conn, c': Conn)
    requires CallbackInv(c) && c'.rpc == c.rpc && c'.cq == c.cq && c'.prog == c.prog && c'.active == c.active
    requires Read in c'.queue <==> Read in c.queue
    ensures CallbackInv(c')
  {
    FlagsFrame(c, c');
    CallbackFrame(c, c');
  }

  lemma CallbackOtherThreads(c: Conn, s: Step)
    requires CallbackInv(c) && Enabled(c, s)
    requires s.WriterLock? || (s.WriterPush? && c.active) || s.WriterReturn? || s.Drop? || s.StopServing? ||
      s.GrpcShutdown?
    ensures CallbackInv(Next(c, s))
  {
    CallbackBystander(c, Next(c, s));
  }

  lemma CallbackSends(c: Conn, s: Step)
    requires CallbackInv(c) && Enabled(c, s) && (s.HandlerSend? || s.WriterPush? ==> c.active)
    requires !s.Complete? && !s.Forward? && !s.Begin? && !s.Act?
    ensures CallbackInv(Next(c, s))
  {
    match s
    case HandlerSend(item) => CallbackSend(c, item);
    case WriterEnqueue(w) => CallbackEnqueue(c, c.writers[w].item, c.prog, c.writers[w := Enqueued]);
    case _ => CallbackOtherThreads(c, s);
  }

  lemma CallbackKeeps(c: Conn, s: Step)
    requires Inv(c) && CallbackInv(c) && Enabled(c, s)
    ensures CallbackInv(Next(c, s))
  {
    match s
    case Complete(e, ok, m) => CallbackComplete(c, e, ok, m);
    case Forward => CallbackForward(c);
    case Begin => CallbackBegin(c);
    case Act => CallbackAct(c);
    case HandlerSend(_) => WorkConnected(c); CallbackSends(c, s);
    case WriterPush(w) => WritersImplyHandler(c, w); CallbackSends(c, s);
    case _ => CallbackSends(c, s);
  }
}
