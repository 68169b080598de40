/** At most one gRPC Finish, and nothing after it. HandleSendQueue does not
    check whether a Finish was already made, so it depends on when others send. */
module OneFinish {
  import opened RpcCore
  import opened Connection
  import opened Lifetime
  import opened LifetimeProofs
  import opened Sending
  import opened Protocol
  import opened ProtocolProofs

  /** Writes, then at most one Finish. */
  predicate FinishLast(calls: seq<Call>) {
    forall i :: 0 <= i < |calls| - 1 ==> calls[i].WriteCall?
  }

  // ---------------------------------------------------------------------
  // The exact condition

  /** HandleSendQueue finds something to send although a Finish was made and
      its completion handled: the case its guard does not exclude. */
  predicate LateSend(c: Conn, s: Step) {
    && s == Act && Alive(c) && c.prog.Then? && c.prog.action == SendNext
    && c.rpc.sendQueue != [] && Finished(c.rpc.calls) && Finish !in c.rpc.pending
  }

  predicate NoLateSend(c: Conn, steps: seq<Step>)
    requires IsRun(c, steps)
    decreases |steps|
  {
    steps == [] || (!LateSend(c, steps[0]) && NoLateSend(Next(c, steps[0]), steps[1..]))
  }

  lemma CallsGrow(c: Conn, s: Step)
    requires Enabled(c, s)
    ensures c.rpc.calls <= Next(c, s).rpc.calls
  {
    if !Sends(c, s) { SendFrame(c, s); } else { SendNextEffect(c.rpc); }
  }

  lemma {:induction false} CallsGrowOverRun(c: Conn, steps: seq<Step>)
    requires IsRun(c, steps)
    ensures c.rpc.calls <= Run(c, steps).rpc.calls
    decreases |steps|
  {
    if steps != [] {
      CallsGrow(c, steps[0]);
      CallsGrowOverRun(Next(c, steps[0]), steps[1..]);
    }
  }

  /** Once a Finish is the last call and handled, another call follows exactly
      if there is something to send. */
  lemma SendAfterFinish(r: Rpc)
    requires SendInv(r) && FinishLast(r.calls)
    ensures FinishLast(HandleSendQueue(r).calls) <==>
      !(r.sendQueue != [] && Finished(r.calls) && Finish !in r.pending)
  {
    SendNextEffect(r);
    var r' := HandleSendQueue(r);
    if Finished(r.calls) {
      assert r.calls[|r.calls| - 1].FinishCall?;
      if r'.calls != r.calls { assert r'.calls[|r.calls| - 1].FinishCall?; }
    }
  }

  /** A step breaks the order of calls if and only if it is a late send. */
  lemma LateSendBreaks(c: Conn, s: Step)
    requires SendInv(c.rpc) && FinishLast(c.rpc.calls) && Enabled(c, s)
    ensures FinishLast(Next(c, s).rpc.calls) <==> !LateSend(c, s)
  {
    if !Sends(c, s) {
      SendFrame(c, s);
    } else if s == Act && Alive(c) {
      SendAfterFinish(c.rpc);
    }
  }

  /** For every kind of method and every run, admissible or not: the calls are
      Writes followed by at most one Finish if and only if no send is late. */
  lemma {:induction false} FinishLastIff(c: Conn, steps: seq<Step>)
    requires SendInv(c.rpc) && FinishLast(c.rpc.calls) && IsRun(c, steps)
    ensures FinishLast(Run(c, steps).rpc.calls) <==> NoLateSend(c, steps)
    decreases |steps|
  {
    if steps != [] {
      var c' := Next(c, steps[0]);
      LateSendBreaks(c, steps[0]);
      if LateSend(c, steps[0]) {
        CallsGrowOverRun(c', steps[1..]);
      } else {
        SendKeeps(c, steps[0]);
        FinishLastIff(c', steps[1..]);
      }
    }
  }

  // ---------------------------------------------------------------------
  // What senders can do about it

  /** The completion of a Finish has reached the event queue. */
  predicate FinishArrived(c: Conn) {
    Finish in c.queue || Handled(c.rpc, Finish) > 0
  }

  /** The step pushes a WRITE_NEEDED for the Rpc. */
  predicate Announces(c: Conn, s: Step) {
    c.active && (s.WriterPush? || (s == Act && c.prog.Then? && c.prog.action == PushWriteNeeded))
  }

  /** Sends are announced before the completion of a Finish arrives. */
  predicate Timely(c: Conn, s: Step) {
    Announces(c, s) ==> !FinishArrived(c)
  }

  /** No WRITE_NEEDED waits behind the completion of a Finish. */
  predicate Ordered(q: seq<Event>) {
    forall i, j :: 0 <= i < j < |q| && q[i] == Finish ==> q[j] != WriteNeeded
  }

  predicate TimelyInv(c: Conn) {
    && FinishLast(c.rpc.calls)
    && Ordered(c.queue)
    && (Handled(c.rpc, Finish) > 0 ==> WriteNeeded !in c.queue && !(c.prog.Then? && c.prog.action == SendNext))
  }

  lemma OrderedAppend(q: seq<Event>, e: Event)
    requires Ordered(q) && (e == WriteNeeded ==> Finish !in q)
    ensures Ordered(q + [e])
  {}

  lemma OrderedTail(q: seq<Event>)
    requires Ordered(q) && q != []
    ensures Ordered(q[1..])
    ensures q[0] == Finish ==> WriteNeeded !in q[1..]
  {
    forall i, j | 0 <= i < j < |q[1..]| && q[1..][i] == Finish ensures q[1..][j] != WriteNeeded {
      assert q[i + 1] == q[1..][i] && q[j + 1] == q[1..][j];
    }
  }

  lemma FinishMade(calls: seq<Call>, i: nat)
    requires i < |calls| && calls[i].FinishCall?
    ensures Finish in multiset(CallEvents(calls))
  {
    assert CallEvents(calls)[i] == Finish;
  }

  /** Every Finish made is outstanding or was handled. */
  lemma FinishedAccounted(r: Rpc)
    requires Ledger(r) && Finished(r.calls)
    ensures Finish in r.pending || Handled(r, Finish) > 0
  {
    var i :| 0 <= i < |r.calls| && r.calls[i].FinishCall?;
    FinishMade(r.calls, i);
  }

  lemma NotLate(c: Conn, s: Step)
    requires Ledger(c.rpc) && TimelyInv(c)
    ensures !LateSend(c, s)
  {
    if LateSend(c, s) { FinishedAccounted(c.rpc); }
  }

  /** No Write is outstanding after a handled Finish. */
  lemma NoWriteAfterFinish(r: Rpc)
    requires Ledger(r) && SendInv(r) && FinishLast(r.calls) && Handled(r, Finish) > 0
    ensures Write !in r.pending
  {
    assert Finish in multiset(CallEvents(r.calls));
    var i :| 0 <= i < |r.calls| && CallEvents(r.calls)[i] == Finish;
    assert i == |r.calls| - 1;
  }

  lemma TimelyBegin(c: Conn)
    requires TimelyInv(c) && c.prog == Halt && c.queue != [] && (c.active || c.queue[0] == WriteNeeded)
    requires c.queue[0] == Write ==> Handled(c.rpc, Finish) == 0
    ensures TimelyInv(Begun(c))
  {
    OrderedTail(c.queue);
    var e := c.queue[0];
    if e != WriteNeeded && c.active { DispatchFinish(c.rpc, e, c.stopping); }
    assert WriteNeeded in c.queue[1..] ==> WriteNeeded in c.queue;
  }

  lemma ActHandled(c: Conn)
    requires c.active && c.prog.Then?
    ensures Acted(c).rpc.handled == c.rpc.handled
    ensures Acted(c).queue == if c.prog.action == PushWriteNeeded then c.queue + [WriteNeeded] else c.queue
    ensures Acted(c).prog == c.prog.next || Acted(c).prog == Then(CallbackReturn, c.prog.next)
  {
    ActQueue(c);
    ActProgram(c);
    if c.prog.action == SendNext { var _ := SendQueueStarts(c.rpc); }
    else if c.prog.action != StartRead { QuietAct(c); }
  }

  lemma TimelyAct(c: Conn)
    requires TimelyInv(c) && c.active && c.prog.Then? && Timely(c, Act) && FinishLast(Acted(c).rpc.calls)
    requires c.prog.next.Then? ==> c.prog.next.action != SendNext
    ensures TimelyInv(Acted(c))
  {
    ActHandled(c);
    if c.prog.action == PushWriteNeeded { OrderedAppend(c.queue, WriteNeeded); }
  }

  /** Facts from the lifetime invariant about running programs. */
  lemma ProgramFacts(c: Conn)
    requires Inv(c) && c.prog.Then?
    ensures c.active && (c.prog.next.Then? ==> c.prog.next.action != SendNext)
  {}

  lemma BeginFacts(c: Conn)
    requires Inv(c) && SendInv(c.rpc) && Ledger(c.rpc) && FinishLast(c.rpc.calls) && Enabled(c, Begin)
    ensures c.active || c.queue[0] == WriteNeeded
    ensures c.queue[0] == Write ==> Handled(c.rpc, Finish) == 0
  {
    if c.queue[0] != WriteNeeded { BeginIsPending(c); }
    if Handled(c.rpc, Finish) > 0 { NoWriteAfterFinish(c.rpc); }
  }

  lemma TimelyForward(c: Conn)
    requires Inv(c) && TimelyInv(c) && c.cq != []
    ensures TimelyInv(Forwarded(c))
  {
    ForwardTracks(c);
    OrderedAppend(c.queue, c.cq[0].event);
  }

  lemma TimelyPush(c: Conn, w: nat)
    requires TimelyInv(c) && Timely(c, WriterPush(w))
    ensures TimelyInv(WriterPushed(c, w))
  {
    if c.active { OrderedAppend(c.queue, WriteNeeded); }
  }

  lemma TimelyOther(c: Conn, s: Step)
    requires TimelyInv(c) && Enabled(c, s) && !s.Forward? && !s.Begin? && !s.Act? && !s.WriterPush?
    ensures TimelyInv(Next(c, s))
  {
    BooksStay(c, s);
  }

  lemma TimelyKeeps(c: Conn, s: Step)
    requires Inv(c) && SendInv(c.rpc) && Ledger(c.rpc) && TimelyInv(c) && Enabled(c, s) && Timely(c, s)
    ensures TimelyInv(Next(c, s))
  {
    match s
    case Forward => TimelyForward(c);
    case Begin => BeginFacts(c); TimelyBegin(c);
    case Act => {
      NotLate(c, s);
      LateSendBreaks(c, s);
      ProgramFacts(c);
      TimelyAct(c);
    }
    case WriterPush(w) => TimelyPush(c, w);
    case _ => TimelyOther(c, s);
  }

  // ---------------------------------------------------------------------
  // Sending before OnConnection returns

  /** All sends come from the handler, before OnConnection returns. */
  predicate Disciplined(c: Conn, s: Step) {
    !s.WriterLock? && (s.HandlerSend? ==> OwesClone(c.prog))
  }

  predicate DisciplineInv(c: Conn) {
    && c.writers == map[]
    && (OwesClone(c.prog) ==> c.rpc.calls == [])
    && (c.prog.Then? && c.prog.action == PushWriteNeeded ==> OwesClone(c.prog))
  }

  /** Nothing was handed over, so no completion of a Finish exists. */
  lemma NothingArrived(c: Conn)
    requires AllTracked(c) && Outstanding(c.rpc) && Ledger(c.rpc) && c.rpc.calls == []
    ensures !FinishArrived(c)
  {
    TrackedEvent(c, Finish);
    assert multiset(c.queue)[Finish] == 0;
  }

  lemma DisciplinedIsTimely(c: Conn, s: Step)
    requires Inv(c) && SendInv(c.rpc) && Ledger(c.rpc) && DisciplineInv(c) && Enabled(c, s)
    ensures Timely(c, s)
  {
    if Announces(c, s) { NothingArrived(c); }
  }

  lemma DisciplineAct(c: Conn)
    requires DisciplineInv(c) && c.active && c.prog.Then?
    requires c.prog.action == SendNext ==> !OwesClone(c.prog)
    requires c.prog.next.Then? ==> c.prog.next.action != PushWriteNeeded
    ensures DisciplineInv(Acted(c))
  {
    if c.prog.action != SendNext { ActSendFrame(c); }
    assert OwesClone(Acted(c).prog) ==> OwesClone(c.prog);
  }

  lemma DisciplineProgram(c: Conn)
    requires Inv(c) && c.prog.Then?
    ensures c.active && (c.prog.action == SendNext ==> !OwesClone(c.prog))
    ensures c.prog.next.Then? ==> c.prog.next.action != PushWriteNeeded
  {}

  lemma DisciplineBegin(c: Conn)
    requires Inv(c) && DisciplineInv(c) && Enabled(c, Begin)
    ensures DisciplineInv(Begun(c))
  {
    if c.queue[0] != WriteNeeded { BeginIsPending(c); }
    OwingProgram(c.rpc.kind, c.queue[0], c.queue[0] == WriteNeeded || c.queue[0] in c.rpc.oks, c.stopping);
    if c.queue[0] == NewConnection { assert c.rpc.calls == []; }
  }

  /** Only a new connection is replaced, and no program starts with a push. */
  lemma OwingProgram(kind: Kind, e: Event, ok: bool, stopping: bool)
    ensures var p := ProgramFor(kind, e, ok, stopping);
      (OwesClone(p) ==> e == NewConnection) && p.Then? && p.action != PushWriteNeeded
  {}

  lemma DisciplineKeeps(c: Conn, s: Step)
    requires Inv(c) && DisciplineInv(c) && Enabled(c, s) && Disciplined(c, s)
    ensures DisciplineInv(Next(c, s))
  {
    match s
    case Begin => DisciplineBegin(c);
    case Act => DisciplineProgram(c); DisciplineAct(c);
    case _ =>
  }
}
