/** The send queue of an Rpc: order, exactly-once hand-over, the response
    buffer, and absence of stalls. */
module Sending {
  import opened RpcCore
  import opened Connection

  /** The items handed to gRPC, in call order. */
  function Items(calls: seq<Call>): seq<SendItem> {
    seq(|calls|, i requires 0 <= i < |calls| => calls[i].item)
  }

  /** The kind of gRPC call an item needs: everything without a message and
      every response of a unary-response method goes out as a Finish. */
  predicate RightCall(kind: Kind, call: Call) {
    call.FinishCall? <==> call.item.msg.None? || !kind.StreamsResponses()
  }

  predicate Finished(calls: seq<Call>) {
    exists i :: 0 <= i < |calls| && calls[i].FinishCall?
  }

  /** An outstanding Write or Finish is the last call made, and gRPC still
      reads its message from response_. */
  predicate Outstanding(r: Rpc) {
    Write in r.pending || Finish in r.pending ==>
      && r.calls != []
      && var last := r.calls[|r.calls| - 1];
      && (Write in r.pending <==> last.WriteCall?)
      && (Finish in r.pending <==> last.FinishCall?)
      && (last.WriteCall? || !r.kind.StreamsResponses() ==> r.response == last.item.msg)
  }

  /** Hand-overs followed by the queue are everything ever enqueued. */
  predicate SendInv(r: Rpc) {
    && r.enqueued == Items(r.calls) + r.sendQueue
    && (forall i :: 0 <= i < |r.calls| ==> RightCall(r.kind, r.calls[i]))
    && Outstanding(r)
  }

  /** Somebody will still look at the send queue. */
  predicate Attended(c: Conn) {
    || Write in c.rpc.pending
    || WriteNeeded in c.queue
    || (exists w :: w in c.writers && c.writers[w] == Enqueued)
    || (c.prog.Then? && (c.prog.action == PushWriteNeeded || c.prog.action == SendNext))
  }

  predicate StallInv(c: Conn) {
    c.active && c.rpc.sendQueue != [] && !Finished(c.rpc.calls) ==> Attended(c)
  }

  lemma ItemsAppend(calls: seq<Call>, x: Call)
    ensures Items(calls + [x]) == Items(calls) + [x.item]
  {}

  /** The call HandleSendQueue makes for an item. */
  function CallFor(kind: Kind, item: SendItem): Call {
    if item.msg.None? || !kind.StreamsResponses() then FinishCall(item) else WriteCall(item)
  }

  /** HandleSendQueue either finds nothing to do, or hands over the head of the
      queue as the right call. */
  lemma SendNextEffect(r: Rpc)
    ensures var r' := HandleSendQueue(r);
      if r.sendQueue == [] || Write in r.pending || Finish in r.pending then r' == r
      else
        var call := CallFor(r.kind, r.sendQueue[0]);
        && r'.kind == r.kind && r'.enqueued == r.enqueued
        && r'.sendQueue == r.sendQueue[1..] && r'.calls == r.calls + [call]
        && r'.pending == r.pending + {if call.WriteCall? then Write else Finish}
        && (call.WriteCall? || !r.kind.StreamsResponses() ==> r'.response == call.item.msg)
  {}

  lemma HandleSendQueueKeeps(r: Rpc)
    requires SendInv(r)
    ensures SendInv(HandleSendQueue(r))
  {
    SendNextEffect(r);
    var r' := HandleSendQueue(r);
    if r' != r {
      ItemsAppend(r.calls, CallFor(r.kind, r.sendQueue[0]));
      assert r.sendQueue == [r.sendQueue[0]] + r.sendQueue[1..];
    }
  }

  /** The two memories agree on everything to do with sending, except that an
      outstanding Write or Finish may have been handled. */
  predicate SameSends(r: Rpc, r': Rpc) {
    && r'.kind == r.kind && r'.sendQueue == r.sendQueue && r'.enqueued == r.enqueued
    && r'.calls == r.calls && r'.response == r.response
    && (Write in r'.pending ==> Write in r.pending)
    && (Finish in r'.pending ==> Finish in r.pending)
  }

  /** The steps that enqueue or hand over. */
  predicate Sends(c: Conn, s: Step) {
    s.HandlerSend? || s.WriterEnqueue? || (s == Act && c.prog.Then? && c.prog.action == SendNext)
  }

  lemma ExecuteSendFrame(r: Rpc, active: bool, alive: bool, p: Program)
    requires p.Then? && p.action != SendNext
    ensures SameSends(r, Execute(r, active, alive, p).rpc) && r.pending <= Execute(r, active, alive, p).rpc.pending
  {}

  lemma ActSendFrame(c: Conn)
    requires c.prog.Then? && c.prog.action != SendNext
    ensures SameSends(c.rpc, Acted(c).rpc) && c.rpc.pending <= Acted(c).rpc.pending
  {
    ExecuteSendFrame(c.rpc, c.active, Alive(c), c.prog);
  }

  lemma PostSendFrame(r: Rpc, e: Event, ok: bool, m: Message)
    ensures SameSends(r, Post(r, e, ok, m))
  {}

  lemma DispatchSendFrame(r: Rpc, alive: bool, e: Event, stopping: bool)
    ensures SameSends(r, Dispatch(r, alive, e, stopping).rpc)
  {}

  lemma ForwardSendFrame(c: Conn)
    requires c.cq != []
    ensures SameSends(c.rpc, Forwarded(c).rpc)
  {}

  lemma SendFrame(c: Conn, s: Step)
    requires Enabled(c, s) && !Sends(c, s)
    ensures SameSends(c.rpc, Next(c, s).rpc)
  {
    match s
    case Act => ActSendFrame(c);
    case Complete(e, ok, m) => PostSendFrame(c.rpc, e, ok, m);
    case Forward => ForwardSendFrame(c);
    case Begin => DispatchSendFrame(c.rpc, Alive(c), c.queue[0], c.stopping);
    case _ =>
  }

  lemma EnqueueMessageKeeps(r: Rpc, item: SendItem)
    requires SendInv(r)
    ensures SendInv(EnqueueMessage(r, item))
  {}

  /** What the step adds to the send queue, at its end. */
  function Passed(c: Conn, s: Step): seq<SendItem>
    requires Enabled(c, s)
  {
    match s
    case HandlerSend(item) => if Alive(c) then [item] else []
    case WriterEnqueue(w) => [c.writers[w].item]
    case _ => []
  }

  lemma EnqueuedStep(c: Conn, s: Step)
    requires Enabled(c, s)
    ensures Next(c, s).rpc.enqueued == c.rpc.enqueued + Passed(c, s)
  {
    match s
    case HandlerSend(item) =>
    case WriterEnqueue(w) =>
    case _ => if Sends(c, s) { SendNextEffect(c.rpc); } else { SendFrame(c, s); }
  }

  lemma SendKeeps(c: Conn, s: Step)
    requires SendInv(c.rpc) && Enabled(c, s)
    ensures var r, r' := c.rpc, Next(c, s).rpc;
      SendInv(r') && Items(r'.calls) + r'.sendQueue == Items(r.calls) + r.sendQueue + Passed(c, s)
  {
    EnqueuedStep(c, s);
    SendInvKeeps(c, s);
  }

  lemma SendInvKeeps(c: Conn, s: Step)
    requires SendInv(c.rpc) && Enabled(c, s)
    ensures SendInv(Next(c, s).rpc)
  {
    match s
    case HandlerSend(item) => HandlerSendKeeps(c, item);
    case WriterEnqueue(w) => EnqueueMessageKeeps(c.rpc, c.writers[w].item);
    case Act => ActSendKeeps(c);
    case _ => SendFrame(c, s); SendInvFrame(c.rpc, Next(c, s).rpc);
  }

  lemma SendInvFrame(r: Rpc, r': Rpc)
    requires SendInv(r) && SameSends(r, r')
    ensures SendInv(r')
  {}

  lemma HandlerSendKeeps(c: Conn, item: SendItem)
    requires SendInv(c.rpc)
    ensures SendInv(HandlerSent(c, item).rpc)
  {
    EnqueueMessageKeeps(c.rpc, item);
  }

  lemma ActSendKeeps(c: Conn)
    requires SendInv(c.rpc) && c.prog.Then?
    ensures SendInv(Acted(c).rpc)
  {
    if c.prog.action == SendNext {
      HandleSendQueueKeeps(c.rpc);
    } else {
      ActSendFrame(c);
      SendInvFrame(c.rpc, Acted(c).rpc);
    }
  }

  /** HandleSendQueue leaves a nonempty queue alone only while a Write or
      Finish is outstanding. */
  lemma SendNextAttends(r: Rpc)
    requires SendInv(r)
    ensures var r' := HandleSendQueue(r);
      r'.sendQueue != [] && !Finished(r'.calls) ==> Write in r'.pending
  {
    var r' := HandleSendQueue(r);
    if Finish in r'.pending {
      HandleSendQueueKeeps(r);
      assert r'.calls[|r'.calls| - 1].FinishCall?;
    }
  }

  lemma StallKeepsAct(c: Conn)
    requires SendInv(c.rpc) && StallInv(c) && c.prog.Then?
    ensures StallInv(Acted(c))
  {
    if c.active && c.prog.action == SendNext {
      SendNextAttends(c.rpc);
    } else if c.active {
      ActQueue(c);
      ActSendFrame(c);
      StillAttended(c, Acted(c));
    }
  }

  lemma StillAttended(c: Conn, c': Conn)
    requires StallInv(c) && c.active && c.prog.Then? && c.prog.action != SendNext
    requires SameSends(c.rpc, c'.rpc) && c.rpc.pending <= c'.rpc.pending && c'.writers == c.writers
    requires c'.queue == if c.prog.action == PushWriteNeeded then c.queue + [WriteNeeded] else c.queue
    ensures StallInv(c')
  {
    if c.prog.action == PushWriteNeeded { assert c'.queue[|c.queue|] == WriteNeeded; }
  }

  lemma EnqueuedStays(c: Conn, c': Conn)
    requires StallInv(c) && c' == c.(writers := c'.writers)
    requires forall w :: w in c.writers && c.writers[w] == Enqueued ==> w in c'.writers && c'.writers[w] == Enqueued
    ensures StallInv(c')
  {}

  lemma StallKeepsBegin(c: Conn)
    requires StallInv(c) && Enabled(c, Begin)
    ensures StallInv(Begun(c))
  {
    if WriteNeeded in c.queue && c.queue[0] != WriteNeeded { assert WriteNeeded in c.queue[1..]; }
  }

  lemma StallKeepsForward(c: Conn)
    requires StallInv(c) && c.cq != []
    ensures StallInv(Forwarded(c))
  {
    assert WriteNeeded in c.queue ==> WriteNeeded in Forwarded(c).queue;
  }

  lemma StallKeepsSend(c: Conn, s: Step)
    requires StallInv(c) && Enabled(c, s) && (s.HandlerSend? || s.WriterEnqueue? || s.WriterPush?)
    ensures StallInv(Next(c, s))
  {
    var c' := Next(c, s);
    match s
    case WriterEnqueue(w) => assert w in c'.writers && c'.writers[w] == Enqueued;
    case WriterPush(w) => assert c.active ==> c'.queue[|c.queue|] == WriteNeeded;
    case _ =>
  }

  lemma StallKeeps(c: Conn, s: Step)
    requires SendInv(c.rpc) && StallInv(c) && Enabled(c, s)
    ensures StallInv(Next(c, s))
  {
    match s
    case Act => StallKeepsAct(c);
    case Begin => StallKeepsBegin(c);
    case Forward => StallKeepsForward(c);
    case HandlerSend(_) => StallKeepsSend(c, s);
    case WriterEnqueue(_) => StallKeepsSend(c, s);
    case WriterPush(_) => StallKeepsSend(c, s);
    case WriterLock(_, _) => EnqueuedStays(c, Next(c, s));
    case WriterReturn(_) => EnqueuedStays(c, Next(c, s));
    case _ =>
  }

  /** While a Write or Finish is outstanding, no step changes the buffer gRPC
      is reading or makes another call. */
  lemma ResponseStable(c: Conn, s: Step)
    requires Enabled(c, s)
    requires Write in c.rpc.pending || Finish in c.rpc.pending
    ensures Next(c, s).rpc.response == c.rpc.response
    ensures Next(c, s).rpc.calls == c.rpc.calls
  {
    match s
    case HandlerSend(item) => assert Next(c, s).rpc == HandlerSent(c, item).rpc;
    case WriterEnqueue(w) => assert Next(c, s).rpc == WriterEnqueued(c, w).rpc;
    case Act => if c.prog.action == SendNext { SendNextEffect(c.rpc); } else { ActSendFrame(c); }
    case _ => SendFrame(c, s);
  }
}
