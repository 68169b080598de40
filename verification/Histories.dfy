/** What the histories in the memory of an Rpc record, told from the steps of a
    run instead: what its senders passed to it and what gRPC delivered to it. */
module Histories {
  import opened RpcCore
  import opened Sequences
  import opened Connection
  import opened Sending

  lemma {:induction false} SplitLast(c: Conn, steps: seq<Step>)
    requires IsRun(c, steps) && steps != []
    ensures IsRun(c, Init(steps)) && Enabled(Run(c, Init(steps)), Last(steps))
    ensures Run(c, steps) == Next(Run(c, Init(steps)), Last(steps))
    decreases |steps|
  {
    if |steps| > 1 {
      SplitLast(Next(c, steps[0]), steps[1..]);
      assert Init(steps)[1..] == Init(steps[1..]);
    }
  }

  // ---------------------------------------------------------------------
  // Senders

  /** What the Writer call of thread `w` carries: the item it began with. */
  function Carried(writers: map<nat, WriterPc>, steps: seq<Step>, w: nat): Option<SendItem>
    decreases |steps|
  {
    if steps == [] then if w in writers && writers[w].Locked? then Some(writers[w].item) else None
    else if Last(steps).WriterLock? && Last(steps).w == w then Some(Last(steps).item)
    else Carried(writers, Init(steps), w)
  }

  /** What the senders have passed on, in the order of their steps: the item of
      each Send or Finish a handler makes while the Rpc is alive, and of each
      Writer call that gets to the send queue the item it began with. */
  function SentItems(c: Conn, steps: seq<Step>): seq<SendItem>
    requires IsRun(c, steps)
    decreases |steps|
  {
    if steps == [] then []
    else
      SplitLast(c, steps);
      var before, s := Init(steps), Last(steps);
      SentItems(c, before) +
      match s
      case HandlerSend(item) => if Alive(Run(c, before)) then [item] else []
      case WriterEnqueue(w) => var x := Carried(c.writers, before, w); if x.Some? then [x.value] else []
      case _ => []
  }

  /** A Writer call in progress has not forgotten its item. */
  lemma {:induction false} LockedIsCarried(c: Conn, steps: seq<Step>, w: nat)
    requires IsRun(c, steps) && w in Run(c, steps).writers && Run(c, steps).writers[w].Locked?
    ensures Carried(c.writers, steps, w) == Some(Run(c, steps).writers[w].item)
    decreases |steps|
  {
    if steps != [] {
      SplitLast(c, steps);
      LockedStep(Run(c, Init(steps)), Last(steps), w);
      if !(Last(steps).WriterLock? && Last(steps).w == w) { LockedIsCarried(c, Init(steps), w); }
    }
  }

  lemma LockedStep(c: Conn, s: Step, w: nat)
    requires Enabled(c, s) && w in Next(c, s).writers && Next(c, s).writers[w].Locked?
    ensures if s.WriterLock? && s.w == w then Next(c, s).writers[w].item == s.item
      else w in c.writers && c.writers[w] == Next(c, s).writers[w]
  {}

  lemma {:induction false} SendersAreRecorded(c: Conn, steps: seq<Step>)
    requires IsRun(c, steps)
    ensures Run(c, steps).rpc.enqueued == c.rpc.enqueued + SentItems(c, steps)
    decreases |steps|
  {
    if steps != [] {
      SplitLast(c, steps);
      var before := Run(c, Init(steps));
      SendersAreRecorded(c, Init(steps));
      EnqueuedStep(before, Last(steps));
      if Last(steps).WriterEnqueue? { LockedIsCarried(c, Init(steps), Last(steps).w); }
    }
  }

  /** Send order and exactly-once, on every run, admissible or not: what gRPC was
      handed and what is still queued is, in this order, what was there before
      and what the senders passed on since. */
  lemma SendOrder(c: Conn, steps: seq<Step>)
    requires SendInv(c.rpc) && IsRun(c, steps)
    ensures var r, r' := c.rpc, Run(c, steps).rpc;
      SendInv(r') && Items(r'.calls) + r'.sendQueue == Items(r.calls) + r.sendQueue + SentItems(c, steps)
  {
    SendRun(c, steps);
    SendersAreRecorded(c, steps);
  }

  lemma {:induction false} SendRun(c: Conn, steps: seq<Step>)
    requires SendInv(c.rpc) && IsRun(c, steps)
    ensures SendInv(Run(c, steps).rpc)
    decreases |steps|
  {
    if steps != [] {
      SendKeeps(c, steps[0]);
      SendRun(Next(c, steps[0]), steps[1..]);
    }
  }

  // ---------------------------------------------------------------------
  // gRPC

  /** The completions gRPC reported. */
  function Reported(steps: seq<Step>): seq<Completion>
    decreases |steps|
  {
    if steps == [] then [] else Reported(Init(steps)) + ReportedBy(Last(steps))
  }

  function ReportedBy(s: Step): seq<Completion> {
    if s.Complete? then [Completion(s.event, s.ok)] else []
  }

  /** The messages gRPC stored: with each read that succeeds, and with the call
      itself if its method takes a single request. */
  function Delivered(kind: Kind, steps: seq<Step>): seq<Message>
    decreases |steps|
  {
    if steps == [] then [] else Delivered(kind, Init(steps)) + DeliveredBy(kind, Last(steps))
  }

  function DeliveredBy(kind: Kind, s: Step): seq<Message> {
    match s
    case Complete(Read, true, m) => [m]
    case Complete(NewConnection, true, m) => if kind == NormalRpc || kind == ServerStreaming then [m] else []
    case _ => []
  }

  /** `reported` and `stored` are what the Rpc saw of gRPC from `r` to `r'`. */
  predicate Saw(r: Rpc, r': Rpc, reported: seq<Completion>, stored: seq<Message>) {
    r'.kind == r.kind && r'.posted == r.posted + reported && r'.received == r.received + stored
  }

  lemma DeliveryStep(c: Conn, s: Step)
    requires Enabled(c, s)
    ensures Saw(c.rpc, Next(c, s).rpc, ReportedBy(s), DeliveredBy(c.rpc.kind, s))
  {
    match s
    case Complete(e, ok, m) => PostDelivers(c.rpc, e, ok, m);
    case Act => ActDelivers(c);
    case Begin => DispatchDelivers(c.rpc, Alive(c), c.queue[0], c.stopping);
    case _ =>
  }

  lemma PostDelivers(r: Rpc, e: Event, ok: bool, m: Message)
    ensures Saw(r, Post(r, e, ok, m), [Completion(e, ok)], DeliveredBy(r.kind, Complete(e, ok, m)))
  {}

  lemma ActDelivers(c: Conn)
    requires c.prog.Then?
    ensures Saw(c.rpc, Acted(c).rpc, [], [])
  {
    if c.prog.action == SendNext { ActSends(c); SendDelivers(c.rpc); }
    else if c.prog.action == StartRead { ActReads(c); }
    else { QuietAct(c); }
  }

  lemma SendDelivers(r: Rpc)
    ensures Saw(r, HandleSendQueue(r), [], []) && Saw(r, Raise(r, UseAfterFree), [], [])
  {}

  lemma DispatchDelivers(r: Rpc, alive: bool, e: Event, stopping: bool)
    ensures Saw(r, Dispatch(r, alive, e, stopping).rpc, [], [])
  {}

  /** On every run the Rpc has seen what gRPC reported and stored, in order. */
  lemma {:induction false} DeliveriesAreRecorded(c: Conn, steps: seq<Step>)
    requires IsRun(c, steps)
    ensures Saw(c.rpc, Run(c, steps).rpc, Reported(steps), Delivered(c.rpc.kind, steps))
    decreases |steps|
  {
    if steps != [] {
      SplitLast(c, steps);
      DeliveriesAreRecorded(c, Init(steps));
      DeliveryStep(Run(c, Init(steps)), Last(steps));
    }
  }
}
