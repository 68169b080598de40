/** The life of one `Rpc`: gRPC completes its operations, the completion queue
    thread forwards them to its event queue, the event thread runs the handler
    programs one action at a time, and `Writer` calls from other threads
    interleave with all of it. */
module Connection {
  import opened RpcCore

  /** Progress of one Writer call: it holds a shared_ptr throughout. */
  datatype WriterPc = Locked(item: SendItem) | Enqueued | Pushed

  datatype Conn = Conn(
    rpc: Rpc,
    active: bool,                  // active_rpcs_ holds the Rpc
    cq: seq<Completion>,           // its entries on its completion queue
    queue: seq<Event>,             // its entries on its event queue
    prog: Program,                 // what its event thread still has to do for it
    pinned: bool,                  // the event thread holds a shared_ptr
    held: bool,                    // the thread that registered the Rpc still holds one
    writers: map<nat, WriterPc>,   // Writer calls in progress, by thread
    stopping: bool,                // Service::shutting_down_
    down: bool)                    // grpc::Server::Shutdown was called

  /** Some shared_ptr to the Rpc exists. */
  predicate Alive(c: Conn) {
    c.active || c.writers != map[] || c.pinned || c.held
  }

  datatype Step =
    | Complete(event: Event, ok: bool, msg: Message)
    | Forward
    | Begin
    | Act
    | HandlerSend(item: SendItem)
    | WriterLock(w: nat, item: SendItem)
    | WriterEnqueue(w: nat)
    | WriterPush(w: nat)
    | WriterReturn(w: nat)
    | Drop                         // the registering thread lets go
    | StopServing
    | GrpcShutdown

  /** The gRPC contract and the control flow of the threads. A call is only
      reported as failed once the gRPC server shuts down, DONE is only reported
      for accepted calls, and a Writer is only obtained from a handler. */
  predicate Enabled(c: Conn, s: Step) {
    match s
    case Complete(e, ok, _) =>
      && e in c.rpc.tokens
      && (e == Done ==> c.rpc.started)
      && (e == NewConnection && !ok ==> c.down)
    case Forward => c.cq != []
    case Begin => c.prog == Halt && c.queue != []
    case Act => c.prog.Then?
    case HandlerSend(_) => c.prog.Then? && c.prog.action == CallbackReturn
    case WriterLock(w, _) => w !in c.writers && c.rpc.handler
    case WriterEnqueue(w) => w in c.writers && c.writers[w].Locked?
    case WriterPush(w) => w in c.writers && c.writers[w] == Enqueued
    case WriterReturn(w) => w in c.writers && c.writers[w] == Pushed
    case Drop => c.held
    case StopServing => true
    case GrpcShutdown => c.stopping
  }

  function Next(c: Conn, s: Step): Conn
    requires Enabled(c, s)
  {
    match s
    case Complete(e, ok, m) => Completed(c, e, ok, m)
    case Forward => Forwarded(c)
    case Begin => Begun(c)
    case Act => Acted(c)
    case HandlerSend(item) => HandlerSent(c, item)
    case WriterLock(w, item) => if Alive(c) then c.(writers := c.writers[w := Locked(item)]) else c
    case WriterEnqueue(w) => WriterEnqueued(c, w)
    case WriterPush(w) => WriterPushed(c, w)
    case WriterReturn(w) => c.(writers := c.writers - {w})
    case Drop => c.(held := false)
    case StopServing => c.(stopping := true)
    case GrpcShutdown => c.(down := true)
  }

  function Completed(c: Conn, e: Event, ok: bool, m: Message): Conn {
    c.(rpc := Post(c.rpc, e, ok, m), cq := c.cq + [Completion(e, ok)])
  }

  function Forwarded(c: Conn): Conn
    requires c.cq != []
  {
    if Alive(c) then
      c.(rpc := StoreOk(c.rpc, c.cq[0]), cq := c.cq[1..], queue := c.queue + [c.cq[0].event])
    else
      c.(rpc := Raise(c.rpc, UseAfterFree), cq := c.cq[1..])
  }

  function Begun(c: Conn): Conn
    requires c.queue != []
  {
    var d := Dispatch(c.rpc, Alive(c), c.queue[0], c.stopping);
    c.(rpc := d.rpc, prog := d.prog, pinned := d.pinned, queue := c.queue[1..])
  }

  function Acted(c: Conn): Conn
    requires c.prog.Then?
  {
    var o := Execute(c.rpc, c.active, Alive(c), c.prog);
    c.(rpc := o.rpc, active := o.active, prog := o.prog,
       queue := if o.pushed then c.queue + [WriteNeeded] else c.queue,
       pinned := c.pinned && o.prog.Then?)
  }

  function HandlerSent(c: Conn, item: SendItem): Conn {
    if Alive(c) then
      c.(rpc := EnqueueMessage(c.rpc, item), prog := Then(PushWriteNeeded, c.prog))
    else
      c.(rpc := Raise(c.rpc, UseAfterFree))
  }

  function WriterEnqueued(c: Conn, w: nat): Conn
    requires w in c.writers && c.writers[w].Locked?
  {
    c.(rpc := EnqueueMessage(c.rpc, c.writers[w].item), writers := c.writers[w := Enqueued])
  }

  function WriterPushed(c: Conn, w: nat): Conn {
    if c.active then c.(queue := c.queue + [WriteNeeded], writers := c.writers[w := Pushed])
    else c.(rpc := Raise(c.rpc, WeakPtrCheck), writers := c.writers[w := Pushed])
  }

  /** Only SendNext and StartRead start operations; the other actions leave
      flags, tags, queues and sends alone. */
  lemma QuietAct(c: Conn)
    requires c.prog.Then? && c.prog.action != SendNext && c.prog.action != StartRead
    ensures var r, r' := c.rpc, Acted(c).rpc;
      && r'.kind == r.kind && r'.pending == r.pending && r'.oks == r.oks && r'.tokens == r.tokens
      && r'.started == r.started && r'.posted == r.posted && r'.handled == r.handled && r'.calls == r.calls
      && r'.sendQueue == r.sendQueue && r'.enqueued == r.enqueued && r'.response == r.response
      && r'.request == r.request && r'.received == r.received
  {}

  lemma ActSends(c: Conn)
    requires c.prog.Then? && c.prog.action == SendNext
    ensures Acted(c).rpc == if Alive(c) then HandleSendQueue(c.rpc) else Raise(c.rpc, UseAfterFree)
  {}

  lemma ActReads(c: Conn)
    requires c.prog.Then? && c.prog.action == StartRead
    ensures Acted(c).rpc == if Alive(c) then IssueRead(c.rpc) else Raise(c.rpc, UseAfterFree)
  {}

  lemma ActProgram(c: Conn)
    requires Alive(c) && c.prog.Then?
    ensures Acted(c).prog == c.prog.next || Acted(c).prog == Then(CallbackReturn, c.prog.next)
  {}

  lemma ActQueue(c: Conn)
    requires c.prog.Then?
    ensures Acted(c).queue ==
      if c.prog.action == PushWriteNeeded && c.active then c.queue + [WriteNeeded] else c.queue
  {}

  /** A registered Rpc waiting for its call. */
  function Listener(kind: Kind, stopping: bool, down: bool, held: bool): Conn {
    Conn(RequestNextMethodInvocation(Fresh(kind)), true, [], [], Halt, false, held, map[], stopping, down)
  }

  // ---------------------------------------------------------------------
  // The hypotheses on removal

  /** The next action takes the Rpc out of active_rpcs_. */
  predicate Removing(c: Conn) {
    && c.active
    && c.prog.Then?
    && (c.prog.action == Remove || (c.prog.action == RemoveIfNotPending && !IsAnyEventPending(c.rpc)))
  }

  /** The Rpc is dropped although gRPC accepted a call for it. */
  predicate RefusesAcceptedCall(c: Conn) {
    c.prog.Then? && c.prog.action == Remove && NewConnection in c.rpc.oks
  }

  /** A Rpc that was served to its end is still held by the thread that registered it. */
  predicate OutlivesService(c: Conn) {
    c.held && c.rpc.handler
  }

  /** When the Rpc is removed, no Writer call is in progress, no accepted call is
      refused, and the registering thread has let go of an Rpc with a handler. */
  predicate Admissible(c: Conn, s: Step) {
    s == Act && Removing(c) ==> c.writers == map[] && !RefusesAcceptedCall(c) && !OutlivesService(c)
  }

  /** `steps` is a run from `c`; every step is enabled. */
  predicate IsRun(c: Conn, steps: seq<Step>)
    decreases |steps|
  {
    steps == [] || (Enabled(c, steps[0]) && IsRun(Next(c, steps[0]), steps[1..]))
  }

  predicate AdmissibleRun(c: Conn, steps: seq<Step>)
    decreases |steps|
  {
    steps == [] ||
    (Enabled(c, steps[0]) && Admissible(c, steps[0]) && AdmissibleRun(Next(c, steps[0]), steps[1..]))
  }

  function Run(c: Conn, steps: seq<Step>): Conn
    requires IsRun(c, steps)
    decreases |steps|
  {
    if steps == [] then c else Run(Next(c, steps[0]), steps[1..])
  }

  lemma {:induction false} RunSnoc(c: Conn, steps: seq<Step>, s: Step)
    requires IsRun(c, steps) && Enabled(Run(c, steps), s)
    ensures IsRun(c, steps + [s]) && Run(c, steps + [s]) == Next(Run(c, steps), s)
    decreases |steps|
  {
    if steps != [] {
      RunSnoc(Next(c, steps[0]), steps[1..], s);
      assert (steps + [s])[1..] == steps[1..] + [s];
    }
  }

  lemma RunCons(c: Conn, s: Step, rest: seq<Step>)
    requires Enabled(c, s) && IsRun(Next(c, s), rest)
    ensures IsRun(c, [s] + rest) && Run(c, [s] + rest) == Run(Next(c, s), rest)
  {
    assert ([s] + rest)[1..] == rest;
  }
}
