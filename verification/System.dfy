/** The whole server: any number of services, methods, completion queues,
    event queues with one thread each, Rpcs and Writer threads, interleaved
    step by step. */
module System {
  import opened Arithmetic
  import opened Sequences
  import opened RpcCore
  import opened Connection

  datatype Method = Method(service: nat, kind: Kind)

  /** An Rpc with its completion queue and event queue. Its index in
      `Sys.slots` stands for its address. */
  datatype Slot = Slot(rpc: Rpc, active: bool, methodIndex: nat, cq: nat, eq: nat)

  /** The thread of one event queue; `clone` is the new Rpc it has in hand while it
      replaces a listener, `kept` the one it has registered and still holds a
      shared_ptr to. */
  datatype Worker =
    Worker(id: nat, prog: Program, pinned: bool, exited: bool, clone: Option<nat>, kept: Option<nat>)

  datatype Sys = Sys(
    methods: seq<Method>,
    slots: seq<Slot>,                        // every Rpc ever created
    cqs: seq<seq<Tagged<nat, Completion>>>,       // completion queues
    queues: seq<seq<Tagged<nat, Event>>>,         // event queues
    workers: seq<Worker>,                    // workers[t] serves queues[t]
    writers: map<nat, Tagged<nat, WriterPc>>,     // Writer calls in progress
    current: nat,                            // Server::current_event_queue_id_
    selected: seq<nat>,                      // history: the Rpcs queues were selected for, in order
    closing: bool,                           // Server::shutting_down_
    stopped: set<nat>,                       // services with shutting_down_ set
    down: bool,                              // grpc::Server::Shutdown was called
    shut: set<nat>)                          // completion queues that were shut down

  datatype SysStep =
    | SComplete(id: nat, event: Event, ok: bool, msg: Message)
    | SForward(q: nat)
    | SBegin(t: nat)
    | SAct(t: nat)
    | SHandlerSend(t: nat, item: SendItem)
    | SWriterLock(w: nat, id: nat, item: SendItem)
    | SWriterEnqueue(w: nat)
    | SWriterPush(w: nat)
    | SWriterReturn(w: nat)
    | SClose                                 // Server::Shutdown begins
    | SStop(service: nat)                    // Service::StopServing
    | SGrpcShutdown
    | SQueueShutdown(q: nat)                 // a completion queue is shut down
    | SExit(t: nat)                          // an event thread's last pop times out

  predicate Stopping(s: Sys, id: nat)
    requires id < |s.slots|
  {
    s.slots[id].methodIndex < |s.methods| && s.methods[s.slots[id].methodIndex].service in s.stopped
  }

  /** Some shared_ptr to Rpc `id` exists. */
  predicate Live(s: Sys, id: nat)
    requires id < |s.slots|
  {
    || s.slots[id].active
    || (exists w :: w in s.writers && s.writers[w].id == id)
    || (exists t :: 0 <= t < |s.workers| && s.workers[t].id == id && s.workers[t].pinned)
    || KeptBy(s.workers, id)
  }

  /** The thread that registered Rpc `id` still holds it. */
  predicate KeptBy(workers: seq<Worker>, id: nat) {
    exists t :: 0 <= t < |workers| && workers[t].kept == Some(id)
  }

  predicate Running(s: Sys, t: nat) {
    t < |s.workers| && s.workers[t].prog.Then? && s.workers[t].id < |s.slots|
  }

  predicate SysEnabled(s: Sys, x: SysStep) {
    match x
    case SComplete(id, e, ok, _) =>
      && id < |s.slots| && s.slots[id].cq < |s.cqs|
      && e in s.slots[id].rpc.tokens
      && (e == Done ==> s.slots[id].rpc.started)
      && (e == NewConnection && !ok ==> s.down)
    case SForward(q) =>
      q < |s.cqs| && s.cqs[q] != [] && s.cqs[q][0].id < |s.slots| && s.slots[s.cqs[q][0].id].eq < |s.queues|
    case SBegin(t) =>
      && t < |s.workers| && t < |s.queues| && s.workers[t].prog == Halt && !s.workers[t].exited
      && s.queues[t] != [] && s.queues[t][0].id < |s.slots|
    case SAct(t) => Running(s, t) && s.slots[s.workers[t].id].eq < |s.queues| && |s.queues| > 0
    case SHandlerSend(t, _) => Running(s, t) && s.workers[t].prog.action == CallbackReturn
    case SWriterLock(w, id, _) => w !in s.writers && id < |s.slots| && s.slots[id].rpc.handler
    case SWriterEnqueue(w) => w in s.writers && s.writers[w].value.Locked? && s.writers[w].id < |s.slots|
    case SWriterPush(w) =>
      && w in s.writers && s.writers[w].value == Enqueued && s.writers[w].id < |s.slots|
      && s.slots[s.writers[w].id].eq < |s.queues|
    case SWriterReturn(w) => w in s.writers && s.writers[w].value == Pushed
    case SClose => true
    case SStop(_) => s.closing
    case SGrpcShutdown => forall i :: 0 <= i < |s.methods| ==> s.methods[i].service in s.stopped
    case SQueueShutdown(q) => s.down && q < |s.cqs|
    case SExit(t) =>
      && t < |s.workers| && t < |s.queues| && s.closing && !s.workers[t].exited
      && s.workers[t].prog == Halt && s.queues[t] == []
  }

  function SetSlot(s: Sys, id: nat, r: Rpc, active: bool): Sys
    requires id < |s.slots|
  {
    s.(slots := s.slots[id := s.slots[id].(rpc := r, active := active)])
  }

  function SetRpc(s: Sys, id: nat, r: Rpc): Sys
    requires id < |s.slots|
  {
    SetSlot(s, id, r, s.slots[id].active)
  }

  function SetWorker(s: Sys, t: nat, worker: Worker): Sys
    requires t < |s.workers|
  {
    s.(workers := s.workers[t := worker])
  }

  function SetWriter(s: Sys, w: nat, id: nat, pc: WriterPc): Sys {
    s.(writers := s.writers[w := Tagged(id, pc)])
  }

  function Push(s: Sys, id: nat, e: Event): Sys
    requires id < |s.slots| && s.slots[id].eq < |s.queues|
  {
    var q := s.slots[id].eq;
    s.(queues := s.queues[q := s.queues[q] + [Tagged(id, e)]])
  }

  function Pop(s: Sys, t: nat): Sys
    requires t < |s.queues| && s.queues[t] != []
  {
    s.(queues := s.queues[t := s.queues[t][1..]])
  }

  function PushCq(s: Sys, id: nat, x: Completion): Sys
    requires id < |s.slots| && s.slots[id].cq < |s.cqs|
  {
    var q := s.slots[id].cq;
    s.(cqs := s.cqs[q := s.cqs[q] + [Tagged(id, x)]])
  }

  function PopCq(s: Sys, q: nat): Sys
    requires q < |s.cqs| && s.cqs[q] != []
  {
    s.(cqs := s.cqs[q := s.cqs[q][1..]])
  }

  function SCompleted(s: Sys, id: nat, e: Event, ok: bool, m: Message): Sys
    requires id < |s.slots| && s.slots[id].cq < |s.cqs|
  {
    PushCq(SetRpc(s, id, Post(s.slots[id].rpc, e, ok, m)), id, Completion(e, ok))
  }

  function SForwarded(s: Sys, q: nat): Sys
    requires SysEnabled(s, SForward(q))
  {
    var x := s.cqs[q][0];
    var r := s.slots[x.id].rpc;
    if Live(s, x.id) then Push(SetRpc(PopCq(s, q), x.id, StoreOk(r, x.value)), x.id, x.value.event)
    else SetRpc(PopCq(s, q), x.id, Raise(r, UseAfterFree))
  }

  function SBegun(s: Sys, t: nat): Sys
    requires SysEnabled(s, SBegin(t))
  {
    var x := s.queues[t][0];
    var d := Dispatch(s.slots[x.id].rpc, Live(s, x.id), x.value, Stopping(s, x.id));
    SetWorker(SetRpc(Pop(s, t), x.id, d.rpc), t,
              s.workers[t].(id := x.id, prog := d.prog, pinned := d.pinned, clone := None))
  }

  /** SelectNextEventQueueRoundRobin. */
  function NextQueue(s: Sys): nat
    requires |s.queues| > 0
  {
    (s.current + 1) % |s.queues|
  }

  /** Rpc::Clone: the new Rpc starts out with the origin's event queue. */
  function Cloned(s: Sys, t: nat): Sys
    requires t < |s.workers| && s.workers[t].id < |s.slots|
  {
    var origin := s.slots[s.workers[t].id];
    s.(slots := s.slots + [Slot(Fresh(origin.rpc.kind), false, origin.methodIndex, origin.cq, origin.eq)],
       workers := s.workers[t := s.workers[t].(clone := Some(|s.slots|))])
  }

  /** SetEventQueue with the next event queue. */
  function Placed(s: Sys, c: nat): Sys
    requires c < |s.slots| && |s.queues| > 0
  {
    s.(slots := s.slots[c := s.slots[c].(eq := NextQueue(s))], current := NextQueue(s), selected := s.selected + [c])
  }

  /** ActiveRpcs::Add. */
  function Added(s: Sys, c: nat): Sys
    requires c < |s.slots|
  {
    SetSlot(s, c, if s.slots[c].active then Raise(s.slots[c].rpc, AlreadyActive) else s.slots[c].rpc, true)
  }

  /** RequestNextMethodInvocation; the thread is still inside the call when gRPC
      has the tags. */
  function Registered(s: Sys, t: nat, c: nat): Sys
    requires t < |s.workers| && c < |s.slots|
  {
    SetWorker(SetRpc(s, c, RequestNextMethodInvocation(s.slots[c].rpc)), t,
              s.workers[t].(clone := None, kept := Some(c)))
  }

  /** The shared_ptr that ActiveRpcs::Add returned goes away. */
  function Dropped(s: Sys, t: nat): Sys
    requires t < |s.workers|
  {
    SetWorker(s, t, s.workers[t].(kept := None))
  }

  /** The part of an action that concerns the Rpc the thread works for. */
  function Half(s: Sys, t: nat): Sys
    requires Running(s, t)
  {
    var worker := s.workers[t];
    var o := Execute(s.slots[worker.id].rpc, s.slots[worker.id].active, Live(s, worker.id), worker.prog);
    SetWorker(SetSlot(s, worker.id, o.rpc, o.active), t,
              worker.(prog := o.prog, pinned := worker.pinned && o.prog.Then?))
  }

  /** The thread holds a new Rpc. */
  predicate Holding(s: Sys, t: nat) {
    t < |s.workers| && s.workers[t].clone.Some? && s.workers[t].clone.value < |s.slots|
  }

  /** The part of an action that goes beyond that Rpc; `h` is the state after
      the first part. */
  function Beyond(s: Sys, t: nat, h: Sys): Sys
    requires SysEnabled(s, SAct(t)) && |h.slots| == |s.slots| && |h.workers| == |s.workers|
    requires h.queues == s.queues && h.slots[s.workers[t].id].eq == s.slots[s.workers[t].id].eq
    requires h.workers[t].id == s.workers[t].id && h.workers[t].clone == s.workers[t].clone
  {
    var id, action := s.workers[t].id, s.workers[t].prog.action;
    if action == PushWriteNeeded && s.slots[id].active then Push(h, id, WriteNeeded)
    else if action == CloneRpc && Live(s, id) then Cloned(h, t)
    else if action == SelectQueue && Holding(s, t) then Placed(h, s.workers[t].clone.value)
    else if action == AddClone && Holding(s, t) then Added(h, s.workers[t].clone.value)
    else if action == Register && Holding(s, t) then Registered(h, t, s.workers[t].clone.value)
    else if action == DropClone then Dropped(h, t)
    else h
  }

  function SActed(s: Sys, t: nat): Sys
    requires SysEnabled(s, SAct(t))
  {
    Beyond(s, t, Half(s, t))
  }

  function SHandlerSent(s: Sys, t: nat, item: SendItem): Sys
    requires SysEnabled(s, SHandlerSend(t, item))
  {
    var worker := s.workers[t];
    var r := s.slots[worker.id].rpc;
    if Live(s, worker.id) then
      SetWorker(SetRpc(s, worker.id, EnqueueMessage(r, item)), t, worker.(prog := Then(PushWriteNeeded, worker.prog)))
    else
      SetRpc(s, worker.id, Raise(r, UseAfterFree))
  }

  function SWriterEnqueued(s: Sys, w: nat): Sys
    requires SysEnabled(s, SWriterEnqueue(w))
  {
    var id := s.writers[w].id;
    SetWriter(SetRpc(s, id, EnqueueMessage(s.slots[id].rpc, s.writers[w].value.item)), w, id, Enqueued)
  }

  function SWriterPushed(s: Sys, w: nat): Sys
    requires SysEnabled(s, SWriterPush(w))
  {
    var id := s.writers[w].id;
    if s.slots[id].active then Push(SetWriter(s, w, id, Pushed), id, WriteNeeded)
    else SetWriter(SetRpc(s, id, Raise(s.slots[id].rpc, WeakPtrCheck)), w, id, Pushed)
  }

  function SysNext(s: Sys, x: SysStep): Sys
    requires SysEnabled(s, x)
  {
    match x
    case SComplete(id, e, ok, m) => SCompleted(s, id, e, ok, m)
    case SForward(q) => SForwarded(s, q)
    case SBegin(t) => SBegun(s, t)
    case SAct(t) => SActed(s, t)
    case SHandlerSend(t, item) => SHandlerSent(s, t, item)
    case SWriterLock(w, id, item) => if Live(s, id) then SetWriter(s, w, id, Locked(item)) else s
    case SWriterEnqueue(w) => SWriterEnqueued(s, w)
    case SWriterPush(w) => SWriterPushed(s, w)
    case SWriterReturn(w) => s.(writers := s.writers - {w})
    case SClose => s.(closing := true)
    case SStop(service) => s.(stopped := s.stopped + {service})
    case SGrpcShutdown => s.(down := true)
    case SQueueShutdown(q) => s.(shut := s.shut + {q})
    case SExit(t) => SetWorker(s, t, s.workers[t].(exited := true))
  }

  /** The server after Server::Start: one listener per method and completion
      queue, spread round-robin over the event queues. */
  function Started(methods: seq<Method>, numCqs: nat, numQueues: nat): Sys
    requires numQueues > 0
  {
    var n := |methods| * numCqs;
    Sys(methods,
        seq(n, i requires 0 <= i < n => ListenerSlot(methods, numCqs, numQueues, i)),
        seq(numCqs, _ => []), seq(numQueues, _ => []), seq(numQueues, _ => Worker(0, Halt, false, false, None, None)),
        map[], n % numQueues, seq(n, i => i), false, {}, false, {})
  }

  function ListenerSlot(methods: seq<Method>, numCqs: nat, numQueues: nat, i: nat): Slot
    requires i < |methods| * numCqs && numQueues > 0
  {
    SlotIndex(|methods|, numCqs, i);
    Slot(RequestNextMethodInvocation(Fresh(methods[i / numCqs].kind)), true,
         i / numCqs, i % numCqs, (i + 1) % numQueues)
  }

  /** The listener for a method on a completion queue. */
  lemma StartedSlot(methods: seq<Method>, numCqs: nat, numQueues: nat, m: nat, q: nat)
    requires numQueues > 0 && m < |methods| && q < numCqs
    ensures var slots, i := Started(methods, numCqs, numQueues).slots, m * numCqs + q;
      && i < |slots|
      && slots[i] ==
           Slot(RequestNextMethodInvocation(Fresh(methods[m].kind)), true, m, q, (i + 1) % numQueues)
  {
    PairIndex(|methods|, numCqs, m, q);
    var i := m * numCqs + q;
    assert Started(methods, numCqs, numQueues).slots[i] == ListenerSlot(methods, numCqs, numQueues, i);
  }

  predicate IsSysRun(s: Sys, steps: seq<SysStep>)
    decreases |steps|
  {
    steps == [] || (SysEnabled(s, steps[0]) && IsSysRun(SysNext(s, steps[0]), steps[1..]))
  }

  function SysRun(s: Sys, steps: seq<SysStep>): Sys
    requires IsSysRun(s, steps)
    decreases |steps|
  {
    if steps == [] then s else SysRun(SysNext(s, steps[0]), steps[1..])
  }
}
