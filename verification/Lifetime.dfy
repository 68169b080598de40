/** Flags, tags and lifetimes: the invariant that ties the pending flags of an
    Rpc to the tags in flight and keeps the Rpc in active_rpcs_ while any tag is. */
module Lifetime {
  import opened RpcCore
  import opened Connection

  function Events(cq: seq<Completion>): seq<Event> {
    seq(|cq|, i requires 0 <= i < |cq| => cq[i].event)
  }

  /** How many tags for `e` are on their way: in gRPC, on the completion
      queue or on the event queue. */
  function InFlight(c: Conn, e: Event): nat {
    c.rpc.tokens[e] + multiset(Events(c.cq))[e] + multiset(c.queue)[e]
  }

  /** The outcomes the event thread will read for the completions in `q`. */
  function Results(q: seq<Event>, oks: set<Event>): seq<Completion> {
    if q == [] then []
    else (if q[0] == WriteNeeded then [] else [Completion(q[0], q[0] in oks)]) + Results(q[1..], oks)
  }

  /** gRPC reported the call as failed. */
  predicate Failed(r: Rpc) {
    r.posted != [] && r.posted[0] == Completion(NewConnection, false)
  }

  /** The pending flag of `e` is set exactly when one tag for `e` is in flight,
      and never two are. The DONE registration of a failed call is void. */
  predicate Tracked(c: Conn, e: Event) {
    InFlight(c, e) == (if e in c.rpc.pending && !(e == Done && Failed(c.rpc)) then 1 else 0)
  }

  predicate AllTracked(c: Conn) {
    && Tracked(c, NewConnection) && Tracked(c, Read) && Tracked(c, Write)
    && Tracked(c, Finish) && Tracked(c, Done)
    && WriteNeeded !in c.rpc.pending && WriteNeeded !in c.rpc.tokens && WriteNeeded !in Events(c.cq)
  }

  /** Completions are dispatched in the order gRPC reported them, with the
      outcomes gRPC reported. */
  predicate Fifo(c: Conn) {
    c.rpc.posted == c.rpc.handled + Results(c.queue, c.rpc.oks) + c.cq
  }

  /** No handler yet, so nothing was sent and nobody can send. */
  predicate Untouched(c: Conn) {
    && !c.rpc.handler && c.rpc.sendQueue == [] && c.rpc.enqueued == [] && c.rpc.calls == []
    && c.rpc.callbacks == [] && c.writers == map[] && WriteNeeded !in c.queue
  }

  predicate Listening(c: Conn) {
    && c.rpc.pending == {NewConnection, Done}
    && Untouched(c) && c.prog == Halt && c.rpc.handled == []
    && (if c.rpc.posted == [] then !c.rpc.started
        else
          && c.rpc.posted[0] == Completion(NewConnection, c.rpc.started)
          && (!c.rpc.started ==> c.down && |c.rpc.posted| == 1))
  }

  predicate Refusing(c: Conn) {
    && c.rpc.posted != []
    && c.rpc.pending == {Done} && Untouched(c) && c.prog == Then(Remove, Halt)
    && c.rpc.started == (NewConnection in c.rpc.oks) == !Failed(c.rpc)
  }

  /** The event thread releases its shared_ptr last, and only to an Rpc that
      has operations outstanding and so was not removed. */
  predicate MayRelease(r: Rpc, p: Program) {
    p == Halt || (p == Then(Release, Halt) && IsAnyEventPending(r))
  }

  /** The rest of the handling of a WRITE_NEEDED. */
  predicate Releasing(p: Program) {
    || p == Then(SendNext, Then(RemoveIfNotPending, Then(Release, Halt)))
    || p == Then(RemoveIfNotPending, Then(Release, Halt))
    || p == Then(Release, Halt)
  }

  /** Programs an event thread can be in for a connected Rpc, outside handler code. */
  predicate Runnable(r: Rpc, p: Program) {
    match p
    case Halt => r.pending != {}
    case Then(CreateHandler, q) => !r.handler && q == ReadIfNeeded(r.kind, CLONING)
    case Then(CallOnRequest, q) =>
      if r.kind.StreamsRequests() then q == Then(StartRead, Halt) && Read !in r.pending
      else q == Then(CallOnReadsDone, CLONING) && Done in r.pending
    case Then(CallOnReadsDone, q) =>
      if r.kind.StreamsRequests() then q == Then(RemoveIfNotPending, Halt) && Read !in r.pending
      else q == CLONING && Done in r.pending
    case Then(StartRead, q) =>
      r.kind.StreamsRequests() && Read !in r.pending &&
      (q == Halt || (q == CLONING && Done in r.pending))
    case Then(CallOnFinish, q) => q == Then(RemoveIfNotPending, Halt)
    case Then(SendNext, q) => q.Then? && q.action == RemoveIfNotPending && MayRelease(r, q.next)
    case Then(RemoveIfNotPending, q) => MayRelease(r, q)
    case Then(CloneRpc, _) => p == CLONING && Done in r.pending
    case Then(SelectQueue, _) => p == PLACING && Done in r.pending
    case Then(AddClone, _) => p == ADDING && Done in r.pending
    case Then(Register, _) => p == REGISTERING && Done in r.pending
    case Then(DropClone, _) => p == DROPPING && Done in r.pending
    case Then(Release, q) => q == Halt && IsAnyEventPending(r)
    case _ => false
  }

  /** `Runnable`, possibly below handler code and a half-done Send. */
  predicate InProgram(r: Rpc, p: Program) {
    if p.Then? && p.action == CallbackReturn then
      p.next.Then? && p.next.action != SendNext && r.handler && Runnable(r, p.next)
    else if p.Then? && p.action == PushWriteNeeded then
      && p.next.Then? && p.next.action == CallbackReturn
      && p.next.next.Then? && p.next.next.action != SendNext && r.handler && Runnable(r, p.next.next)
    else
      Runnable(r, p)
  }

  predicate Connected(c: Conn) {
    && c.rpc.posted != [] && c.rpc.started && !Failed(c.rpc)
    && NewConnection !in c.rpc.pending
    && InProgram(c.rpc, c.prog)
    && (!c.rpc.handler ==>
          Untouched(c) && c.rpc.pending == {Done} && c.prog.Then? && c.prog.action == CreateHandler)
    && !(Write in c.rpc.pending && Finish in c.rpc.pending)
    && (Read in c.rpc.pending ==> c.rpc.kind.StreamsRequests())
  }

  predicate Stale(q: seq<Event>) {
    forall i :: 0 <= i < |q| ==> q[i] == WriteNeeded
  }

  /** Nothing that could reach the Rpc is left, only stale WRITE_NEEDED events;
      if the registering thread still holds it, there are not even these. */
  predicate Retired(c: Conn) {
    && c.rpc.tokens == multiset{} && c.cq == [] && Stale(c.queue)
    && c.prog == Halt && c.writers == map[] && !c.pinned && (c.held ==> !c.rpc.handler && c.queue == [])
    && NewConnection !in c.rpc.pending && (c.rpc.callbacks != [] ==> c.rpc.handler)
  }

  predicate Inv(c: Conn) {
    && c.rpc.faults == {}
    && (c.down ==> c.stopping)
    && (c.pinned ==> c.active && Releasing(c.prog))
    && Fifo(c)
    && (if c.active then AllTracked(c) && (Listening(c) || Refusing(c) || Connected(c)) else Retired(c))
  }
}
