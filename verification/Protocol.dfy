/** The callback protocol: what a handler sees, in which order, and how that
    relates to what gRPC delivered. */
module Protocol {
  import opened RpcCore
  import opened Connection
  import opened Lifetime

  // ---------------------------------------------------------------------
  // Ledger of operations

  function CallEvents(calls: seq<Call>): seq<Event> {
    seq(|calls|, i requires 0 <= i < |calls| => if calls[i].WriteCall? then Write else Finish)
  }

  /** How often a completion of `e` was dispatched. */
  function Handled(r: Rpc, e: Event): nat {
    multiset(Events(r.handled))[e]
  }

  function Flag(r: Rpc, e: Event): nat {
    if e in r.pending then 1 else 0
  }

  /** Every operation started is outstanding or was handled exactly once. */
  predicate Ledger(r: Rpc) {
    && Handled(r, NewConnection) + Flag(r, NewConnection) == 1
    && Handled(r, Done) + Flag(r, Done) == 1
    && Handled(r, Write) + Flag(r, Write) == multiset(CallEvents(r.calls))[Write]
    && Handled(r, Finish) + Flag(r, Finish) == multiset(CallEvents(r.calls))[Finish]
  }

  // ---------------------------------------------------------------------
  // Callbacks

  /** The callbacks that concern the request stream. */
  function ReadSide(s: seq<Callback>): seq<Callback> {
    if s == [] then []
    else (if s[0] == OnFinish then [] else [s[0]]) + ReadSide(s[1..])
  }

  function OnRequests(ms: seq<Message>): seq<Callback> {
    seq(|ms|, i requires 0 <= i < |ms| => OnRequest(ms[i]))
  }

  /** The handler saw every received message in order (but for the last one
      if `owed`), followed by OnReadsDone if `over`. For unary requests
      OnRequest and OnReadsDone come before everything else. */
  predicate Shape(r: Rpc, owed: bool, over: bool) {
    var n := |r.received|;
    && (owed ==> n > 0 && r.request == r.received[n - 1] && !over)
    && ReadSide(r.callbacks) ==
         OnRequests(if owed then r.received[..n - 1] else r.received) + (if over then [OnReadsDone] else [])
    && (!r.started ==> n == 0)
    && (!r.kind.StreamsRequests() ==>
          && (r.started ==> n == 1)
          && (!over ==> OnFinish !in r.callbacks)
          && (over ==> n == 1 && [OnRequest(r.received[0]), OnReadsDone] <= r.callbacks))
  }

  function Popped(p: Program, a: Action): Program {
    if p.Then? && p.action == a then p.next else p
  }

  /** The program below handler code. */
  function Base(p: Program): Program {
    Popped(Popped(p, PushWriteNeeded), CallbackReturn)
  }

  predicate Next?(p: Program, a: Action) {
    Base(p).Then? && Base(p).action == a
  }

  /** A successful read is on its way to the handler. */
  predicate ReadArriving(c: Conn) {
    Completion(Read, true) in c.cq || (Read in c.queue && Read in c.rpc.oks)
  }

  predicate Owed(c: Conn) {
    if c.rpc.kind.StreamsRequests() then ReadArriving(c) || Next?(c.prog, CallOnRequest)
    else c.rpc.started && (!c.rpc.handler || Next?(c.prog, CallOnRequest))
  }

  predicate Over(c: Conn) {
    && c.rpc.handler && Read !in c.rpc.pending
    && !Next?(c.prog, CallOnRequest) && !Next?(c.prog, StartRead) && !Next?(c.prog, CallOnReadsDone)
  }

  predicate AnyShape(r: Rpc) {
    Shape(r, false, false) || Shape(r, true, false) || Shape(r, false, true)
  }

  predicate CallbackInv(c: Conn) {
    && (if c.active then Shape(c.rpc, Owed(c), Over(c)) else AnyShape(c.rpc))
    && multiset(c.rpc.callbacks)[OnFinish] + (if Next?(c.prog, CallOnFinish) then 1 else 0) == Handled(c.rpc, Finish)
  }
}
