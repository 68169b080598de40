/** How many steps a connection can still take once no call is accepted, no
    message arrives and nobody starts to send. Unlike `Draining`, which counts
    events, this covers listeners, connections that are just being served and
    the registration of a replacement. */
module Budgets {
  import opened RpcCore
  import opened Connection
  import opened Lifetime
  import opened LifetimeProofs
  import opened Protocol
  import opened ProtocolProofs

  /** What an action may lead to: a read in progress, an event on the queue, a
      new listener, a callback. */
  function ActionCost(a: Action): nat {
    match a
    case StartRead => 8
    case PushWriteNeeded => 6
    case Register => 20
    case CreateHandler => 2
    case CallOnRequest => 2
    case CallOnReadsDone => 2
    case CallOnFinish => 2
    case _ => 1
  }

  function Cost(p: Program): nat {
    if p == Halt then 0 else ActionCost(p.action) + Cost(p.next)
  }

  /** Every operation passes through gRPC, the completion queue, the event queue
      and a program; a message that is arriving leads to another read. */
  function Budget(c: Conn): nat {
    8 * |c.rpc.sendQueue| + 7 * |c.rpc.tokens| + 6 * |c.cq| + 5 * |c.queue|
    + (if ReadArriving(c) then 20 else 0) + Cost(c.prog)
  }

  /** A step of gRPC or of the server's threads that accepts no call and reads no message. */
  predicate Winding(s: Step) {
    (s.Complete? && !(s.ok && (s.event == Read || s.event == NewConnection))) || s.Forward? || s.Begin? || s.Act?
  }

  /** gRPC has not accepted a call that waits to be refused. */
  predicate Unaccepted(c: Conn) {
    NewConnection in c.rpc.pending || c.prog == Then(Remove, Halt) ==> !c.rpc.started
  }

  lemma CompleteSpends(c: Conn, e: Event, ok: bool, m: Message)
    requires e in c.rpc.tokens && Winding(Complete(e, ok, m))
    ensures Budget(Completed(c, e, ok, m)) < Budget(c)
  {
    var c' := Completed(c, e, ok, m);
    assert |c'.rpc.tokens| < |c.rpc.tokens| by {
      assert c'.rpc.tokens <= c.rpc.tokens - multiset{e};
      assert c.rpc.tokens == (c.rpc.tokens - multiset{e}) + multiset{e};
    }
    assert ReadArriving(c') <==> ReadArriving(c);
  }

  lemma ForwardSpends(c: Conn)
    requires c.cq != [] && c.active && AllTracked(c)
    ensures Budget(Forwarded(c)) < Budget(c)
  {
    ReadTravels(c);
  }

  lemma ProgramCost(kind: Kind, e: Event, ok: bool, stopping: bool)
    requires e == NewConnection ==> stopping
    ensures Cost(ProgramFor(kind, e, ok, stopping)) <= if e == Read && ok then 10 else 3
  {
    assert Cost(Then(RemoveIfNotPending, Then(Release, Halt))) == 2 && Cost(Then(RemoveIfNotPending, Halt)) == 1;
    assert Cost(Then(StartRead, Halt)) == 8 && Cost(Then(CallOnReadsDone, Halt)) == 2;
  }

  lemma DispatchSpends(r: Rpc, alive: bool, e: Event, stopping: bool)
    requires e == NewConnection ==> stopping
    ensures var d := Dispatch(r, alive, e, stopping);
      && d.rpc.tokens == r.tokens && d.rpc.sendQueue == r.sendQueue && d.rpc.oks == r.oks
      && Cost(d.prog) <= if e == Read && Read in r.oks then 10 else 3
  {
    ProgramCost(r.kind, e, e == WriteNeeded || e in r.oks, stopping);
  }

  /** The arriving message is the one at the head of the queue. */
  lemma ReadArrives(c: Conn)
    requires AllTracked(c) && c.active && c.queue != [] && c.queue[0] == Read && Read in c.rpc.oks
    ensures ReadArriving(c) && !ReadArriving(Begun(c))
  {
    HeadIsUnique(c);
  }

  lemma ReadStays(c: Conn)
    requires c.queue != [] && !(c.queue[0] == Read && Read in c.rpc.oks)
    ensures ReadArriving(Begun(c)) ==> ReadArriving(c)
  {
    assert Read in c.queue[1..] ==> Read in c.queue;
  }

  lemma BeginSpends(c: Conn)
    requires Inv(c) && Enabled(c, Begin) && (c.queue[0] == NewConnection ==> c.stopping)
    ensures Budget(Begun(c)) < Budget(c)
  {
    var e := c.queue[0];
    if e != WriteNeeded { BeginIsPending(c); }
    DispatchSpends(c.rpc, Alive(c), e, c.stopping);
    if e == Read && Read in c.rpc.oks { ReadArrives(c); } else { ReadStays(c); }
  }

  lemma SendSpends(r: Rpc)
    ensures var r' := HandleSendQueue(r);
      r'.oks == r.oks && 8 * |r'.sendQueue| + 7 * |r'.tokens| <= 8 * |r.sendQueue| + 7 * |r.tokens|
  {}

  lemma ReadSpends(r: Rpc)
    ensures var r' := IssueRead(r);
      r'.oks == r.oks && 8 * |r'.sendQueue| + 7 * |r'.tokens| <= 8 * |r.sendQueue| + 7 * |r.tokens| + 7
  {
    assert |r.tokens + multiset{Read}| == |r.tokens| + 1;
  }

  /** The other actions start nothing. */
  lemma QuietExecute(r: Rpc, active: bool, alive: bool, p: Program)
    requires p.Then? && p.action != SendNext && p.action != StartRead
    ensures var o := Execute(r, active, alive, p);
      && o.rpc.oks == r.oks && o.rpc.sendQueue == r.sendQueue && o.rpc.tokens == r.tokens
      && (if o.pushed then 5 else 0) + Cost(o.prog) < Cost(p)
      && (p.action == Register ==> o.rpc == r && o.prog == p.next && !o.pushed)
  {}

  lemma ExecuteSpends(r: Rpc, active: bool, alive: bool, p: Program)
    requires p.Then?
    ensures var o := Execute(r, active, alive, p);
      && o.rpc.oks == r.oks
      && 8 * |o.rpc.sendQueue| + 7 * |o.rpc.tokens| + (if o.pushed then 5 else 0) + Cost(o.prog) <
           8 * |r.sendQueue| + 7 * |r.tokens| + Cost(p)
      && (p.action == Register ==> o.rpc == r && o.prog == p.next && !o.pushed)
  {
    if p.action == SendNext { SendSpends(r); }
    else if p.action == StartRead { ReadSpends(r); }
    else { QuietExecute(r, active, alive, p); }
  }

  /** An action does more than its share of the work; registering a new Rpc
      leaves enough for the new Rpc. */
  lemma ActSpends(c: Conn)
    requires c.prog.Then?
    ensures Budget(Acted(c)) < Budget(c)
    ensures c.prog.action == Register ==> Budget(Acted(c)) + 20 <= Budget(c)
  {
    ExecuteSpends(c.rpc, c.active, Alive(c), c.prog);
    assert ReadArriving(Acted(c)) <==> ReadArriving(c);
  }

  /** Every such step uses up some of the budget. */
  lemma Spends(c: Conn, s: Step)
    requires Inv(c) && c.down && Enabled(c, s) && Winding(s)
    ensures Budget(Next(c, s)) < Budget(c)
    ensures s == Act && c.prog.action == Register ==> Budget(Next(c, s)) + 20 <= Budget(c)
  {
    match s
    case Complete(e, ok, m) => CompleteSpends(c, e, ok, m);
    case Forward => ForwardSpends(c);
    case Begin => BeginSpends(c);
    case Act => ActSpends(c);
  }

  lemma UnacceptedAct(c: Conn)
    requires Inv(c) && Unaccepted(c) && c.prog.Then?
    ensures Unaccepted(Acted(c))
  {
    var o := Execute(c.rpc, c.active, Alive(c), c.prog);
    NoLateRemove(c);
    if c.prog.action == SendNext { var _ := SendQueueStarts(c.rpc); }
    else if c.prog.action != StartRead { QuietAct(c); }
  }

  /** Remove is only ever the first action of a program. */
  lemma NoLateRemove(c: Conn)
    requires Inv(c) && c.prog.Then?
    ensures c.active && Acted(c).prog != Then(Remove, Halt)
  {
    ActProgram(c);
  }

  lemma UnacceptedStays(c: Conn, s: Step)
    requires Inv(c) && c.down && Unaccepted(c) && Enabled(c, s) && Winding(s)
    ensures Unaccepted(Next(c, s))
  {
    match s
    case Complete(_, _, _) =>
    case Forward =>
    case Begin => if c.queue[0] != WriteNeeded { BeginIsPending(c); }
    case Act => UnacceptedAct(c);
  }
}
