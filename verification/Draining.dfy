/** Once nobody sends and the request stream yields no more messages, a
    connection drains: a computable number of events later it is removed. */
module Draining {
  import opened RpcCore
  import opened Connection
  import opened Lifetime
  import opened LifetimeProofs
  import opened Sending
  import opened Protocol
  import opened ProtocolProofs

  /** The rest of the handling of a READ failure, WRITE, FINISH, DONE or WRITE_NEEDED. */
  predicate Settling(p: Program) {
    p.Then? ==>
      && p.action in {CallOnReadsDone, CallOnFinish, CallbackReturn, SendNext, RemoveIfNotPending, Release}
      && Settling(p.next)
  }

  /** NEW_CONNECTION was handled and the registering thread has let go; nobody is
      sending and no message is arriving. */
  predicate Draining(c: Conn) {
    NewConnection !in c.rpc.pending && !c.held && c.writers == map[] && !ReadArriving(c) && Settling(c.prog)
  }

  /** A step of gRPC or of the server's threads; reads only end the stream. */
  predicate Quiet(s: Step) {
    (s.Complete? && !(s.event == Read && s.ok)) || s.Forward? || s.Begin? || s.Act?
  }

  predicate QuietRun(c: Conn, steps: seq<Step>)
    decreases |steps|
  {
    steps == [] ||
    (Enabled(c, steps[0]) && Quiet(steps[0]) && QuietRun(Next(c, steps[0]), steps[1..]))
  }

  /** How many events were taken from the event queue. */
  function Begins(steps: seq<Step>): nat {
    if steps == [] then 0 else (if steps[0].Begin? then 1 else 0) + Begins(steps[1..])
  }

  /** Events that can still be handled: two for every queued item (its
      completion, and at most one WRITE_NEEDED of its own), one for every
      WRITE_NEEDED and one for every pending operation. */
  function EventBudget(c: Conn): nat {
    2 * |c.rpc.sendQueue| + multiset(c.queue)[WriteNeeded] + |c.rpc.pending|
  }

  function Weight(p: Program): nat {
    match p
    case Halt => 0
    case Then(a, q) => (if a == CallOnReadsDone || a == CallOnFinish then 2 else 1) + Weight(q)
  }

  /** Steps that can still be taken. */
  function Work(c: Conn): nat {
    7 * |c.rpc.sendQueue| + 6 * |c.rpc.tokens| + 5 * |c.cq| + 4 * |c.queue| + Weight(c.prog)
  }

  lemma DrainComplete(c: Conn, e: Event, ok: bool, m: Message)
    requires Draining(c) && e in c.rpc.tokens && e != NewConnection && !(e == Read && ok)
    ensures var c' := Completed(c, e, ok, m);
      Draining(c') && Work(c') < Work(c) && EventBudget(c') == EventBudget(c)
  {
    var c' := Completed(c, e, ok, m);
    assert c.rpc.tokens == c'.rpc.tokens + multiset{e};
    assert ReadArriving(c') <==> ReadArriving(c);
  }

  lemma DrainForward(c: Conn)
    requires Draining(c) && c.active && AllTracked(c) && c.cq != [] && c.cq[0].event != WriteNeeded
    ensures var c' := Forwarded(c);
      Draining(c') && Work(c') < Work(c) && EventBudget(c') == EventBudget(c)
  {
    ReadTravels(c);
  }

  lemma DrainBegin(c: Conn)
    requires Draining(c) && c.prog == Halt && c.queue != []
    requires if c.queue[0] == WriteNeeded then true else c.active && c.queue[0] in c.rpc.pending
    ensures var c' := Begun(c);
      Draining(c') && Work(c') < Work(c) && EventBudget(c') == EventBudget(c) - 1
  {
    var c', e := Begun(c), c.queue[0];
    MultisetTail(c.queue);
    assert Read in c.queue[1..] ==> Read in c.queue;
    assert c'.rpc.pending == c.rpc.pending - {e} || (e == WriteNeeded && c'.rpc.pending == c.rpc.pending);
    assert Settling(Then(RemoveIfNotPending, Halt)) && Settling(Then(RemoveIfNotPending, Then(Release, Halt)));
  }

  lemma DrainSendNext(c: Conn)
    requires Draining(c) && c.active && c.prog.Then? && c.prog.action == SendNext
    ensures var c' := Acted(c);
      Draining(c') && Work(c') < Work(c) && EventBudget(c') <= EventBudget(c)
  {
    SendNextEffect(c.rpc);
    SendQueueKeepsReads(c.rpc);
    var e := SendQueueStarts(c.rpc);
    var c' := Acted(c);
    assert c'.rpc == HandleSendQueue(c.rpc);
    if c'.rpc != c.rpc {
      assert |c'.rpc.pending| == |c.rpc.pending| + 1 && |c'.rpc.tokens| == |c.rpc.tokens| + 1;
    }
  }

  lemma DrainActOther(c: Conn)
    requires Draining(c) && c.active && c.prog.Then? && c.prog.action != SendNext
    ensures var c' := Acted(c);
      Draining(c') && Work(c') < Work(c) && EventBudget(c') == EventBudget(c)
  {
    QuietAct(c);
    assert Settling(c.prog.next) && Settling(Then(CallbackReturn, c.prog.next));
  }

  /** Every quiet step keeps draining and does some of the remaining work; only
      taking an event uses up the event budget. */
  lemma DrainStep(c: Conn, s: Step)
    requires Inv(c) && Draining(c) && Enabled(c, s) && Quiet(s)
    ensures var c' := Next(c, s);
      && Inv(c') && Draining(c') && Work(c') < Work(c)
      && EventBudget(c') + (if s.Begin? then 1 else 0) <= EventBudget(c)
  {
    StepKeeps(c, s) by { DrainingIsAdmissible(c, s); }
    match s
    case Complete(e, ok, m) => ConnectionMade(c, e); DrainComplete(c, e, ok, m);
    case Forward => ForwardTracks(c); DrainForward(c);
    case Begin => if c.queue[0] != WriteNeeded { BeginIsPending(c); } DrainBegin(c);
    case Act => if c.prog.action == SendNext { DrainSendNext(c); } else { DrainActOther(c); }
  }

  lemma DrainingIsAdmissible(c: Conn, s: Step)
    requires Draining(c)
    ensures Admissible(c, s)
  {}

  lemma ConnectionMade(c: Conn, e: Event)
    requires Inv(c) && e in c.rpc.tokens && NewConnection !in c.rpc.pending
    ensures e != NewConnection
  {
    assert InFlight(c, e) >= 1;
    if c.active { TrackedEvent(c, NewConnection); }
  }

  /** A drain of any length stays within both budgets. */
  lemma {:induction false} DrainBound(c: Conn, steps: seq<Step>)
    requires Inv(c) && Draining(c) && QuietRun(c, steps)
    ensures IsRun(c, steps) && Inv(Run(c, steps)) && Draining(Run(c, steps))
    ensures |steps| + Work(Run(c, steps)) <= Work(c)
    ensures Begins(steps) + EventBudget(Run(c, steps)) <= EventBudget(c)
    decreases |steps|
  {
    if steps != [] {
      DrainStep(c, steps[0]);
      DrainBound(Next(c, steps[0]), steps[1..]);
    }
  }

  /** While the Rpc is active, gRPC or one of the server's threads can move. */
  lemma DrainProgress(c: Conn) returns (s: Step)
    requires Inv(c) && Draining(c) && c.active
    ensures Enabled(c, s) && Quiet(s)
  {
    if c.prog.Then? { return Act; }
    assert Connected(c);
    var e :| e in c.rpc.pending;
    TrackedEvent(c, e);
    if e in c.rpc.tokens { return Complete(e, false, 0); }
    if c.cq != [] { return Forward; }
    assert c.queue != [] by { assert multiset(c.queue)[e] == 1; }
    return Begin;
  }

  /** Draining ends with the removal of the Rpc, however steps are chosen: a
      drain that cannot continue, or that has handled the budgeted number of
      events and is between events, has removed it. */
  lemma DrainRemoves(c: Conn, steps: seq<Step>)
    requires Inv(c) && Draining(c) && QuietRun(c, steps)
    ensures IsRun(c, steps) && |steps| <= Work(c) && Begins(steps) <= EventBudget(c)
    ensures (forall s :: Quiet(s) ==> !Enabled(Run(c, steps), s)) ==> !Run(c, steps).active
    ensures Begins(steps) == EventBudget(c) && Run(c, steps).prog == Halt ==> !Run(c, steps).active
  {
    DrainBound(c, steps);
    var d := Run(c, steps);
    if d.active {
      var s := DrainProgress(d);
      if d.prog == Halt { assert Connected(d) && d.rpc.pending != {}; }
    }
  }
}
