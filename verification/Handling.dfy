/** What Service::HandleEvent relies on is always given, and what it does is a
    run of the connection. */
module Handling {
  import opened RpcCore
  import opened Connection
  import opened Lifetime
  import opened LifetimeProofs
  import opened ProtocolProofs
  import opened ConnectionTheorems
  import opened BigStep

  /** The outcome HandleEvent is told about the event at the head of the queue. */
  predicate HeadOk(c: Conn)
    requires c.queue != []
  {
    c.queue[0] == WriteNeeded || c.queue[0] in c.rpc.oks
  }

  lemma ListenerExpects(c: Conn)
    requires Inv(c) && c.active && Listening(c) && Enabled(c, Begin)
    ensures Expected(c.rpc, c.queue[0]) && (HeadOk(c) || c.stopping) && c.writers == map[]
  {
    ListeningQuiet(c);
  }

  lemma ConnectedExpects(c: Conn)
    requires c.active && Connected(c) && Enabled(c, Begin) && (c.queue[0] != WriteNeeded ==> c.queue[0] in c.rpc.pending)
    ensures Expected(c.rpc, c.queue[0]) && (c.queue[0] == NewConnection ==> (HeadOk(c) || c.stopping) && c.writers == map[])
  {}

  lemma HeadIsExpected(c: Conn)
    requires Inv(c) && Enabled(c, Begin) && c.active
    ensures Expected(c.rpc, c.queue[0]) && (c.queue[0] == NewConnection ==> (HeadOk(c) || c.stopping) && c.writers == map[])
  {
    if Listening(c) {
      ListenerExpects(c);
    } else {
      if c.queue[0] != WriteNeeded { BeginIsPending(c); }
      ConnectedExpects(c);
    }
  }

  /** Whenever an event is dispatched at all, it finds an active Rpc in the
      state its handler expects, and a failed connection only while stopping. */
  lemma DispatchIsExpected(c: Conn)
    requires Reachable(c) && Enabled(c, Begin) && Begun(c).prog != Halt
    ensures c.active && Expected(Begun(c).rpc, c.queue[0])
    ensures c.queue[0] == NewConnection ==> (HeadOk(c) || c.stopping) && c.writers == map[]
    ensures Begun(c).pinned <==> c.queue[0] == WriteNeeded
    ensures Begun(c).prog == ProgramFor(c.rpc.kind, c.queue[0], HeadOk(c), c.stopping)
  {
    ReachableFullInv(c);
    if !c.active {
      BeginRetired(c);
    } else {
      HeadIsExpected(c);
    }
  }

  // ---------------------------------------------------------------------
  // Handling an event leads from reachable to reachable connections

  predicate HasRemove(p: Program) {
    p.Then? && (p.action == Remove || HasRemove(p.next))
  }

  /** The Rpc was not removed while the thread that registered it held it. */
  predicate LetGo(c: Conn) {
    OutlivesService(c) ==> c.active
  }

  lemma ActStranded(c: Conn)
    requires !LetGo(c) && c.prog.Then?
    ensures !LetGo(Acted(c))
  {}

  /** Once it was, it stays so. */
  lemma {:induction false} RunStranded(c: Conn, sends: seq<seq<SendItem>>)
    requires !LetGo(c)
    ensures !LetGo(RunProgram(c, sends))
    decreases Length(c.prog)
  {
    if c.prog.Then? && !InCallback(c.prog) {
      ActStranded(c);
      AliveShortens(c);
      RunStranded(Acted(c), sends);
    }
  }

  /** No Writer call or accepted call stands in the way of removing the Rpc. */
  predicate MayRemove(c: Conn) {
    c.writers == map[] && (HasRemove(c.prog) ==> NewConnection !in c.rpc.oks)
  }

  lemma {:induction false} SendAllReachable(c: Conn, items: seq<SendItem>)
    requires Reachable(c) && c.active && InCallback(c.prog)
    ensures Reachable(SendAll(c, items))
    decreases |items|
  {
    if items != [] {
      var sent := Next(c, HandlerSend(items[0]));
      ReachableStep(c, HandlerSend(items[0]));
      ReachableStep(sent, Act);
      SendOne(c, items[0]);
      SendAllReachable(Next(sent, Act), items[1..]);
    }
  }

  lemma ActAdmissible(c: Conn)
    requires c.active && c.prog.Then? && MayRemove(c) && (Removing(c) ==> LetGo(Acted(c)))
    ensures Admissible(c, Act)
  {}

  lemma ActMayRemove(c: Conn)
    requires c.active && c.prog.Then? && MayRemove(c)
    ensures MayRemove(Acted(c))
  {
    ActProgram(c);
    ExecuteOks(c.rpc, c.active, Alive(c), c.prog);
  }

  lemma ExecuteOks(r: Rpc, active: bool, alive: bool, p: Program)
    requires p.Then?
    ensures Execute(r, active, alive, p).rpc.oks == r.oks
  {}

  /** A callback that sends `items` and returns. */
  lemma ReturnReachable(c: Conn, items: seq<SendItem>)
    requires Reachable(c) && c.active && InCallback(c.prog) && MayRemove(c)
    ensures var d := SendAll(c, items);
      && d.prog == c.prog
      && Reachable(Acted(d)) && Acted(d).active && MayRemove(Acted(d)) && Acted(d).prog == c.prog.next
  {
    var d := SendAll(c, items);
    SendAllEffect(c, items);
    SendAllReachable(c, items);
    ActMayRemove(d);
    ActAdmissible(d);
    CallbackReturns(d);
    ReachableStep(d, Act);
  }

  lemma CallbackReturns(c: Conn)
    requires c.active && InCallback(c.prog)
    ensures Acted(c).active && Acted(c).prog == c.prog.next
  {}

  lemma ActReachable(c: Conn)
    requires Reachable(c) && c.active && c.prog.Then? && !InCallback(c.prog) && MayRemove(c) && LetGo(Acted(c))
    ensures Reachable(Acted(c)) && MayRemove(Acted(c)) && Length(Acted(c).prog) < Length(c.prog)
  {
    ActMayRemove(c);
    ActAdmissible(c);
    AliveShortens(c);
    ReachableStep(c, Act);
  }

  lemma AliveShortens(c: Conn)
    requires Alive(c) && c.prog.Then? && !InCallback(c.prog)
    ensures Length(Acted(c).prog) < Length(c.prog)
  {}

  lemma {:induction false} RunProgramReachable(c: Conn, sends: seq<seq<SendItem>>)
    requires Reachable(c) && MayRemove(c) && LetGo(RunProgram(c, sends))
    ensures Reachable(RunProgram(c, sends))
    decreases Length(c.prog)
  {
    LifetimeSafety(c);
    if InCallback(c.prog) {
      ReturnReachable(c, Head(sends));
      RunProgramReachable(Acted(SendAll(c, Head(sends))), Tail(sends));
    } else if c.prog.Then? {
      if !LetGo(Acted(c)) { AliveShortens(c); RunStranded(Acted(c), sends); }
      ActReachable(c);
      RunProgramReachable(Acted(c), sends);
    }
  }

  /** The event thread is about to refuse a call that gRPC accepted. */
  predicate RefusesNext(c: Conn)
    requires c.queue != []
  {
    c.queue[0] == NewConnection && c.stopping && HeadOk(c)
  }

  lemma ProgramHasRemove(kind: Kind, e: Event, ok: bool, stopping: bool)
    ensures HasRemove(ProgramFor(kind, e, ok, stopping)) ==> e == NewConnection && (stopping || !ok)
  {}

  lemma BegunMayRemove(c: Conn)
    requires c.active && Enabled(c, Begin) && c.writers == map[] && !RefusesNext(c)
    requires Begun(c).prog == ProgramFor(c.rpc.kind, c.queue[0], HeadOk(c), c.stopping)
    ensures Begun(c).active && MayRemove(Begun(c))
  {
    ProgramHasRemove(c.rpc.kind, c.queue[0], HeadOk(c), c.stopping);
  }

  /** One turn of the event thread: it pops the next event and runs its program to
      the end, the k-th callback sending sends[k]. */
  function TurnOf(c: Conn, sends: seq<seq<SendItem>>): Conn
    requires c.queue != []
  {
    RunProgram(Begun(c), sends)
  }

  /** So, from any reachable connection, popping the next event and handling
      it without interference, whatever the handler sends, is one of its runs
      and leads where `HandledRpc` says. Unless an accepted call is refused or
      the Rpc is removed while its registering thread holds it, that is a
      reachable connection again. */
  lemma HandleEventIsRun(c: Conn, sends: seq<seq<SendItem>>) returns (steps: seq<Step>)
    requires Reachable(c) && Enabled(c, Begin) && Begun(c).prog != Halt
    ensures IsRun(c, steps) && Run(c, steps) == TurnOf(c, sends) && steps != [] && steps[0] == Begin
    ensures IsHandled(Begun(c), c.queue[0], HeadOk(c), sends, TurnOf(c, sends))
    ensures c.writers == map[] && !RefusesNext(c) && LetGo(TurnOf(c, sends)) ==> Reachable(TurnOf(c, sends))
  {
    DispatchIsExpected(c);
    var d := Begun(c);
    HandledIsRun(d, c.queue[0], HeadOk(c), sends);
    var rest := RunProgramIsRun(d, sends);
    RunCons(c, Begin, rest);
    steps := [Begin] + rest;
    if c.writers == map[] && !RefusesNext(c) && LetGo(TurnOf(c, sends)) {
      BegunMayRemove(c);
      ReachableStep(c, Begin);
      RunProgramReachable(d, sends);
    }
  }
}
