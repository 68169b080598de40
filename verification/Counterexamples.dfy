/** Concrete runs on which promises of the documentation fail. */
module Counterexamples {
  import opened RpcCore
  import opened Connection
  import opened OneFinish
  import opened Removal

  const HELLO := SendItem(Some(7), Status(0))
  const GOODBYE := SendItem(None, Status(0))

  /** `d` is the state after three steps from `c`. */
  predicate ThreeSteps(c: Conn, s0: Step, s1: Step, s2: Step, d: Conn) {
    && Enabled(c, s0) && Enabled(Next(c, s0), s1) && Enabled(Next(Next(c, s0), s1), s2)
    && Next(Next(Next(c, s0), s1), s2) == d
  }

  /** Extends a run from `start` by three steps. */
  lemma Walk(start: Conn, run: seq<Step>, s0: Step, s1: Step, s2: Step, d: Conn) returns (steps: seq<Step>)
    requires IsRun(start, run) && ThreeSteps(Run(start, run), s0, s1, s2, d)
    ensures IsRun(start, steps) && Run(start, steps) == d
  {
    RunSnoc(start, run, s0);
    RunSnoc(start, run + [s0], s1);
    RunSnoc(start, run + [s0] + [s1], s2);
    steps := run + [s0] + [s1] + [s2];
  }

  // ---------------------------------------------------------------------
  // Refusing an accepted call

  /** gRPC has accepted a call; its tag is at the head of the event queue. */
  function CallWaiting(stopping: bool): Conn {
    var r := RequestNextMethodInvocation(Fresh(NormalRpc));
    Conn(r.(oks := {NewConnection}, request := 5, tokens := multiset{Done}, started := true,
            posted := [Completion(NewConnection, true)], received := [5]),
         true, [], [NewConnection], Halt, false, false, map[], stopping, false)
  }

  lemma CallArrives(stopping: bool)
    ensures Enabled(Listener(NormalRpc, stopping, false, false), Complete(NewConnection, true, 5))
    ensures var c := Completed(Listener(NormalRpc, stopping, false, false), NewConnection, true, 5);
      Forwarded(c) == CallWaiting(stopping)
  {
    CallStored();
    var c := Completed(Listener(NormalRpc, stopping, false, false), NewConnection, true, 5);
    assert c.cq[1..] == [] && c.queue + [NewConnection] == [NewConnection];
  }

  lemma CallStored()
    ensures var r := RequestNextMethodInvocation(Fresh(NormalRpc));
      && NewConnection in r.tokens
      && StoreOk(Post(r, NewConnection, true, 5), Completion(NewConnection, true)) == CallWaiting(false).rpc
  {
    var r := RequestNextMethodInvocation(Fresh(NormalRpc));
    assert r.tokens == multiset{Done, NewConnection};
    assert Post(r, NewConnection, true, 5).tokens == multiset{Done};
  }

  /** The event thread refuses a call gRPC has accepted. */
  function Refused(): Conn {
    var r := RequestNextMethodInvocation(Fresh(NormalRpc));
    var log := [Completion(NewConnection, true)];
    Conn(r.(pending := {Done}, oks := {NewConnection}, request := 5, tokens := multiset{Done}, started := true,
            posted := log, received := [5], handled := log),
         true, [], [], Then(Remove, Halt), false, false, map[], true, false)
  }

  lemma RefusedMoves()
    ensures ThreeSteps(Next(Listener(NormalRpc, false, false, false), StopServing),
                  Complete(NewConnection, true, 5), Forward, Begin, Refused())
  {
    CallArrives(true);
    assert Begun(CallWaiting(true)).rpc.pending == {Done};
    assert Begun(CallWaiting(true)) == Refused();
  }

  /** The Rpc is gone and its DONE tag arrives. */
  function Freed(): Conn {
    Next(Next(Next(Refused(), Act), Complete(Done, true, 0)), Forward)
  }

  lemma FreedMoves()
    ensures ThreeSteps(Refused(), Act, Complete(Done, true, 0), Forward, Freed())
    ensures UseAfterFree in Freed().rpc.faults
  {}

  /** Refusing an accepted call during shutdown frees an Rpc whose DONE tag
      gRPC still holds. */
  lemma RefusedCallIsUnsafe() returns (steps: seq<Step>)
    ensures IsRun(Listener(NormalRpc, false, false, false), steps)
    ensures UseAfterFree in Run(Listener(NormalRpc, false, false, false), steps).rpc.faults
  {
    var c := Listener(NormalRpc, false, false, false);
    RunSnoc(c, [], StopServing);
    RefusedMoves();
    steps := Walk(c, [] + [StopServing], Complete(NewConnection, true, 5), Forward, Begin, Refused());
    FreedMoves();
    steps := Walk(c, steps, Act, Complete(Done, true, 0), Forward, Freed());
  }

  // ---------------------------------------------------------------------
  // A Writer call that overlaps removal

  /** OnConnection is about to run. */
  function Accepted(): Conn {
    Refused().(stopping := false, prog := ProgramFor(NormalRpc, NewConnection, true, false))
  }

  lemma AcceptedMoves()
    ensures ThreeSteps(Listener(NormalRpc, false, false, false), Complete(NewConnection, true, 5), Forward, Begin,
                       Accepted())
  {
    CallArrives(false);
    assert Begun(CallWaiting(false)).rpc.pending == {Done};
    assert Begun(CallWaiting(false)) == Accepted();
  }

  /** Handler code is running; another thread has locked a Writer. */
  function InHandler(callbacks: seq<Callback>, prog: Program): Conn {
    Accepted().(rpc := Accepted().rpc.(handler := true, callbacks := callbacks),
                prog := prog, writers := map[0 := Locked(HELLO)])
  }

  /** OnConnection has returned. */
  function InService(): Conn {
    InHandler([OnRequest(5), OnReadsDone], Halt)
  }

  const REQUESTING := InHandler([], Then(CallOnRequest, Then(CallOnReadsDone, CLONING)))
  const RETURNING := InHandler([OnRequest(5), OnReadsDone], Then(CallbackReturn, CLONING))

  lemma RequestingMoves()
    ensures ThreeSteps(Accepted(), Act, WriterLock(0, HELLO), Act, REQUESTING)
  {
    assert Next(Next(Next(Accepted(), Act), WriterLock(0, HELLO)), Act) == REQUESTING;
  }

  lemma ReturningMoves()
    ensures ThreeSteps(REQUESTING, Act, Act, Act, RETURNING)
  {
    assert Next(Next(Next(REQUESTING, Act), Act), Act) == RETURNING;
  }

  /** The clone has its event queue. */
  function ClonePlaced(): Conn {
    InHandler([OnRequest(5), OnReadsDone], ADDING)
  }

  lemma PlacedMoves()
    ensures ThreeSteps(RETURNING, Act, Act, Act, ClonePlaced())
  {
    assert Next(Next(Next(RETURNING, Act), Act), Act) == ClonePlaced();
  }

  lemma ServedMoves()
    ensures ThreeSteps(ClonePlaced(), Act, Act, Act, InService())
  {
    assert Next(Next(Next(ClonePlaced(), Act), Act), Act) == InService();
  }

  lemma Serve() returns (steps: seq<Step>)
    ensures IsRun(Listener(NormalRpc, false, false, false), steps)
    ensures Run(Listener(NormalRpc, false, false, false), steps) == InService().(stopping := true)
  {
    var c := Listener(NormalRpc, false, false, false);
    AcceptedMoves();
    steps := Walk(c, [], Complete(NewConnection, true, 5), Forward, Begin, Accepted());
    RequestingMoves();
    steps := Walk(c, steps, Act, WriterLock(0, HELLO), Act, REQUESTING);
    ReturningMoves();
    steps := Walk(c, steps, Act, Act, Act, RETURNING);
    PlacedMoves();
    steps := Walk(c, steps, Act, Act, Act, ClonePlaced());
    ServedMoves();
    steps := Walk(c, steps, Act, Act, Act, InService());
    RunSnoc(c, steps, StopServing);
    steps := steps + [StopServing];
  }

  /** The connection ends while the Writer call is under way. */
  function ConnectionClosing(): Conn {
    var c := InService().(stopping := true);
    var x := Completion(Done, true);
    c.(rpc := c.rpc.(pending := {}, tokens := multiset{}, oks := {NewConnection, Done},
                     posted := c.rpc.posted + [x], handled := c.rpc.handled + [x]),
       prog := Then(RemoveIfNotPending, Halt))
  }

  lemma ClosingMoves()
    ensures ThreeSteps(InService().(stopping := true), Complete(Done, true, 0), Forward, Begin, ConnectionClosing())
  {
    var d := Next(Next(Next(InService().(stopping := true), Complete(Done, true, 0)), Forward), Begin);
    assert d.rpc.pending == {} && d.rpc.tokens == multiset{} && d.rpc.oks == {NewConnection, Done};
    assert d == ConnectionClosing();
  }

  lemma StrandedMoves() returns (d: Conn)
    ensures ThreeSteps(ConnectionClosing(), Act, WriterEnqueue(0), WriterPush(0), d) && WeakPtrCheck in d.rpc.faults
  {
    var c := Next(ConnectionClosing(), Act);
    assert !c.active && c.writers == map[0 := Locked(HELLO)];
    d := Next(Next(c, WriterEnqueue(0)), WriterPush(0));
  }

  /** A Writer call that overlaps the end of the connection aborts the process,
      although the documentation calls the Writer safe at any time. */
  lemma WriterRaceAborts() returns (steps: seq<Step>)
    ensures IsRun(Listener(NormalRpc, false, false, false), steps)
    ensures WeakPtrCheck in Run(Listener(NormalRpc, false, false, false), steps).rpc.faults
  {
    var c := Listener(NormalRpc, false, false, false);
    steps := Serve();
    ClosingMoves();
    steps := Walk(c, steps, Complete(Done, true, 0), Forward, Begin, ConnectionClosing());
    var d := StrandedMoves();
    steps := Walk(c, steps, Act, WriterEnqueue(0), WriterPush(0), d);
  }

  // ---------------------------------------------------------------------
  // A Writer call after the response

  /** The Writer's item is in the send queue and announced. */
  function SendAnnounced(queue: seq<Event>, prog: Program): Conn {
    var c := InService().(stopping := true);
    c.(rpc := c.rpc.(sendQueue := [HELLO], enqueued := [HELLO]), writers := map[], queue := queue, prog := prog)
  }

  /** The item went out as a Finish. */
  function Answering(prog: Program): Conn {
    var c := SendAnnounced([], prog);
    c.(rpc := c.rpc.(pending := {Done, Finish}, sendQueue := [], response := Some(7),
                     tokens := multiset{Done, Finish}, calls := [FinishCall(HELLO)]))
  }

  /** gRPC completed the Finish. */
  function Answered(callbacks: seq<Callback>, prog: Program): Conn {
    var c := Answering(prog);
    var x := Completion(Finish, true);
    c.(rpc := c.rpc.(pending := {Done}, oks := {NewConnection, Finish}, tokens := multiset{Done},
                     posted := c.rpc.posted + [x], handled := c.rpc.handled + [x],
                     callbacks := c.rpc.callbacks + callbacks))
  }

  lemma AnnouncedMoves()
    ensures ThreeSteps(InService().(stopping := true), WriterEnqueue(0), WriterPush(0), WriterReturn(0),
                  SendAnnounced([WriteNeeded], Halt))
  {
    var d := Next(Next(Next(InService().(stopping := true), WriterEnqueue(0)), WriterPush(0)), WriterReturn(0));
    assert d.writers == map[];
    assert d == SendAnnounced([WriteNeeded], Halt);
  }

  lemma HelloLeaves()
    ensures HandleSendQueue(SendAnnounced([], Halt).rpc) == Answering(Halt).rpc
  {
    var r := HandleSendQueue(SendAnnounced([], Halt).rpc);
    assert r.pending == {Done, Finish} && r.tokens == multiset{Done, Finish};
  }

  lemma AnsweringMoves()
    ensures ThreeSteps(SendAnnounced([WriteNeeded], Halt), Begin, Act, Act, Answering(Then(Release, Halt)).(pinned := true))
    ensures Next(Answering(Then(Release, Halt)).(pinned := true), Act) == Answering(Halt)
  {
    HelloLeaves();
    var d := Next(Next(Next(SendAnnounced([WriteNeeded], Halt), Begin), Act), Act);
    assert d.rpc == Answering(Halt).rpc;
    assert d == Answering(Then(Release, Halt)).(pinned := true);
  }

  const FINISHING := Answered([], Then(CallOnFinish, Then(RemoveIfNotPending, Halt)))

  lemma FinishingMoves()
    ensures ThreeSteps(Answering(Halt), Complete(Finish, true, 0), Forward, Begin, FINISHING)
  {
    FinishForwarded();
    var d := Next(Forwarded(Next(Answering(Halt), Complete(Finish, true, 0))), Begin);
    assert d.rpc.pending == {Done};
    assert d == FINISHING;
  }

  /** The tag of the first Finish is at the head of the event queue. */
  lemma FinishForwarded()
    ensures Enabled(Answering(Halt), Complete(Finish, true, 0))
    ensures var c, x := Answering(Halt), Completion(Finish, true);
      Forwarded(Next(c, Complete(Finish, true, 0))) ==
        c.(rpc := c.rpc.(oks := {NewConnection, Finish}, tokens := multiset{Done}, posted := c.rpc.posted + [x]),
           queue := [Finish])
  {
    var d := Forwarded(Next(Answering(Halt), Complete(Finish, true, 0)));
    assert d.rpc.tokens == multiset{Done} && d.rpc.oks == {NewConnection, Finish};
  }

  lemma AnsweredMoves()
    ensures ThreeSteps(FINISHING, Act, Act, Act, Answered([OnFinish], Halt))
  {
    assert Next(Next(Next(FINISHING, Act), Act), Act) == Answered([OnFinish], Halt);
  }

  lemma Answer() returns (steps: seq<Step>)
    ensures IsRun(Listener(NormalRpc, false, false, false), steps)
    ensures Run(Listener(NormalRpc, false, false, false), steps) == Answered([OnFinish], Halt)
  {
    var c := Listener(NormalRpc, false, false, false);
    steps := Serve();
    AnnouncedMoves();
    steps := Walk(c, steps, WriterEnqueue(0), WriterPush(0), WriterReturn(0), SendAnnounced([WriteNeeded], Halt));
    AnsweringMoves();
    steps := Walk(c, steps, Begin, Act, Act, Answering(Then(Release, Halt)).(pinned := true));
    RunSnoc(c, steps, Act);
    steps := steps + [Act];
    FinishingMoves();
    steps := Walk(c, steps, Complete(Finish, true, 0), Forward, Begin, FINISHING);
    AnsweredMoves();
    steps := Walk(c, steps, Act, Act, Act, Answered([OnFinish], Halt));
  }

  lemma SecondEnqueue() returns (c: Conn)
    ensures ThreeSteps(Answered([OnFinish], Halt), WriterLock(0, GOODBYE), WriterEnqueue(0), WriterPush(0), c)
    ensures c.rpc == EnqueueMessage(Answered([OnFinish], Halt).rpc, GOODBYE)
    ensures c.queue == [WriteNeeded] && c.active && c.prog == Halt
  {
    c := Next(Next(Next(Answered([OnFinish], Halt), WriterLock(0, GOODBYE)), WriterEnqueue(0)), WriterPush(0));
  }

  lemma SecondFinish(c: Conn) returns (d: Conn)
    requires c.rpc == EnqueueMessage(Answered([OnFinish], Halt).rpc, GOODBYE)
    requires c.queue == [WriteNeeded] && c.active && c.prog == Halt
    ensures ThreeSteps(c, Begin, Act, Act, d) && d.rpc.calls == [FinishCall(HELLO), FinishCall(GOODBYE)]
  {
    d := Next(Next(Next(c, Begin), Act), Act);
  }

  /** A Writer used after the response went out makes a unary call finish twice. */
  lemma LateWriterFinishesTwice() returns (steps: seq<Step>)
    ensures IsRun(Listener(NormalRpc, false, false, false), steps)
    ensures !FinishLast(Run(Listener(NormalRpc, false, false, false), steps).rpc.calls)
  {
    var c := Listener(NormalRpc, false, false, false);
    steps := Answer();
    var c1 := SecondEnqueue();
    var c2 := SecondFinish(c1);
    steps := Walk(c, steps, WriterLock(0, GOODBYE), WriterEnqueue(0), WriterPush(0), c1);
    steps := Walk(c, steps, Begin, Act, Act, c2);
    assert c2.rpc.calls[0].FinishCall?;
  }

  // ---------------------------------------------------------------------
  // An Rpc that is served to its end while it is still being registered

  lemma LiftStep(c: Conn, s: Step)
    requires c.active && !c.held && Enabled(c, s)
    ensures Enabled(c.(held := true), s) && Next(c.(held := true), s) == Next(c, s).(held := true)
    ensures !Next(c, s).held
  {
    var d := c.(held := true);
    match s
    case Act => assert Acted(d) == Acted(c).(held := true);
    case Begin => assert Begun(d) == Begun(c).(held := true);
    case Forward => assert Forwarded(d) == Forwarded(c).(held := true);
    case Complete(e, ok, m) => assert Completed(d, e, ok, m) == Completed(c, e, ok, m).(held := true);
    case _ =>
  }

  /** While the Rpc is active, nothing depends on whether it is held. */
  lemma {:induction false} LiftRun(c: Conn, steps: seq<Step>)
    requires !c.held && IsRun(c, steps) && Run(c, steps).active
    ensures IsRun(c.(held := true), steps) && Run(c.(held := true), steps) == Run(c, steps).(held := true)
    decreases |steps|
  {
    if steps != [] {
      if !c.active { StaysRemoved(c, steps); }
      LiftStep(c, steps[0]);
      LiftRun(Next(c, steps[0]), steps[1..]);
    }
  }

  lemma {:induction false} StaysRemoved(c: Conn, steps: seq<Step>)
    requires !c.active && IsRun(c, steps)
    ensures !Run(c, steps).active
    decreases |steps|
  {
    if steps != [] {
      StaysInactive(c, steps[0]);
      StaysRemoved(Next(c, steps[0]), steps[1..]);
    }
  }

  /** The connection has ended; the registering thread still holds the Rpc. */
  function Ending(): Conn {
    var c := Answered([OnFinish], Halt);
    var x := Completion(Done, true);
    c.(rpc := c.rpc.(pending := {}, tokens := multiset{}, oks := {NewConnection, Finish, Done},
                     posted := c.rpc.posted + [x], handled := c.rpc.handled + [x]),
       prog := Then(RemoveIfNotPending, Halt), held := true)
  }

  lemma EndingMoves()
    ensures ThreeSteps(Answered([OnFinish], Halt).(held := true), Complete(Done, true, 0), Forward, Begin, Ending())
  {
    var c := Next(Answered([OnFinish], Halt).(held := true), Complete(Done, true, 0));
    assert c.rpc.tokens == multiset{};
    assert Forwarded(c).rpc.oks == {NewConnection, Finish, Done};
    assert Begun(Forwarded(c)).rpc.pending == {};
  }

  lemma HolderMoves() returns (d: Conn)
    ensures ThreeSteps(Acted(Ending()), WriterLock(0, GOODBYE), WriterEnqueue(0), WriterPush(0), d)
    ensures WeakPtrCheck in d.rpc.faults
  {
    assert !Acted(Ending()).active && Acted(Ending()).held;
    var c := Next(Acted(Ending()), WriterLock(0, GOODBYE));
    assert !c.active && c.writers == map[0 := Locked(GOODBYE)];
    d := Next(Next(c, WriterEnqueue(0)), WriterPush(0));
  }

  /** An Rpc is served to its end while the thread that registered it is still
      inside RequestNextMethodInvocation. At its removal no Writer call is in
      progress and no call is refused; yet a Writer call made afterwards finds the
      Rpc alive and aborts the process. */
  lemma HeldRpcAborts() returns (before: seq<Step>, after: seq<Step>)
    ensures var start := Listener(NormalRpc, false, false, true);
      && IsRun(start, before) && Removing(Run(start, before))
      && Run(start, before).writers == map[] && !RefusesAcceptedCall(Run(start, before))
      && IsRun(Acted(Run(start, before)), after) && WeakPtrCheck in Run(Acted(Run(start, before)), after).rpc.faults
  {
    before := Answer();
    LiftRun(Listener(NormalRpc, false, false, false), before);
    EndingMoves();
    before := Walk(Listener(NormalRpc, false, false, true), before, Complete(Done, true, 0), Forward, Begin, Ending());
    var d := HolderMoves();
    after := Walk(Acted(Ending()), [], WriterLock(0, GOODBYE), WriterEnqueue(0), WriterPush(0), d);
  }
}
