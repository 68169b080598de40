/** Operations and the shutdown of completion queues. gRPC demands that no
    operation is started on a completion queue that was shut down; the server
    shuts them down while its event threads are still at work. */
module QueueShutdown {
  import opened RpcCore
  import opened Connection
  import opened Lifetime
  import opened Protocol
  import opened ProtocolProofs
  import opened Budgets
  import opened System
  import opened Projection
  import opened Cloning
  import opened Simulation
  import opened Frames
  import opened CloningProofs
  import opened ServerTheorems
  import opened ServerDraining
  import opened Overtaking

  // ---------------------------------------------------------------------
  // One connection

  /** The program may start an operation, of this Rpc or of its replacement. */
  predicate MayStart(p: Program) {
    p.Then? && (p.action == StartRead || p.action == Register || MayStart(p.next))
  }

  /** Nothing is left to send or to read. */
  predicate Spent(c: Conn) {
    c.rpc.sendQueue == [] && !ReadArriving(c) && !MayStart(c.prog)
  }

  lemma SpentExecute(r: Rpc, active: bool, alive: bool, p: Program)
    requires p.Then? && !MayStart(p) && r.sendQueue == []
    ensures var o := Execute(r, active, alive, p);
      o.rpc.sendQueue == [] && o.rpc.oks == r.oks && o.rpc.tokens == r.tokens && !MayStart(o.prog)
  {}

  lemma SpentAct(c: Conn)
    requires Spent(c) && c.prog.Then?
    ensures Spent(Acted(c)) && Acted(c).rpc.tokens == c.rpc.tokens
  {
    SpentExecute(c.rpc, c.active, Alive(c), c.prog);
    assert ReadArriving(Acted(c)) <==> ReadArriving(c);
  }

  lemma QuietPrograms(kind: Kind, e: Event, ok: bool, stopping: bool)
    requires (e == NewConnection ==> stopping) && (e == Read ==> !ok)
    ensures !MayStart(ProgramFor(kind, e, ok, stopping))
  {
    assert !MayStart(Then(RemoveIfNotPending, Then(Release, Halt))) && !MayStart(Then(RemoveIfNotPending, Halt));
  }

  lemma SpentBegin(c: Conn)
    requires Spent(c) && Enabled(c, Begin) && (c.queue[0] == NewConnection ==> c.stopping)
    ensures Spent(Begun(c)) && Begun(c).rpc.tokens == c.rpc.tokens
  {
    var e := c.queue[0];
    QuietPrograms(c.rpc.kind, e, e == WriteNeeded || e in c.rpc.oks, c.stopping);
    ReadStays(c);
  }

  lemma SpentForward(c: Conn)
    requires Inv(c) && Spent(c) && c.cq != []
    ensures Spent(Forwarded(c)) && Forwarded(c).rpc.tokens == c.rpc.tokens
  {
    ReadTravels(c);
  }

  /** A connection that has nothing left to send or to read starts no operation,
      and so it stays. */
  lemma SpentStep(c: Conn, s: Step)
    requires Inv(c) && c.down && Spent(c) && Enabled(c, s) && Winding(s)
    ensures Spent(Next(c, s)) && Next(c, s).rpc.tokens <= c.rpc.tokens
  {
    match s
    case Complete(e, ok, m) => assert ReadArriving(Completed(c, e, ok, m)) <==> ReadArriving(c);
    case Forward => SpentForward(c);
    case Begin => SpentBegin(c);
    case Act => SpentAct(c);
  }

  /** The next action hands gRPC a read, or the head of the send queue. */
  predicate StartsNext(c: Conn) {
    && Alive(c) && c.prog.Then?
    && ((c.prog.action == StartRead && c.rpc.kind.StreamsRequests()) ||
        (c.prog.action == SendNext && c.rpc.sendQueue != [] && Write !in c.rpc.pending && Finish !in c.rpc.pending))
  }

  lemma MoreTokens(a: multiset<Event>, e: Event)
    ensures !(a + multiset{e} <= a)
  {
    assert (a + multiset{e})[e] == a[e] + 1;
  }

  lemma ReadStartsIff(r: Rpc)
    ensures !(IssueRead(r).tokens <= r.tokens) <==> r.kind.StreamsRequests()
  {
    MoreTokens(r.tokens, Read);
  }

  lemma SendStartsIff(r: Rpc)
    ensures !(HandleSendQueue(r).tokens <= r.tokens) <==>
      r.sendQueue != [] && Write !in r.pending && Finish !in r.pending
  {
    MoreTokens(r.tokens, Write);
    MoreTokens(r.tokens, Finish);
  }

  lemma ActStartsIff(c: Conn)
    requires c.prog.Then?
    ensures !(Acted(c).rpc.tokens <= c.rpc.tokens) <==> StartsNext(c)
  {
    if !Alive(c) {
      assert Acted(c).rpc == Raise(c.rpc, UseAfterFree) || Acted(c).rpc == c.rpc;
    } else if c.prog.action == SendNext {
      SendStartsIff(c.rpc);
    } else if c.prog.action == StartRead {
      ReadStartsIff(c.rpc);
    } else {
      QuietAct(c);
    }
  }

  lemma StepStartsIff(c: Conn, s: Step)
    requires Enabled(c, s)
    ensures !(Next(c, s).rpc.tokens <= c.rpc.tokens) <==> s == Act && StartsNext(c)
  {
    match s
    case Act => ActStartsIff(c);
    case Complete(e, ok, m) => assert Next(c, s).rpc == Post(c.rpc, e, ok, m);
    case Forward => assert Next(c, s).rpc == Forwarded(c).rpc;
    case Begin => assert Next(c, s).rpc == Begun(c).rpc;
    case HandlerSend(item) => assert Next(c, s).rpc == HandlerSent(c, item).rpc;
    case WriterPush(w) => assert Next(c, s).rpc == WriterPushed(c, w).rpc;
    case _ =>
  }

  // ---------------------------------------------------------------------
  // The server

  /** The step hands gRPC an operation of Rpc `j`. */
  predicate Starts(s: Sys, x: SysStep, j: nat)
    requires SysEnabled(s, x)
  {
    j < |s.slots| && j < |SysNext(s, x).slots| && !(SysNext(s, x).slots[j].rpc.tokens <= s.slots[j].rpc.tokens)
  }

  /** ... on a completion queue that was shut down. */
  predicate StartsLate(s: Sys, x: SysStep)
    requires SysEnabled(s, x)
  {
    exists j :: 0 <= j < |s.slots| && s.slots[j].cq in s.shut && Starts(s, x, j)
  }

  /** A step hands gRPC an operation if and only if it registers the Rpc, or it is
      an action of the Rpc's own thread that reads or sends. */
  lemma StartsIff(s: Sys, x: SysStep, j: nat)
    requires SysInv(s) && SysEnabled(s, x) && Routed(SysNext(s, x)) && j < |s.slots|
    ensures Starts(s, x, j) <==>
      Registers(s, x, j) || (x.SAct? && s.workers[x.t].id == j && StartsNext(View(s, j)))
  {
    RouteStep(s, x, j);
    assert View(s, j).rpc == s.slots[j].rpc && View(SysNext(s, x), j).rpc == SysNext(s, x).slots[j].rpc;
    if Registers(s, x, j) { RegisteredStarts(s, x, j); }
    else if Target(s, x).None? { SimGlobal(s, x, j); }
    else if Target(s, x).value == j { TargetStarts(s, x, j); }
    else { OtherConn(s, x, j); }
  }

  lemma RegisteredStarts(s: Sys, x: SysStep, j: nat)
    requires Routed(s) && CloneInv(s) && SysEnabled(s, x) && Registers(s, x, j) && j < |s.slots|
    ensures Starts(s, x, j)
  {
    HeldView(s, x.t, j);
    SimRegister(s, x.t, j);
    assert View(s, j).rpc == s.slots[j].rpc && View(SysNext(s, x), j).rpc == SysNext(s, x).slots[j].rpc;
    assert Done in SysNext(s, x).slots[j].rpc.tokens;
  }

  lemma TargetStarts(s: Sys, x: SysStep, j: nat)
    requires SysInv(s) && SysEnabled(s, x) && Target(s, x) == Some(j) && j < |s.slots| && !Registers(s, x, j)
    ensures Starts(s, x, j) <==> x.SAct? && StartsNext(View(s, j))
  {
    SimLocal(s, x);
    MoveStarts(s, SysNext(s, x), j, LocalStep(x), BornBy(s, x));
    assert LocalStep(x) == Act <==> x.SAct?;
  }

  lemma MoveStarts(s: Sys, s': Sys, j: nat, step: Step, born: Option<nat>)
    requires Routed(s) && MovesBut(s, s', j, step, born)
    ensures !(s'.slots[j].rpc.tokens <= s.slots[j].rpc.tokens) <==> step == Act && StartsNext(View(s, j))
  {
    StepStartsIff(View(s, j), step);
    assert View(s, j).rpc == s.slots[j].rpc && View(s', j).rpc == s'.slots[j].rpc;
  }

  predicate NeverLate(s: Sys, steps: seq<SysStep>)
    requires IsSysRun(s, steps)
    decreases |steps|
  {
    steps == [] || (!StartsLate(s, steps[0]) && NeverLate(SysNext(s, steps[0]), steps[1..]))
  }

  /** The Rpcs of all completion queues that were shut down have nothing left to do. */
  predicate ShutSpent(s: Sys)
    requires Routed(s)
  {
    forall j {:trigger View(s, j)} :: 0 <= j < |s.slots| && s.slots[j].cq in s.shut ==> Spent(View(s, j))
  }

  lemma QuietShut(s: Sys, x: SysStep)
    requires SysEnabled(s, x) && Quiet(x)
    ensures SysNext(s, x).shut == s.shut
  {
    if x.SAct? { HalfFrame(s, x.t); BeyondShut(s, x.t, Half(s, x.t)); }
  }

  lemma BeyondShut(s: Sys, t: nat, h: Sys)
    requires SysEnabled(s, SAct(t)) && IsHalf(s, t, h)
    ensures Beyond(s, t, h).shut == s.shut
  {}

  lemma TargetSpent(s: Sys, x: SysStep)
    requires SysInv(s) && s.down && SysEnabled(s, x) && Quiet(x)
    ensures Target(s, x).Some? && Target(s, x).value < |s.slots| <= |SysNext(s, x).slots| && Routed(SysNext(s, x))
    ensures var c, c' := View(s, Target(s, x).value), View(SysNext(s, x), Target(s, x).value);
      Spent(c) ==> Spent(c') && c'.rpc.tokens <= c.rpc.tokens
  {
    TargetReachable(s, x);
    SimLocal(s, x);
    var c := View(s, Target(s, x).value);
    if Spent(c) { SpentStep(c, LocalStep(x)); }
  }

  /** Registering for a completion queue is up to an Rpc of that queue. */
  lemma RegistersForSame(s: Sys, x: SysStep, j: nat)
    requires SysInv(s) && SysEnabled(s, x) && Registers(s, x, j) && j < |s.slots|
    ensures var id := s.workers[x.t].id; id < |s.slots| && s.slots[id].cq == s.slots[j].cq && !Spent(View(s, id))
  {
    HeldView(s, x.t, j);
    RunningView(s, x.t);
  }

  lemma NotRegistered(s: Sys, x: SysStep, j: nat)
    requires SysInv(s) && ShutSpent(s) && SysEnabled(s, x) && j < |s.slots| && s.slots[j].cq in s.shut
    ensures !Registers(s, x, j)
  {
    if Registers(s, x, j) { RegistersForSame(s, x, j); }
  }

  /** What a step does to the Rpcs it does not work on. */
  lemma OtherConn(s: Sys, x: SysStep, j: nat)
    requires SysInv(s) && SysEnabled(s, x) && Target(s, x).Some? && Routed(SysNext(s, x)) && !Registers(s, x, j)
    requires j < |s.slots| && j < |SysNext(s, x).slots| && j != Target(s, x).value
    ensures var c, c' := View(s, j), View(SysNext(s, x), j);
      c' == c.(active := c'.active, held := c'.held)
  {
    if BornBy(s, x) != Some(j) { SimLocal(s, x); }
    else if Drops(s, x, j) { SimDrop(s, x.t, j); }
    else { SimAdd(s, x.t, j); }
  }

  lemma SameSpent(c: Conn, c': Conn)
    requires Spent(c) && c' == c.(active := c'.active, held := c'.held)
    ensures Spent(c') && c'.rpc == c.rpc
  {}

  lemma OtherSpent(s: Sys, x: SysStep, j: nat)
    requires SysInv(s) && ShutSpent(s) && SysEnabled(s, x) && Target(s, x).Some? && Routed(SysNext(s, x))
    requires j < |s.slots| && j < |SysNext(s, x).slots| && j != Target(s, x).value && s.slots[j].cq in s.shut
    ensures Spent(View(SysNext(s, x), j)) && View(SysNext(s, x), j).rpc == View(s, j).rpc
  {
    assert Spent(View(s, j));
    NotRegistered(s, x, j);
    OtherConn(s, x, j);
    SameSpent(View(s, j), View(SysNext(s, x), j));
  }

  /** Creating an Rpc for a completion queue is, too. */
  lemma NewSpent(s: Sys, x: SysStep, j: nat)
    requires SysInv(s) && ShutSpent(s) && SysEnabled(s, x) && |s.slots| <= j < |SysNext(s, x).slots|
    ensures SysNext(s, x).slots[j].cq !in s.shut
  {
    OnlyClonesAdd(s, x, j);
    NewSlot(s, x.t);
    ClonerNotSpent(s, x.t);
  }

  lemma ClonerNotSpent(s: Sys, t: nat)
    requires Routed(s) && CloneInv(s) && Clones(s, t)
    ensures !Spent(View(s, s.workers[t].id))
  {
    RunningView(s, t);
    assert HoldOk(s, t);
    assert MayStart(REGISTERING) && MayStart(ADDING) && MayStart(PLACING);
  }

  lemma OldSpent(s: Sys, x: SysStep, s': Sys, j: nat)
    requires SysInv(s) && s.down && ShutSpent(s) && SysEnabled(s, x) && Quiet(x) && s' == SysNext(s, x) && Routed(s')
    requires j < |s.slots| && j < |s'.slots| && s.slots[j].cq in s.shut
    ensures Spent(View(s', j)) && s'.slots[j].rpc.tokens <= s.slots[j].rpc.tokens
  {
    assert Spent(View(s, j));
    TargetSpent(s, x);
    if j != Target(s, x).value { OtherSpent(s, x, j); }
    assert View(s', j).rpc == s'.slots[j].rpc && View(s, j).rpc == s.slots[j].rpc;
  }

  lemma SlotSpent(s: Sys, x: SysStep, s': Sys, j: nat)
    requires SysInv(s) && s.down && ShutSpent(s) && SysEnabled(s, x) && Quiet(x) && s' == SysNext(s, x) && Routed(s')
    requires j < |s'.slots| && s'.slots[j].cq in s.shut
    ensures Spent(View(s', j))
  {
    if j >= |s.slots| { NewSpent(s, x, j); }
    RouteStep(s, x, j);
    OldSpent(s, x, s', j);
  }

  lemma SpentSysStep(s: Sys, x: SysStep)
    requires SysInv(s) && s.down && ShutSpent(s) && SysEnabled(s, x) && Quiet(x)
    ensures Routed(SysNext(s, x)) && ShutSpent(SysNext(s, x)) && !StartsLate(s, x)
  {
    RoutedStep(s, x);
    QuietShut(s, x);
    var s' := SysNext(s, x);
    forall j | 0 <= j < |s'.slots| && s'.slots[j].cq in s'.shut ensures Spent(View(s', j)) {
      SlotSpent(s, x, s', j);
    }
    forall j | 0 <= j < |s.slots| && s.slots[j].cq in s.shut ensures !Starts(s, x, j) {
      RouteStep(s, x, j);
      OldSpent(s, x, s', j);
    }
  }

  /** If the Rpcs of a completion queue have nothing left to send or to read when it
      is shut down, no operation is started on it any more, however the threads
      take turns. */
  lemma {:induction false} SpentQueuesAreSafe(s: Sys, steps: seq<SysStep>)
    requires SysInv(s) && Winds(s) && ShutSpent(s) && QuietRun(s, steps)
    ensures IsSysRun(s, steps) && NeverLate(s, steps)
    decreases |steps|
  {
    if steps != [] {
      SpentSysStep(s, steps[0]);
      WindStep(s, steps[0]);
      SpentQueuesAreSafe(SysNext(s, steps[0]), steps[1..]);
    }
  }

  // ---------------------------------------------------------------------
  // A late start

  /** Thread 0 is about to register the Rpc it has created. */
  predicate AtRegister(s: Sys) {
    && |s.workers| > 0 && |s.queues| > 0 && At(s, 0, Register) && s.slots[s.workers[0].id].eq < |s.queues|
    && s.workers[0].clone.Some?
  }

  lemma ToRegister() returns (steps: seq<SysStep>)
    ensures IsSysRun(TWO, steps) && AtRegister(SysRun(TWO, steps)) && SysRun(TWO, steps).methods == TWO.methods
    ensures |SysRun(TWO, steps).cqs| == 2
  {
    steps := ToClones();
    var s := SysRun(TWO, steps);
    StartedRouted(TWO.methods, 2, 2);
    CloneRun(TWO, steps);
    PlacingGoesOn(s);
    SysSnoc(TWO, steps, SAct(0));
    steps := steps + [SAct(0)];
    CloneRun(TWO, steps);
    AddingGoesOn(SysRun(TWO, steps));
    SysSnoc(TWO, steps, SAct(0));
    steps := steps + [SAct(0)];
    CloneRun(TWO, steps);
    HoldsAtClone(SysRun(TWO, steps), 0);
  }

  lemma PlacingGoesOn(s: Sys)
    requires Routed(s) && CloneInv(s) && Serving(s, PLACING, PLACING)
    ensures SysEnabled(s, SAct(0)) && At(SActed(s, 0), 0, AddClone) && SActed(s, 0).methods == s.methods
    ensures |SActed(s, 0).cqs| == 2
  {
    GoesOn(s, 0);
  }

  lemma AddingGoesOn(s: Sys)
    requires Routed(s) && CloneInv(s) && |s.workers| > 0 && At(s, 0, AddClone)
    ensures SysEnabled(s, SAct(0)) && At(SActed(s, 0), 0, Register) && SActed(s, 0).methods == s.methods
    ensures |SActed(s, 0).cqs| == |s.cqs|
  {
    GoesOn(s, 0);
  }

  lemma GoesOn(s: Sys, t: nat)
    requires Routed(s) && CloneInv(s) && t < |s.workers| && (At(s, t, SelectQueue) || At(s, t, AddClone))
    ensures SysEnabled(s, SAct(t)) && SameServer(s, SActed(s, t)) && Running(SActed(s, t), t)
    ensures SActed(s, t).workers[t].prog == s.workers[t].prog.next
    ensures SActed(s, t).workers[t].prog.action == if At(s, t, SelectQueue) then AddClone else Register
  {
    HoldsAtClone(s, t);
    assert HoldOk(s, t);
    HeldView(s, t, s.workers[t].clone.value);
    RunningView(s, t);
    CloningHands(s, t);
    ActFrame(s, t);
  }

  /** The server is shut down meanwhile. */
  lemma ShutsDown(run: seq<SysStep>, q: nat) returns (steps: seq<SysStep>)
    requires IsSysRun(TWO, run) && AtRegister(SysRun(TWO, run)) && SysRun(TWO, run).methods == TWO.methods
    requires q < |SysRun(TWO, run).cqs|
    ensures IsSysRun(TWO, steps) && AtRegister(SysRun(TWO, steps)) && q in SysRun(TWO, steps).shut
    ensures SysRun(TWO, steps).slots == SysRun(TWO, run).slots && SysRun(TWO, steps).workers == SysRun(TWO, run).workers
  {
    SysSnoc(TWO, run, SClose);
    steps := run + [SClose];
    SysSnoc(TWO, steps, SStop(0));
    steps := steps + [SStop(0)];
    SysSnoc(TWO, steps, SGrpcShutdown);
    steps := steps + [SGrpcShutdown];
    SysSnoc(TWO, steps, SQueueShutdown(q));
    steps := steps + [SQueueShutdown(q)];
  }

  /** A thread is about to register a replacement listener when the server is shut
      down: it hands gRPC operations on a completion queue that was shut down. */
  lemma LateRegistration() returns (steps: seq<SysStep>)
    ensures IsSysRun(TWO, steps) && SysEnabled(SysRun(TWO, steps), SAct(0)) && StartsLate(SysRun(TWO, steps), SAct(0))
  {
    steps := ToRegister();
    StartedRouted(TWO.methods, 2, 2);
    CloneRun(TWO, steps);
    HeldView(SysRun(TWO, steps), 0, SysRun(TWO, steps).workers[0].clone.value);
    var q := SysRun(TWO, steps).slots[SysRun(TWO, steps).workers[0].clone.value].cq;
    steps := ShutsDown(steps, q);
    CloneRun(TWO, steps);
    RegisterStarts(SysRun(TWO, steps), SysRun(TWO, steps).workers[0].clone.value);
  }

  lemma RegisterStarts(s: Sys, c: nat)
    requires Routed(s) && CloneInv(s) && AtRegister(s) && Held(s, 0, c) && c < |s.slots| && s.slots[c].cq in s.shut
    ensures SysEnabled(s, SAct(0)) && StartsLate(s, SAct(0))
  {
    RegisteredStarts(s, SAct(0), c);
  }
}
