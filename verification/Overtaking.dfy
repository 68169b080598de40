/** A run in which Rpcs get their event queues in another order than they were
    created: one thread overtakes the other between Clone and the selection. */
module Overtaking {
  import opened RpcCore
  import opened Sequences
  import opened System
  import opened Projection
  import opened Cloning
  import opened Simulation
  import opened CloningProofs
  import opened ServerTheorems
  import opened Placement

  /** One client-streaming method, two completion queues and two event threads. */
  const TWO := Started([Method(0, ClientStreaming)], 2, 2)

  const ACCEPTED := Completion(NewConnection, true)

  /** The two listeners are served by different threads: Rpc 1 - t by thread t. */
  predicate TwoThreads(s: Sys) {
    && |s.slots| >= 2 && |s.workers| == 2 && |s.queues| == 2 && |s.cqs| == 2 && s.selected == [0, 1]
    && s.methods == [Method(0, ClientStreaming)] && s.stopped == {}
    && s.slots[0] == Slot(s.slots[0].rpc, true, 0, 0, 1) && s.slots[1] == Slot(s.slots[1].rpc, true, 0, 1, 0)
    && s.slots[0].rpc.kind == s.slots[1].rpc.kind == ClientStreaming
    && !s.workers[0].exited && !s.workers[1].exited
  }

  /** Both calls wait on their completion queues, or one of them still in gRPC. */
  predicate Waiting(s: Sys, first: bool, second: bool) {
    && TwoThreads(s) && |s.slots| == 2 && s.queues == [[], []] && s.workers[0].prog == s.workers[1].prog == Halt
    && s.cqs[0] == (if first then [Tagged(0, ACCEPTED)] else [])
    && s.cqs[1] == (if second then [Tagged(1, ACCEPTED)] else [])
    && (!first ==> NewConnection in s.slots[0].rpc.tokens) && (!second ==> NewConnection in s.slots[1].rpc.tokens)
  }

  lemma TwoWaits()
    ensures Waiting(TWO, false, false)
  {
    StartedSlot(TWO.methods, 2, 2, 0, 0);
    StartedSlot(TWO.methods, 2, 2, 0, 1);
  }

  lemma Posts(s: Sys)
    requires Waiting(s, false, false)
    ensures SysEnabled(s, SComplete(0, NewConnection, true, 0))
    ensures Waiting(SysNext(s, SComplete(0, NewConnection, true, 0)), true, false)
  {}

  lemma PostsAgain(s: Sys)
    requires Waiting(s, true, false)
    ensures SysEnabled(s, SComplete(1, NewConnection, true, 0))
    ensures Waiting(SysNext(s, SComplete(1, NewConnection, true, 0)), true, true)
  {}

  /** The calls are on their event queues, or one still on its completion queue. */
  predicate Queued(s: Sys, second: bool) {
    && TwoThreads(s) && |s.slots| == 2 && s.workers[0].prog == s.workers[1].prog == Halt
    && s.queues[1] == [Tagged(0, NewConnection)] && NewConnection in s.slots[0].rpc.oks
    && s.queues[0] == (if second then [Tagged(1, NewConnection)] else [])
    && s.cqs[1] == (if second then [] else [Tagged(1, ACCEPTED)]) && (second ==> NewConnection in s.slots[1].rpc.oks)
  }

  lemma Forwards(s: Sys)
    requires Waiting(s, true, true)
    ensures SysEnabled(s, SForward(0)) && Queued(SysNext(s, SForward(0)), false)
  {}

  lemma ForwardsAgain(s: Sys)
    requires Queued(s, false)
    ensures SysEnabled(s, SForward(1)) && Queued(SysNext(s, SForward(1)), true)
  {}

  const READING := Then(StartRead, CLONING)
  const SERVING := Then(CreateHandler, READING)

  lemma FirstBegins(s: Sys)
    requires Queued(s, true)
    ensures SysEnabled(s, SBegin(0)) && TwoThreads(SysNext(s, SBegin(0)))
    ensures SysNext(s, SBegin(0)).workers[0].id == 1 && SysNext(s, SBegin(0)).workers[0].prog == SERVING
    ensures SysNext(s, SBegin(0)).workers[1] == s.workers[1] && SysNext(s, SBegin(0)).queues[1] == s.queues[1]
    ensures SysNext(s, SBegin(0)).slots[0] == s.slots[0]
  {}

  lemma SecondBegins(s: Sys)
    requires TwoThreads(s) && s.workers[1].prog == Halt && s.queues[1] == [Tagged(0, NewConnection)]
    requires NewConnection in s.slots[0].rpc.oks && s.workers[0].prog == SERVING && s.workers[0].id == 1
    ensures SysEnabled(s, SBegin(1)) && Serving(SysNext(s, SBegin(1)), SERVING, SERVING)
  {}

  /** Both threads are at work. */
  predicate Serving(s: Sys, p0: Program, p1: Program) {
    TwoThreads(s) && s.workers[0].id == 1 && s.workers[1].id == 0 && s.workers[0].prog == p0 && s.workers[1].prog == p1
  }

  function After(p: Program): Program
    requires p.Then?
  {
    if p.action == CreateHandler then Then(CallbackReturn, p.next) else p.next
  }

  lemma OwnRpc(s: Sys, t: nat)
    requires Running(s, t) && s.slots[s.workers[t].id].active
    requires s.workers[t].prog.action in {CreateHandler, CallbackReturn, StartRead, CloneRpc}
    ensures var h, id := Half(s, t), s.workers[t].id;
      && h.workers[t].prog == After(s.workers[t].prog) && h.slots[id].active && h.slots[id].rpc.kind == s.slots[id].rpc.kind
  {}

  /** A thread advances by an action that does not select. */
  lemma Advance(s: Sys, t: nat, p0: Program, p1: Program)
    requires Serving(s, p0, p1) && t < 2 && (if t == 0 then p0 else p1).Then?
    requires (if t == 0 then p0 else p1).action in {CreateHandler, CallbackReturn, StartRead, CloneRpc}
    ensures SysEnabled(s, SAct(t))
    ensures var s' := SysNext(s, SAct(t));
      if t == 0 then Serving(s', After(p0), p1) else Serving(s', p0, After(p1))
  {
    HalfFrame(s, t);
    OwnRpc(s, t);
    BeyondServes(s, t, Half(s, t), p0, p1);
  }

  lemma BeyondServes(s: Sys, t: nat, h: Sys, p0: Program, p1: Program)
    requires Serving(s, p0, p1) && t < 2 && (if t == 0 then p0 else p1).Then? && SysEnabled(s, SAct(t)) && IsHalf(s, t, h)
    requires (if t == 0 then p0 else p1).action in {CreateHandler, CallbackReturn, StartRead, CloneRpc}
    requires var id := s.workers[t].id;
      && h.workers[t].prog == After(s.workers[t].prog) && h.slots[id].active && h.slots[id].rpc.kind == s.slots[id].rpc.kind
    ensures var s' := Beyond(s, t, h);
      if t == 0 then Serving(s', After(p0), p1) else Serving(s', p0, After(p1))
  {}

  /** Extends a run by one step. */
  lemma {:induction false} SysSnoc(s: Sys, steps: seq<SysStep>, x: SysStep)
    requires IsSysRun(s, steps) && SysEnabled(SysRun(s, steps), x)
    ensures IsSysRun(s, steps + [x]) && SysRun(s, steps + [x]) == SysNext(SysRun(s, steps), x)
    decreases |steps|
  {
    if steps == [] {
      assert [x][1..] == [] && steps + [x] == [x];
    } else {
      SysSnoc(SysNext(s, steps[0]), steps[1..], x);
      assert (steps + [x])[1..] == steps[1..] + [x];
    }
  }

  lemma Arrive() returns (steps: seq<SysStep>)
    ensures IsSysRun(TWO, steps) && Queued(SysRun(TWO, steps), true)
  {
    TwoWaits();
    Posts(TWO);
    SysSnoc(TWO, [], SComplete(0, NewConnection, true, 0));
    steps := [] + [SComplete(0, NewConnection, true, 0)];
    PostsAgain(SysRun(TWO, steps));
    SysSnoc(TWO, steps, SComplete(1, NewConnection, true, 0));
    steps := steps + [SComplete(1, NewConnection, true, 0)];
    Forwards(SysRun(TWO, steps));
    SysSnoc(TWO, steps, SForward(0));
    steps := steps + [SForward(0)];
    ForwardsAgain(SysRun(TWO, steps));
    SysSnoc(TWO, steps, SForward(1));
    steps := steps + [SForward(1)];
  }

  lemma BothServe() returns (steps: seq<SysStep>)
    ensures IsSysRun(TWO, steps) && Serving(SysRun(TWO, steps), SERVING, SERVING)
  {
    steps := Arrive();
    FirstBegins(SysRun(TWO, steps));
    SysSnoc(TWO, steps, SBegin(0));
    steps := steps + [SBegin(0)];
    SecondBegins(SysRun(TWO, steps));
    SysSnoc(TWO, steps, SBegin(1));
    steps := steps + [SBegin(1)];
  }

  lemma Go(run: seq<SysStep>, t: nat, p0: Program, p1: Program) returns (steps: seq<SysStep>)
    requires IsSysRun(TWO, run) && Serving(SysRun(TWO, run), p0, p1) && t < 2 && (if t == 0 then p0 else p1).Then?
    requires (if t == 0 then p0 else p1).action in {CreateHandler, CallbackReturn, StartRead, CloneRpc}
    ensures IsSysRun(TWO, steps)
    ensures if t == 0 then Serving(SysRun(TWO, steps), After(p0), p1) else Serving(SysRun(TWO, steps), p0, After(p1))
  {
    Advance(SysRun(TWO, run), t, p0, p1);
    SysSnoc(TWO, run, SAct(t));
    steps := run + [SAct(t)];
  }

  /** Thread 0 and then thread 1 advance until they have cloned their Rpcs. */
  lemma ToClones() returns (steps: seq<SysStep>)
    ensures IsSysRun(TWO, steps) && Serving(SysRun(TWO, steps), PLACING, PLACING)
  {
    steps := BothServe();
    steps := Go(steps, 0, SERVING, SERVING);
    steps := Go(steps, 0, Then(CallbackReturn, READING), SERVING);
    steps := Go(steps, 0, READING, SERVING);
    steps := Go(steps, 0, CLONING, SERVING);
    steps := Go(steps, 1, PLACING, SERVING);
    steps := Go(steps, 1, PLACING, Then(CallbackReturn, READING));
    steps := Go(steps, 1, PLACING, READING);
    steps := Go(steps, 1, PLACING, CLONING);
  }

  /** The new Rpcs in the threads' hands are younger than the first two. */
  lemma Younger(s: Sys, t: nat)
    requires Routed(s) && CloneInv(s) && Serving(s, PLACING, PLACING) && t < 2
    ensures Holding(s, t) && s.workers[t].clone.value >= 2
    ensures s.workers[0].clone != s.workers[1].clone
  {
    HoldsAtClone(s, t);
    HoldsAtClone(s, 0);
    HeldView(s, t, s.workers[t].clone.value);
  }

  lemma SelectsYounger(s: Sys, t: nat)
    requires Serving(s, PLACING, PLACING) && t < 2 && Holding(s, t) && s.workers[t].clone.value > 2
    ensures SysEnabled(s, SAct(t)) && !InOrder(SysNext(s, SAct(t)))
  {
    ActSelection(s, t);
    assert SysNext(s, SAct(t)).selected[2] == s.workers[t].clone.value;
  }

  lemma YoungerFirst(s: Sys) returns (t: nat)
    requires Routed(s) && CloneInv(s) && Serving(s, PLACING, PLACING)
    ensures SysEnabled(s, SAct(t)) && !InOrder(SysNext(s, SAct(t)))
  {
    Younger(s, 0);
    Younger(s, 1);
    t := if s.workers[0].clone.value == 2 then 1 else 0;
    SelectsYounger(s, t);
  }

  /** Both threads have cloned their Rpcs; the one with the younger clone
      selects first, so its Rpc overtakes the other's. */
  lemma OvertakingRun() returns (steps: seq<SysStep>)
    ensures IsSysRun(TWO, steps) && !InOrder(SysRun(TWO, steps))
  {
    steps := ToClones();
    StartedRouted([Method(0, ClientStreaming)], 2, 2);
    CloneRun(TWO, steps);
    var t := YoungerFirst(SysRun(TWO, steps));
    SysSnoc(TWO, steps, SAct(t));
    steps := steps + [SAct(t)];
  }
}
