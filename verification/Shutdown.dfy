/** Lifetimes, serial execution and shutdown, for the whole server. */
module Shutdown {
  import opened Arithmetic
  import opened RpcCore
  import opened Connection
  import opened Lifetime
  import opened ConnectionTheorems
  import opened Sequences
  import opened System
  import opened Projection
  import opened Cloning
  import opened Simulation
  import opened Frames
  import opened CloningProofs
  import opened ServerTheorems

  /** No Rpc of the server ran into a fault, and whatever refers to an Rpc
      refers to one that is in active_rpcs_: tags held by gRPC, entries of
      completion queues, entries of event queues other than WRITE_NEEDED,
      running programs and Writer calls. */
  predicate Safe(s: Sys)
    requires Routed(s)
  {
    && (forall j :: 0 <= j < |s.slots| ==> s.slots[j].rpc.faults == {})
    && (forall j :: 0 <= j < |s.slots| && s.slots[j].rpc.tokens != multiset{} ==> s.slots[j].active)
    && (forall q, i :: 0 <= q < |s.cqs| && 0 <= i < |s.cqs[q]| ==> s.slots[s.cqs[q][i].id].active)
    && (forall q, i :: 0 <= q < |s.queues| && 0 <= i < |s.queues[q]| && s.queues[q][i].value != WriteNeeded ==>
          s.slots[s.queues[q][i].id].active)
    && (forall t :: 0 <= t < |s.workers| && s.workers[t].prog.Then? ==> s.slots[s.workers[t].id].active)
    && (forall w :: w in s.writers ==> s.slots[s.writers[w].id].active)
  }

  /** An Rpc with a tag, an entry, an event, a thread or a Writer is registered. */
  lemma BusyReachable(s: Sys, j: nat)
    requires SysInv(s) && j < |s.slots|
    requires var c := View(s, j); c.rpc.tokens != multiset{} || c.cq != [] || c.queue != [] || c.writers != map[]
    ensures Reachable(View(s, j))
  {
    if InHands(s, j) {
      var t :| 0 <= t < |s.workers| && s.workers[t].clone == Some(j);
      HeldView(s, t, j);
    }
  }

  lemma BusyActive(s: Sys, j: nat)
    requires SysInv(s) && j < |s.slots|
    ensures s.slots[j].rpc.faults == {}
    ensures s.slots[j].rpc.tokens != multiset{} ==> s.slots[j].active
  {
    if InHands(s, j) {
      var t :| 0 <= t < |s.workers| && s.workers[t].clone == Some(j);
      HeldView(s, t, j);
      assert View(s, j).rpc == s.slots[j].rpc;
    } else {
      ReachableFullInv(View(s, j));
    }
  }

  lemma EntriesActive(s: Sys, q: nat, i: nat)
    requires SysInv(s) && q < |s.cqs| && i < |s.cqs[q]|
    ensures s.slots[s.cqs[q][i].id].active
  {
    MineContains(s.cqs[q], i);
    BusyReachable(s, s.cqs[q][i].id);
    ReachableFullInv(View(s, s.cqs[q][i].id));
  }

  lemma EventsActive(s: Sys, q: nat, i: nat)
    requires SysInv(s) && q < |s.queues| && i < |s.queues[q]| && s.queues[q][i].value != WriteNeeded
    ensures s.slots[s.queues[q][i].id].active
  {
    MineContains(s.queues[q], i);
    BusyReachable(s, s.queues[q][i].id);
    ReachableFullInv(View(s, s.queues[q][i].id));
  }

  lemma RunnersActive(s: Sys, t: nat)
    requires SysInv(s) && t < |s.workers| && s.workers[t].prog.Then?
    ensures s.slots[s.workers[t].id].active
  {
    RunnerReachable(s, t);
    ReachableFullInv(View(s, s.workers[t].id));
  }

  lemma WritersActive(s: Sys, w: nat)
    requires SysInv(s) && w in s.writers
    ensures s.slots[s.writers[w].id].active
  {
    WriterOfView(s, w);
    BusyReachable(s, s.writers[w].id);
    ReachableFullInv(View(s, s.writers[w].id));
  }

  lemma ServerSafe(s: Sys)
    requires SysInv(s)
    ensures Safe(s)
  {
    forall j | 0 <= j < |s.slots|
      ensures s.slots[j].rpc.faults == {} && (s.slots[j].rpc.tokens != multiset{} ==> s.slots[j].active)
    {
      BusyActive(s, j);
    }
    forall q, i | 0 <= q < |s.cqs| && 0 <= i < |s.cqs[q]| ensures s.slots[s.cqs[q][i].id].active {
      EntriesActive(s, q, i);
    }
    forall q, i | 0 <= q < |s.queues| && 0 <= i < |s.queues[q]| && s.queues[q][i].value != WriteNeeded
      ensures s.slots[s.queues[q][i].id].active
    {
      EventsActive(s, q, i);
    }
    forall t | 0 <= t < |s.workers| && s.workers[t].prog.Then? ensures s.slots[s.workers[t].id].active {
      RunnersActive(s, t);
    }
    forall w | w in s.writers ensures s.slots[s.writers[w].id].active {
      WritersActive(s, w);
    }
  }

  /** Safety of every server on every admissible run. */
  lemma EveryRunIsSafe(methods: seq<Method>, numCqs: nat, numQueues: nat, steps: seq<SysStep>)
    requires numQueues > 0 && AdmissibleSysRun(Started(methods, numCqs, numQueues), steps)
    ensures IsSysRun(Started(methods, numCqs, numQueues), steps)
    ensures var s := SysRun(Started(methods, numCqs, numQueues), steps); SysInv(s) && Safe(s)
  {
    StartedInv(methods, numCqs, numQueues);
    SysRunKeeps(Started(methods, numCqs, numQueues), steps);
    ServerSafe(SysRun(Started(methods, numCqs, numQueues), steps));
  }

  // ---------------------------------------------------------------------
  // Serial execution

  /** A thread has created the Rpc and not yet given it its event queue. */
  predicate Unplaced(s: Sys, j: nat) {
    exists t :: 0 <= t < |s.workers| && At(s, t, SelectQueue) && s.workers[t].clone == Some(j)
  }

  lemma PlacedStays(s: Sys, x: SysStep, j: nat)
    requires Routed(s) && CloneInv(s) && SysEnabled(s, x) && j < |s.slots| && !Unplaced(s, j)
    ensures j < |SysNext(s, x).slots| && SameRoute(s.slots[j], SysNext(s, x).slots[j]) && !Unplaced(SysNext(s, x), j)
  {
    RouteStep(s, x, j);
    assert !Places(s, x, j);
    var s' := SysNext(s, x);
    if Unplaced(s', j) {
      var t :| 0 <= t < |s'.workers| && At(s', t, SelectQueue) && s'.workers[t].clone == Some(j);
      HandsStep(s, x, t);
      NewlySelecting(s, x, t);
    }
  }

  lemma ActSelecting(s: Sys, t: nat)
    requires Routed(s) && SysEnabled(s, SAct(t)) && HoldOk(s, t) && SActed(s, t).workers[t].prog.Then?
    requires SActed(s, t).workers[t].prog.action == SelectQueue
    ensures Clones(s, t) && SActed(s, t).workers[t].clone == Some(|s.slots|)
  {
    var worker := s.workers[t];
    ExecuteForm(s.slots[worker.id].rpc, s.slots[worker.id].active, Live(s, worker.id), worker.prog);
    ActHands(s, t);
  }

  /** A thread that is about to select a queue was so before, or just cloned. */
  lemma NewlySelecting(s: Sys, x: SysStep, t: nat)
    requires Routed(s) && CloneInv(s) && SysEnabled(s, x) && t < |s.workers| && At(SysNext(s, x), t, SelectQueue)
    ensures At(s, t, SelectQueue) || (Creates(s, x) && x.t == t && SysNext(s, x).workers[t].clone == Some(|s.slots|))
  {
    OnlyActorChanges(s, x, t);
    assert HoldOk(s, t);
    if x.SAct? && x.t == t {
      ActSelecting(s, t);
    } else if x.SBegin? && x.t == t {
      BeginForm(s, t);
    }
  }

  /** Once it has its event queue, an Rpc keeps it for life, and its completion
      queue and method anyway. */
  lemma {:induction false} RouteIsFixed(s: Sys, steps: seq<SysStep>, j: nat)
    requires Routed(s) && CloneInv(s) && IsSysRun(s, steps) && j < |s.slots| && !Unplaced(s, j)
    ensures j < |SysRun(s, steps).slots| && SameRoute(s.slots[j], SysRun(s, steps).slots[j])
    ensures !Unplaced(SysRun(s, steps), j)
    decreases |steps|
  {
    if steps != [] {
      PlacedStays(s, steps[0], j);
      CloneStep(s, steps[0]);
      RouteIsFixed(SysNext(s, steps[0]), steps[1..], j);
    }
  }

  /** Nothing in the server refers to the Rpc, and gRPC has not heard of it. */
  predicate Unknown(s: Sys, j: nat)
    requires j < |s.slots|
  {
    && s.slots[j].rpc == Fresh(s.slots[j].rpc.kind) && !s.slots[j].active
    && (forall q, i :: 0 <= q < |s.queues| && 0 <= i < |s.queues[q]| ==> s.queues[q][i].id != j)
    && (forall q, i :: 0 <= q < |s.cqs| && 0 <= i < |s.cqs[q]| ==> s.cqs[q][i].id != j)
    && (forall t :: 0 <= t < |s.workers| && s.workers[t].prog.Then? ==> s.workers[t].id != j)
    && (forall w :: w in s.writers ==> s.writers[w].id != j)
  }

  lemma UnplacedUnknown(s: Sys, j: nat)
    requires Routed(s) && CloneInv(s) && j < |s.slots| && Unplaced(s, j)
    ensures Unknown(s, j)
  {
    var t :| 0 <= t < |s.workers| && At(s, t, SelectQueue) && s.workers[t].clone == Some(j);
    HeldView(s, t, j);
    assert View(s, j).rpc == s.slots[j].rpc && View(s, j).active == s.slots[j].active;
    forall q, i | 0 <= q < |s.queues| && 0 <= i < |s.queues[q]| ensures s.queues[q][i].id != j {
      NoEvents(s, j, q, i);
    }
    forall q, i | 0 <= q < |s.cqs| && 0 <= i < |s.cqs[q]| ensures s.cqs[q][i].id != j {
      if s.cqs[q][i].id == j { MineContains(s.cqs[q], i); }
    }
    forall u | 0 <= u < |s.workers| && s.workers[u].prog.Then? ensures s.workers[u].id != j {
      RunningView(s, u);
    }
    forall w | w in s.writers ensures s.writers[w].id != j {
      WriterOfView(s, w);
    }
  }

  /** On every run of every server the event queue of an Rpc is set before
      anything of it exists: no tag, completion, event, thread or Writer call. */
  lemma QueueComesFirst(methods: seq<Method>, numCqs: nat, numQueues: nat, steps: seq<SysStep>, j: nat)
    requires numQueues > 0 && IsSysRun(Started(methods, numCqs, numQueues), steps)
    ensures var s := SysRun(Started(methods, numCqs, numQueues), steps);
      j < |s.slots| && Unplaced(s, j) ==> Unknown(s, j)
  {
    StartedRouted(methods, numCqs, numQueues);
    CloneRun(Started(methods, numCqs, numQueues), steps);
    var s := SysRun(Started(methods, numCqs, numQueues), steps);
    if j < |s.slots| && Unplaced(s, j) { UnplacedUnknown(s, j); }
  }

  /** On every run, admissible or not: no two threads run code of the same Rpc,
      and an Rpc's code only runs on the thread of its own event queue. */
  lemma SerialExecution(methods: seq<Method>, numCqs: nat, numQueues: nat, steps: seq<SysStep>, t: nat, u: nat)
    requires numQueues > 0 && IsSysRun(Started(methods, numCqs, numQueues), steps)
    ensures var s := SysRun(Started(methods, numCqs, numQueues), steps);
      Running(s, t) && Running(s, u) ==>
        && (t != u ==> s.workers[t].id != s.workers[u].id)
        && s.slots[s.workers[t].id].eq == t
  {
    StartedRouted(methods, numCqs, numQueues);
    CloneRun(Started(methods, numCqs, numQueues), steps);
  }

  // ---------------------------------------------------------------------
  // Shutdown

  /** gRPC has delivered everything and no thread is in the middle of an event. */
  predicate Quiescent(s: Sys) {
    && (forall j :: 0 <= j < |s.slots| ==> s.slots[j].rpc.tokens == multiset{})
    && (forall q :: 0 <= q < |s.cqs| ==> s.cqs[q] == [])
    && (forall t :: 0 <= t < |s.workers| ==> s.workers[t].prog == Halt)
  }

  /** Only stale WRITE_NEEDED events are left. */
  predicate TagsHandled(s: Sys) {
    forall q, i :: 0 <= q < |s.queues| && 0 <= i < |s.queues[q]| ==> s.queues[q][i].value == WriteNeeded
  }

  /** active_rpcs_ is empty, so its destructor does not abort. */
  predicate NoneInFlight(s: Sys) {
    forall j :: 0 <= j < |s.slots| ==> !s.slots[j].active
  }

  lemma IdleReachable(s: Sys, j: nat)
    requires SysInv(s) && j < |s.slots| && forall t :: 0 <= t < |s.workers| ==> s.workers[t].prog == Halt
    ensures Reachable(View(s, j))
  {
    if InHands(s, j) {
      var t :| 0 <= t < |s.workers| && s.workers[t].clone == Some(j);
      HeldView(s, t, j);
    }
  }

  lemma ActiveHasTag(s: Sys, j: nat) returns (q: nat, i: nat)
    requires SysInv(s) && Quiescent(s) && j < |s.slots| && s.slots[j].active
    ensures q < |s.queues| && i < |s.queues[q]| && s.queues[q][i].value != WriteNeeded
  {
    var c := View(s, j);
    IdleReachable(s, j);
    var e := NoLeak(c);
    assert Events(c.cq) == [];
    assert e in multiset(c.queue);
    q := s.slots[j].eq;
    i := MineFrom(s.queues[q], j, e);
  }

  /** Once gRPC is done and the threads are idle, the "RPCs still in flight"
      abort is avoided if and only if every tag was handled. */
  lemma CleanShutdownIff(s: Sys)
    requires SysInv(s) && Quiescent(s)
    ensures NoneInFlight(s) <==> TagsHandled(s)
  {
    if TagsHandled(s) {
      forall j | 0 <= j < |s.slots| ensures !s.slots[j].active {
        if s.slots[j].active { var q, i := ActiveHasTag(s, j); }
      }
    } else {
      ServerSafe(s);
    }
  }

  // ---------------------------------------------------------------------
  // The drain loops

  /** The thread of active Rpc `j`'s event queue has left RunEventQueue. */
  predicate Abandoned(s: Sys, j: nat) {
    j < |s.slots| && s.slots[j].active && s.slots[j].eq < |s.workers| && s.workers[s.slots[j].eq].exited
  }

  predicate AnyAbandoned(s: Sys) {
    exists j :: 0 <= j < |s.slots| && Abandoned(s, j)
  }

  /** A thread times out on its last pop although Rpcs of its queue are active,
      or a new Rpc is added on a queue whose thread has left. */
  predicate Strands(s: Sys, x: SysStep) {
    || (x.SExit? && exists j :: 0 <= j < |s.slots| && s.slots[j].active && s.slots[j].eq == x.t)
    || (exists j :: 0 <= j < |s.slots| && Adds(s, x, j) && s.slots[j].eq < |s.workers| && s.workers[s.slots[j].eq].exited)
  }

  predicate NeverStrands(s: Sys, steps: seq<SysStep>)
    requires IsSysRun(s, steps)
    decreases |steps|
  {
    steps == [] || (!Strands(s, steps[0]) && NeverStrands(SysNext(s, steps[0]), steps[1..]))
  }

  /** A thread that has left its loop runs nothing. */
  predicate ExitedIdle(s: Sys) {
    forall t :: 0 <= t < |s.workers| && s.workers[t].exited ==> s.workers[t].prog == Halt
  }

  lemma ExitedStep(s: Sys, x: SysStep, t: nat)
    requires Routed(s) && SysEnabled(s, x) && ExitedIdle(s) && t < |s.workers|
    ensures t < |SysNext(s, x).workers|
    ensures SysNext(s, x).workers[t].exited <==> s.workers[t].exited || x == SExit(t)
    ensures SysNext(s, x).workers[t].exited ==> SysNext(s, x).workers[t].prog == Halt
  {
    OnlyActorChanges(s, x, t);
    if x.SAct? { ActFrame(s, x.t); }
  }

  lemma PlacedInactive(s: Sys, x: SysStep, j: nat)
    requires Routed(s) && CloneInv(s) && j < |s.slots| && (Places(s, x, j) || Adds(s, x, j))
    ensures !s.slots[j].active
  {
    HeldInactive(s, x.t, j);
  }

  /** Membership in active_rpcs_ changes by adding, and by the Rpc's own thread. */
  lemma ActiveStep(s: Sys, x: SysStep, j: nat)
    requires Routed(s) && CloneInv(s) && SysEnabled(s, x) && j < |s.slots|
    ensures j < |SysNext(s, x).slots|
    ensures SysNext(s, x).slots[j].active ==> s.slots[j].active || Adds(s, x, j)
    ensures Adds(s, x, j) ==> SysNext(s, x).slots[j].active
    ensures s.slots[j].active && !SysNext(s, x).slots[j].active ==> x.SAct? && Running(s, x.t) && s.workers[x.t].id == j
  {
    if x.SAct? {
      ActFrame(s, x.t);
      if s.workers[x.t].id == j { OwnActive(s, x.t); }
    } else {
      OtherUndisturbed(s, x);
    }
  }

  lemma OwnActive(s: Sys, t: nat)
    requires Routed(s) && CloneInv(s) && SysEnabled(s, SAct(t))
    ensures var id := s.workers[t].id;
      |SActed(s, t).slots| >= |s.slots| && (SActed(s, t).slots[id].active ==> s.slots[id].active) && !Adds(s, SAct(t), id)
  {
    SimAct(s, t);
    RunnerIsNotBorn(s, SAct(t), t);
    MovesInactive(s, SActed(s, t), s.workers[t].id, Born(s, t));
  }

  lemma MovesInactive(s: Sys, s': Sys, id: nat, born: Option<nat>)
    requires Routed(s) && MovesBut(s, s', id, Act, born)
    ensures s'.slots[id].active ==> s.slots[id].active
  {
    ActKeepsInactive(View(s, id));
    assert View(s', id).active == s'.slots[id].active;
  }

  lemma ActKeepsInactive(c: Conn)
    requires c.prog.Then?
    ensures Acted(c).active ==> c.active
  {}

  lemma AbandonedBefore(s: Sys, x: SysStep, j: nat)
    requires Routed(s) && CloneInv(s) && SysEnabled(s, x) && ExitedIdle(s) && Abandoned(SysNext(s, x), j)
    ensures AnyAbandoned(s) || Strands(s, x)
  {
    var s' := SysNext(s, x);
    if j >= |s.slots| {
      OnlyClonesAdd(s, x, j);
      SimClone(s, x.t);
    } else {
      ActiveStep(s, x, j);
      RouteStep(s, x, j);
      if Places(s, x, j) { PlacedInactive(s, x, j); }
      ExitedStep(s, x, s.slots[j].eq);
      assert Abandoned(s, j) || Strands(s, x);
    }
  }

  lemma AbandonedStays(s: Sys, x: SysStep, j: nat)
    requires Routed(s) && CloneInv(s) && SysEnabled(s, x) && ExitedIdle(s) && Abandoned(s, j)
    ensures Abandoned(SysNext(s, x), j)
  {
    ActiveStep(s, x, j);
    RouteStep(s, x, j);
    if Places(s, x, j) { PlacedInactive(s, x, j); }
    ExitedStep(s, x, s.slots[j].eq);
    if x.SAct? { RunningView(s, x.t); }
  }

  lemma StrandedNow(s: Sys, x: SysStep)
    requires Routed(s) && CloneInv(s) && SysEnabled(s, x) && ExitedIdle(s) && Strands(s, x)
    ensures AnyAbandoned(SysNext(s, x))
  {
    var j: nat;
    if x.SExit? {
      j :| 0 <= j < |s.slots| && s.slots[j].active && s.slots[j].eq == x.t;
    } else {
      j :| 0 <= j < |s.slots| && Adds(s, x, j) && s.slots[j].eq < |s.workers| && s.workers[s.slots[j].eq].exited;
    }
    ActiveStep(s, x, j);
    RouteStep(s, x, j);
    ExitedStep(s, x, s.slots[j].eq);
    assert Abandoned(SysNext(s, x), j);
  }

  /** An Rpc is abandoned after a step exactly if one was before or the step strands one. */
  lemma StrandStep(s: Sys, x: SysStep)
    requires Routed(s) && CloneInv(s) && SysEnabled(s, x) && ExitedIdle(s)
    ensures ExitedIdle(SysNext(s, x))
    ensures AnyAbandoned(SysNext(s, x)) <==> AnyAbandoned(s) || Strands(s, x)
  {
    var s' := SysNext(s, x);
    OnlyActorChanges(s, x, 0);
    forall t | 0 <= t < |s'.workers| && s'.workers[t].exited ensures s'.workers[t].prog == Halt {
      ExitedStep(s, x, t);
    }
    if AnyAbandoned(s') {
      var j :| 0 <= j < |s'.slots| && Abandoned(s', j);
      AbandonedBefore(s, x, j);
    }
    if AnyAbandoned(s) {
      var j :| 0 <= j < |s.slots| && Abandoned(s, j);
      AbandonedStays(s, x, j);
      assert Abandoned(s', j);
    }
    if Strands(s, x) { StrandedNow(s, x); }
  }

  lemma {:induction false} StrandRun(s: Sys, steps: seq<SysStep>)
    requires Routed(s) && CloneInv(s) && ExitedIdle(s) && IsSysRun(s, steps)
    ensures AnyAbandoned(SysRun(s, steps)) <==> AnyAbandoned(s) || !NeverStrands(s, steps)
    ensures Routed(SysRun(s, steps))
    decreases |steps|
  {
    if steps != [] {
      CloneStep(s, steps[0]);
      StrandStep(s, steps[0]);
      StrandRun(SysNext(s, steps[0]), steps[1..]);
    }
  }

  /** When all event threads have left, the "RPCs still in flight" abort is
      avoided if and only if no thread left active Rpcs of its queue behind and
      no new Rpc was added on the queue of a thread that had left. */
  lemma ShutdownIff(methods: seq<Method>, numCqs: nat, numQueues: nat, steps: seq<SysStep>)
    requires numQueues > 0 && IsSysRun(Started(methods, numCqs, numQueues), steps)
    requires var s := SysRun(Started(methods, numCqs, numQueues), steps);
      forall t :: 0 <= t < |s.workers| ==> s.workers[t].exited
    ensures NoneInFlight(SysRun(Started(methods, numCqs, numQueues), steps)) <==>
      NeverStrands(Started(methods, numCqs, numQueues), steps)
  {
    var start := Started(methods, numCqs, numQueues);
    StartedRouted(methods, numCqs, numQueues);
    StrandRun(start, steps);
    var s := SysRun(start, steps);
    assert NoneInFlight(s) <==> !AnyAbandoned(s) by {
      if !NoneInFlight(s) {
        var j :| 0 <= j < |s.slots| && s.slots[j].active;
        assert Abandoned(s, j);
      }
    }
  }

  /** A server with one method and one thread of each kind. */
  const SMALL := Started([Method(0, NormalRpc)], 1, 1)

  /** Its event thread times out before gRPC reports the listener as failed, so
      the destructor aborts. */
  lemma EarlyTimeoutAborts()
    ensures IsSysRun(SMALL, [SClose, SExit(0)])
    ensures var s := SysRun(SMALL, [SClose, SExit(0)]);
      (forall t :: 0 <= t < |s.workers| ==> s.workers[t].exited) && !NoneInFlight(s)
  {
    var closed := SysNext(SMALL, SClose);
    var s := SysNext(closed, SExit(0));
    assert [SClose, SExit(0)][1..] == [SExit(0)] && [SExit(0)][1..] == [];
    assert SysRun(SMALL, [SClose, SExit(0)]) == SysRun(closed, [SExit(0)]) == SysRun(s, []) == s;
    SlotIndex(1, 1, 0);
    assert s.slots[0].active;
  }
}
