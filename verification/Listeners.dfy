/** Every method listens on every completion queue with exactly one Rpc, from
    the end of StartServing until StopServing. */
module Listeners {
  import opened Arithmetic
  import opened RpcCore
  import opened Connection
  import opened Lifetime
  import opened LifetimeProofs
  import opened ProtocolProofs
  import opened ConnectionTheorems
  import opened System
  import opened Projection
  import opened Cloning
  import opened Simulation
  import opened Frames
  import opened CloningProofs
  import opened ServerTheorems

  /** The Rpc waits for a call, or its event thread is about to register the
      Rpc that waits for the next one. */
  predicate Holds(c: Conn) {
    NewConnection in c.rpc.pending || OwesClone(c.prog)
  }

  predicate HandsOn(c: Conn, s: Step) {
    s == Act && c.prog.Then? && c.prog.action == Register
  }

  lemma BeginListener(c: Conn)
    requires c.active && Listening(c) && c.queue != [] && c.queue[0] == NewConnection
    ensures Holds(c) && (!c.stopping ==> Holds(Begun(c)))
  {}

  lemma BeginOther(c: Conn)
    requires c.active && c.prog == Halt && NewConnection !in c.rpc.pending
    requires c.queue != [] && c.queue[0] != NewConnection
    ensures !Holds(c) && !Holds(Begun(c))
  {}

  lemma BeginHolds(c: Conn)
    requires Inv(c) && c.active && Enabled(c, Begin)
    ensures Holds(Begun(c)) ==> Holds(c)
    ensures Holds(c) && !c.stopping ==> Holds(Begun(c))
  {
    if Listening(c) {
      ListeningQuiet(c);
      BeginListener(c);
    } else {
      if c.queue[0] != WriteNeeded { BeginIsPending(c); }
      BeginOther(c);
    }
  }

  /** An action leaves the NEW_CONNECTION flag and the rest of the program alone. */
  lemma ActRole(c: Conn)
    requires c.active && c.prog.Then?
    ensures NewConnection in Acted(c).rpc.pending <==> NewConnection in c.rpc.pending
    ensures OwesClone(Acted(c).prog) <==> OwesClone(c.prog.next)
  {
    ActProgram(c);
    if c.prog.action == SendNext {
      var e := SendQueueStarts(c.rpc);
    } else if c.prog.action != StartRead {
      QuietAct(c);
    }
  }

  lemma ActHolds(c: Conn)
    requires Inv(c) && c.active && Enabled(c, Act)
    ensures Holds(Acted(c)) ==> Holds(c)
    ensures Holds(c) && !HandsOn(c, Act) ==> Holds(Acted(c))
    ensures HandsOn(c, Act) ==> Holds(c) && !Holds(Acted(c))
  {
    ActRole(c);
    assert NewConnection !in c.rpc.pending;
    assert HandsOn(c, Act) ==> c.prog.next == DROPPING;
  }

  /** Only registering the clone gives the role up while the service is being served, and no
      step takes it on. */
  lemma HoldsStep(c: Conn, s: Step)
    requires Inv(c) && Enabled(c, s)
    ensures Holds(Next(c, s)) ==> Holds(c)
    ensures Holds(c) && c.active && !c.stopping && !HandsOn(c, s) ==> Holds(Next(c, s))
    ensures HandsOn(c, s) ==> Holds(c) && !Holds(Next(c, s))
  {
    match s
    case Begin => if c.active { BeginHolds(c); }
    case Act => ActHolds(c);
    case _ => BooksStay(c, s);
  }

  // ---------------------------------------------------------------------
  // The server

  datatype Pair = Pair(methodIndex: nat, cq: nat)

  predicate Holder(s: Sys, p: Pair, j: nat)
    requires Routed(s)
  {
    j < |s.slots| && s.slots[j].methodIndex == p.methodIndex && s.slots[j].cq == p.cq && Holds(View(s, j))
  }

  predicate Served(s: Sys, p: Pair) {
    p.methodIndex < |s.methods| && p.cq < |s.cqs| && s.methods[p.methodIndex].service !in s.stopped
  }

  /** At most one Rpc holds the listener role of a pair; exactly one does while
      the service is being served. */
  ghost predicate PairInv(s: Sys, p: Pair)
    requires Routed(s)
  {
    && (forall j, k {:trigger Holder(s, p, j), Holder(s, p, k)} :: Holder(s, p, j) && Holder(s, p, k) ==> j == k)
    && (Served(s, p) ==> exists j :: Holder(s, p, j))
  }

  /** An Rpc in a thread's hands holds no role. */
  lemma HeldNoHolder(s: Sys, p: Pair, u: nat, c: nat)
    requires Routed(s) && CloneInv(s) && Held(s, u, c)
    ensures !Holder(s, p, c)
  {
    HeldView(s, u, c);
  }

  lemma HolderReachable(s: Sys, p: Pair, j: nat)
    requires SysInv(s) && Holder(s, p, j)
    ensures Reachable(View(s, j)) && Inv(View(s, j))
  {
    if InHands(s, j) {
      var u :| 0 <= u < |s.workers| && s.workers[u].clone == Some(j);
      HeldNoHolder(s, p, u, j);
    }
    ReachableFullInv(View(s, j));
  }

  /** Without being registered an Rpc does not take a role on. */
  lemma MovesHold(s: Sys, s': Sys, id: nat, step: Step, born: Option<nat>, j: nat)
    requires Routed(s) && MovesBut(s, s', id, step, born) && j < |s.slots| && born != Some(j)
    requires Inv(View(s, j)) && Holds(View(s', j))
    ensures Holds(View(s, j))
  {
    if j == id { HoldsStep(View(s, j), step); }
  }

  lemma GlobalHolds(s: Sys, x: SysStep, j: nat)
    requires Routed(s) && SysEnabled(s, x) && Target(s, x).None? && j < |s.slots|
    ensures Routed(SysNext(s, x)) && j < |SysNext(s, x).slots|
    ensures Holds(View(SysNext(s, x), j)) <==> Holds(View(s, j))
  {
    RoutedGlobal(s, x);
    GlobalView(s, x, j);
  }

  lemma DropHolds(s: Sys, x: SysStep, j: nat)
    requires Routed(s) && CloneInv(s) && SysEnabled(s, x) && Drops(s, x, j)
    ensures Routed(SysNext(s, x)) && j < |s.slots| <= |SysNext(s, x).slots|
    ensures Holds(View(SysNext(s, x), j)) <==> Holds(View(s, j))
  {
    SimDrop(s, x.t, j);
  }

  lemma OldHolder(s: Sys, x: SysStep, s': Sys, p: Pair, j: nat)
    requires SysInv(s) && SysEnabled(s, x) && s' == SysNext(s, x) && Routed(s') && j < |s.slots| && !Registers(s, x, j)
    requires Holder(s', p, j)
    ensures Holder(s, p, j)
  {
    RouteStep(s, x, j);
    assert Holds(View(s', j));
    if InHands(s, j) { HandsNoHolder(s, x, p, j); }
    else if Drops(s, x, j) { DropHolds(s, x, j); }
    else { OldHolds(s, x, s', j); }
  }

  lemma OldHolds(s: Sys, x: SysStep, s': Sys, j: nat)
    requires SysInv(s) && SysEnabled(s, x) && s' == SysNext(s, x) && Routed(s') && j < |s.slots| && j < |s'.slots|
    requires !InHands(s, j) && !Drops(s, x, j) && Holds(View(s', j))
    ensures Holds(View(s, j))
  {
    ReachableFullInv(View(s, j));
    if Target(s, x).None? {
      GlobalHolds(s, x, j);
    } else {
      SimLocal(s, x);
      MovesHold(s, s', Target(s, x).value, LocalStep(x), BornBy(s, x), j);
    }
  }

  lemma HandsNoHolder(s: Sys, x: SysStep, p: Pair, j: nat)
    requires SysInv(s) && SysEnabled(s, x) && Routed(SysNext(s, x)) && j < |s.slots| && !Registers(s, x, j)
    requires InHands(s, j)
    ensures !Holder(SysNext(s, x), p, j)
  {
    var u :| 0 <= u < |s.workers| && s.workers[u].clone == Some(j);
    StaysInHands(s, x, u, j);
    CloneStep(s, x);
    HeldNoHolder(SysNext(s, x), p, u, j);
  }

  lemma RoleFacts(s: Sys, p: Pair, j: nat)
    requires SysInv(s) && Holder(s, p, j) && Served(s, p)
    ensures var c := View(s, j); Inv(c) && c.active && !c.stopping && Holds(c) && Reachable(c)
  {
    HolderReachable(s, p, j);
  }

  /** The thread of Rpc `j` registers its replacement. */
  predicate Replaces(s: Sys, x: SysStep, j: nat) {
    x.SAct? && At(s, x.t, Register) && s.workers[x.t].id == j
  }

  lemma MovesKeep(s: Sys, s': Sys, id: nat, step: Step, born: Option<nat>, j: nat)
    requires Routed(s) && MovesBut(s, s', id, step, born) && j < |s.slots| && born != Some(j)
    requires var c := View(s, j); Inv(c) && c.active && !c.stopping && Holds(c)
    requires j == id ==> !HandsOn(View(s, j), step)
    ensures Holds(View(s', j))
  {
    if j == id { HoldsStep(View(s, j), step); }
  }

  lemma HandsOnReplaces(s: Sys, x: SysStep, j: nat)
    requires Routed(s) && SysEnabled(s, x) && Target(s, x) == Some(j) && j < |s.slots|
    ensures HandsOn(View(s, j), LocalStep(x)) ==> Replaces(s, x, j)
  {
    if x.SAct? { RunningView(s, x.t); }
  }

  /** While its service is served, an Rpc keeps its role unless it is replaced. */
  lemma KeepsRole(s: Sys, x: SysStep, p: Pair, j: nat)
    requires SysInv(s) && SysEnabled(s, x) && Routed(SysNext(s, x))
    requires Holder(s, p, j) && Served(s, p) && !Replaces(s, x, j)
    ensures Holder(SysNext(s, x), p, j)
  {
    RouteStep(s, x, j);
    RoleFacts(s, p, j);
    if Target(s, x).None? {
      GlobalHolds(s, x, j);
    } else if Drops(s, x, j) {
      DropHolds(s, x, j);
    } else {
      SimLocal(s, x);
      HolderNotBorn(s, x, p, j);
      if Target(s, x).value == j { HandsOnReplaces(s, x, j); }
      MovesKeep(s, SysNext(s, x), Target(s, x).value, LocalStep(x), BornBy(s, x), j);
    }
  }

  lemma HolderNotBorn(s: Sys, x: SysStep, p: Pair, j: nat)
    requires Routed(s) && CloneInv(s) && Holder(s, p, j)
    ensures BornBy(s, x) != Some(j) || Drops(s, x, j)
  {
    if BornBy(s, x) == Some(j) && !Drops(s, x, j) { HeldNoHolder(s, p, x.t, j); }
  }

  /** Registering hands the role over to the new Rpc. */
  lemma HandsOver(s: Sys, t: nat, c: nat, p: Pair)
    requires SysInv(s) && SysEnabled(s, SAct(t)) && At(s, t, Register) && Held(s, t, c) && Routed(SActed(s, t))
    ensures !Holder(SActed(s, t), p, s.workers[t].id)
    ensures Holder(SActed(s, t), p, c) <==> Holder(s, p, s.workers[t].id)
  {
    RegisteredReachable(s, t, c);
    HeldView(s, t, c);
    RouteStep(s, SAct(t), c);
    RouteStep(s, SAct(t), s.workers[t].id);
    RoleGivenUp(s, t);
  }

  lemma RoleGivenUp(s: Sys, t: nat)
    requires SysInv(s) && SysEnabled(s, SAct(t)) && At(s, t, Register) && Routed(SActed(s, t))
    ensures var id := s.workers[t].id;
      id < |SActed(s, t).slots| && Holds(View(s, id)) && !Holds(View(SActed(s, t), id))
  {
    RunnerReachable(s, t);
    ReachableFullInv(View(s, s.workers[t].id));
    RunningView(s, t);
    SimAct(s, t);
    HoldsStep(View(s, s.workers[t].id), Act);
  }

  lemma PairStep(s: Sys, x: SysStep, p: Pair)
    requires SysInv(s) && SysEnabled(s, x) && Routed(SysNext(s, x)) && PairInv(s, p)
    ensures PairInv(SysNext(s, x), p)
  {
    var s' := SysNext(s, x);
    forall j, k | Holder(s', p, j) && Holder(s', p, k) ensures j == k {
      SoleHolder(s, x, s', p, j, k);
    }
    if Served(s', p) {
      ServedBefore(s, x, p);
      var j :| Holder(s, p, j);
      if Replaces(s, x, j) {
        HoldsAtClone(s, x.t);
        HandsOver(s, x.t, s.workers[x.t].clone.value, p);
        assert Holder(s', p, s.workers[x.t].clone.value);
      } else {
        KeepsRole(s, x, p, j);
        assert Holder(s', p, j);
      }
    }
  }

  lemma ServedBefore(s: Sys, x: SysStep, p: Pair)
    requires SysEnabled(s, x) && Served(SysNext(s, x), p)
    ensures Served(s, p)
  {
    if x.SAct? { ActFrame(s, x.t); } else { OtherUndisturbed(s, x); StoppedGrows(s, x); }
  }

  lemma StoppedGrows(s: Sys, x: SysStep)
    requires SysEnabled(s, x) && !x.SAct?
    ensures s.stopped <= SysNext(s, x).stopped
  {}

  /** A holder after a step held the role before, or has just been registered. */
  lemma HolderBefore(s: Sys, x: SysStep, p: Pair, j: nat)
    requires SysInv(s) && SysEnabled(s, x) && Routed(SysNext(s, x)) && Holder(SysNext(s, x), p, j)
    ensures j < |s.slots| && (Registers(s, x, j) || Holder(s, p, j))
  {
    if j >= |s.slots| {
      OnlyClonesAdd(s, x, j);
      SimClone(s, x.t);
    } else if !Registers(s, x, j) {
      OldHolder(s, x, SysNext(s, x), p, j);
    }
  }

  lemma SoleHolder(s: Sys, x: SysStep, s': Sys, p: Pair, j: nat, k: nat)
    requires SysInv(s) && SysEnabled(s, x) && s' == SysNext(s, x) && Routed(s') && PairInv(s, p)
    requires Holder(s', p, j) && Holder(s', p, k)
    ensures j == k
  {
    HolderBefore(s, x, p, j);
    HolderBefore(s, x, p, k);
    if Registers(s, x, j) && !Registers(s, x, k) { NewHolder(s, x, s', p, j, k); }
    if Registers(s, x, k) && !Registers(s, x, j) { NewHolder(s, x, s', p, k, j); }
  }

  /** If the new Rpc holds the role, nobody else does. */
  lemma NewHolder(s: Sys, x: SysStep, s': Sys, p: Pair, j: nat, k: nat)
    requires SysInv(s) && SysEnabled(s, x) && s' == SysNext(s, x) && Routed(s') && PairInv(s, p)
    requires Holder(s', p, j) && Registers(s, x, j) && Holder(s, p, k)
    ensures !Holder(s', p, k)
  {
    HandsOver(s, x.t, j, p);
    assert k == s.workers[x.t].id;
  }

  lemma StartedSole(methods: seq<Method>, numCqs: nat, numQueues: nat, p: Pair, j: nat, k: nat)
    requires numQueues > 0 && j < |methods| * numCqs && k < |methods| * numCqs
    requires var s := Started(methods, numCqs, numQueues);
      s.slots[j].methodIndex == s.slots[k].methodIndex && s.slots[j].cq == s.slots[k].cq
    ensures j == k
  {
    SlotIndex(|methods|, numCqs, j);
    SlotIndex(|methods|, numCqs, k);
    var s := Started(methods, numCqs, numQueues);
    assert s.slots[j] == ListenerSlot(methods, numCqs, numQueues, j);
    assert s.slots[k] == ListenerSlot(methods, numCqs, numQueues, k);
    DivModEqual(j, k, numCqs);
  }

  lemma StartedHolder(methods: seq<Method>, numCqs: nat, numQueues: nat, p: Pair) returns (j: nat)
    requires numQueues > 0 && p.methodIndex < |methods| && p.cq < numCqs
    requires Routed(Started(methods, numCqs, numQueues))
    ensures Holder(Started(methods, numCqs, numQueues), p, j)
  {
    j := p.methodIndex * numCqs + p.cq;
    StartedSlot(methods, numCqs, numQueues, p.methodIndex, p.cq);
  }

  lemma StartedPair(methods: seq<Method>, numCqs: nat, numQueues: nat, p: Pair)
    requires numQueues > 0
    ensures Routed(Started(methods, numCqs, numQueues)) && PairInv(Started(methods, numCqs, numQueues), p)
  {
    var s := Started(methods, numCqs, numQueues);
    StartedRouted(methods, numCqs, numQueues);
    forall j: nat, k: nat | Holder(s, p, j) && Holder(s, p, k) ensures j == k {
      StartedSole(methods, numCqs, numQueues, p, j, k);
    }
    if Served(s, p) {
      var j := StartedHolder(methods, numCqs, numQueues, p);
    }
  }

  lemma {:induction false} PairRun(s: Sys, steps: seq<SysStep>, p: Pair)
    requires SysInv(s) && PairInv(s, p) && AdmissibleSysRun(s, steps)
    ensures IsSysRun(s, steps) && SysInv(SysRun(s, steps)) && PairInv(SysRun(s, steps), p)
    decreases |steps|
  {
    if steps != [] {
      SysStepKeeps(s, steps[0]);
      PairStep(s, steps[0], p);
      PairRun(SysNext(s, steps[0]), steps[1..], p);
    }
  }

  /** Listener conservation, on every admissible run of every server: for each
      method and completion queue exactly one Rpc listens, or is being
      replaced, while the service is served; later at most one does. */
  lemma ListenerConservation(methods: seq<Method>, numCqs: nat, numQueues: nat, steps: seq<SysStep>, p: Pair)
    requires numQueues > 0 && AdmissibleSysRun(Started(methods, numCqs, numQueues), steps)
    ensures IsSysRun(Started(methods, numCqs, numQueues), steps)
    ensures var s := SysRun(Started(methods, numCqs, numQueues), steps); Routed(s) && PairInv(s, p)
  {
    StartedInv(methods, numCqs, numQueues);
    StartedPair(methods, numCqs, numQueues, p);
    PairRun(Started(methods, numCqs, numQueues), steps, p);
  }

  /** While no thread is about to replace the listener of a pair, exactly one
      NEW_CONNECTION tag of the pair is in flight, and it belongs to an active Rpc. */
  lemma OneTagWaits(s: Sys, p: Pair) returns (j: nat)
    requires SysInv(s) && PairInv(s, p) && Served(s, p)
    requires forall t :: 0 <= t < |s.workers| && OwesClone(s.workers[t].prog) ==> !OfPair(s, p, s.workers[t].id)
    ensures OfPair(s, p, j) && s.slots[j].active && InFlight(View(s, j), NewConnection) == 1
    ensures forall k :: 0 <= k < |s.slots| && k != j && OfPair(s, p, k) ==> InFlight(View(s, k), NewConnection) == 0
  {
    j :| Holder(s, p, j);
    RoleFacts(s, p, j);
    FlagsMirrorTags(View(s, j), NewConnection);
    forall k: nat | k < |s.slots| && k != j && OfPair(s, p, k) ensures InFlight(View(s, k), NewConnection) == 0 {
      assert !Holder(s, p, k);
      NoTag(s, k);
    }
  }

  predicate OfPair(s: Sys, p: Pair, j: nat) {
    j < |s.slots| && s.slots[j].methodIndex == p.methodIndex && s.slots[j].cq == p.cq
  }

  lemma NoTag(s: Sys, k: nat)
    requires SysInv(s) && k < |s.slots| && !Holds(View(s, k))
    ensures InFlight(View(s, k), NewConnection) == 0
  {
    if InHands(s, k) {
      var u :| 0 <= u < |s.workers| && s.workers[u].clone == Some(k);
      HeldView(s, u, k);
      assert Events(View(s, k).cq) == [];
    } else if s.slots[k].active {
      FlagsMirrorTags(View(s, k), NewConnection);
    } else {
      LifetimeSafety(View(s, k));
    }
  }
}
