/** Shutdown of the whole server: once grpc::Server::Shutdown was called and
    nobody sends, all Rpcs come to their end within a computable number of steps. */
module ServerDraining {
  import opened RpcCore
  import opened Connection
  import opened Lifetime
  import opened LifetimeProofs
  import opened ConnectionTheorems
  import opened Budgets
  import opened Sequences
  import opened System
  import opened Projection
  import opened Cloning
  import opened Simulation
  import opened Frames
  import opened CloningProofs
  import opened ServerTheorems
  import opened Shutdown

  /** A step of gRPC, a completion queue thread or an event thread; gRPC accepts
      no call and delivers no message. */
  predicate Quiet(x: SysStep) {
    match x
    case SComplete(_, e, ok, _) => !(ok && (e == Read || e == NewConnection))
    case SForward(_) => true
    case SBegin(_) => true
    case SAct(_) => true
    case _ => false
  }

  /** The gRPC server is shut down, no Writer call is in progress, and no call
      that gRPC has accepted waits to be refused. */
  predicate Winds(s: Sys)
    requires Routed(s)
  {
    && s.down && s.writers == map[]
    && forall j {:trigger View(s, j)} :: 0 <= j < |s.slots| ==> Unaccepted(View(s, j))
  }

  // ---------------------------------------------------------------------
  // The budget of the server

  function Sum(p: seq<nat>): nat {
    if p == [] then 0 else Sum(Init(p)) + Last(p)
  }

  lemma {:induction false} SumUpdate(p: seq<nat>, i: nat, v: nat)
    requires i < |p|
    ensures Sum(p[i := v]) + p[i] == Sum(p) + v
    decreases |p|
  {
    var p' := p[i := v];
    if i == |p| - 1 {
      assert Init(p') == Init(p);
    } else {
      SumUpdate(Init(p), i, v);
      assert Init(p') == Init(p)[i := v];
    }
  }

  lemma SumSnoc(p: seq<nat>, v: nat)
    ensures Sum(p + [v]) == Sum(p) + v
  {
    assert Init(p + [v]) == p;
  }

  function Each(s: Sys): seq<nat>
    requires Routed(s)
  {
    seq(|s.slots|, j requires 0 <= j < |s.slots| => Budget(View(s, j)))
  }

  /** Steps the server can still take. */
  function Total(s: Sys): nat
    requires Routed(s)
  {
    Sum(Each(s))
  }

  /** A new Rpc costs nothing until it is registered, and then two operations. */
  lemma NewBudgets(kind: Kind, active: bool, stopping: bool, down: bool)
    ensures Budget(Unregistered(kind, active, stopping, down)) == 0
    ensures Budget(Listener(kind, stopping, down, true)) == 14
  {
    assert RequestNextMethodInvocation(Fresh(kind)).tokens == multiset{Done, NewConnection};
  }

  // ---------------------------------------------------------------------
  // Every step spends

  /** The Rpc a step works on is registered. */
  lemma TargetReachable(s: Sys, x: SysStep)
    requires SysInv(s) && SysEnabled(s, x) && Quiet(x)
    ensures Target(s, x).Some? && Target(s, x).value < |s.slots|
    ensures Enabled(View(s, Target(s, x).value), LocalStep(x)) && Winding(LocalStep(x))
    ensures Reachable(View(s, Target(s, x).value)) && Inv(View(s, Target(s, x).value))
  {
    SimLocal(s, x);
    var id := Target(s, x).value;
    if InHands(s, id) {
      var u :| 0 <= u < |s.workers| && s.workers[u].clone == Some(id);
      HeldIdle(s, u, id, x);
    }
    ReachableFullInv(View(s, id));
  }

  /** What a step costs the Rpcs it does not work on. */
  lemma OtherBudget(s: Sys, x: SysStep, j: nat)
    requires SysInv(s) && SysEnabled(s, x) && Quiet(x) && Target(s, x).Some? && j < |s.slots| && j != Target(s, x).value
    requires Routed(SysNext(s, x)) && j < |SysNext(s, x).slots|
    ensures Budget(View(SysNext(s, x), j)) == if Registers(s, x, j) then 14 else Budget(View(s, j))
    ensures Registers(s, x, j) ==> Budget(View(s, j)) == 0
    ensures Unaccepted(View(s, j)) ==> Unaccepted(View(SysNext(s, x), j))
  {
    if BornBy(s, x) != Some(j) {
      SimLocal(s, x);
    } else {
      BornBudget(s, x.t, j);
    }
  }

  lemma BornBudget(s: Sys, t: nat, c: nat)
    requires SysInv(s) && SysEnabled(s, SAct(t)) && Born(s, t) == Some(c) && c < |s.slots|
    requires Routed(SActed(s, t)) && c < |SActed(s, t).slots|
    ensures Budget(View(SActed(s, t), c)) == if At(s, t, Register) then 14 else Budget(View(s, c))
    ensures At(s, t, Register) ==> Held(s, t, c) && Budget(View(s, c)) == 0
    ensures Unaccepted(View(s, c)) ==> Unaccepted(View(SActed(s, t), c))
  {
    if At(s, t, DropClone) { SimDrop(s, t, c); DropBudget(View(s, c)); }
    else if At(s, t, AddClone) { SimAdd(s, t, c); AddBudget(View(s, c)); }
    else { RegisterBudget(s, t, c); }
  }

  lemma DropBudget(c: Conn)
    requires c.held
    ensures Budget(Next(c, Drop)) == Budget(c) && (Unaccepted(c) ==> Unaccepted(Next(c, Drop)))
  {}

  lemma AddBudget(c: Conn)
    ensures Budget(c.(active := true)) == Budget(c) && (Unaccepted(c) ==> Unaccepted(c.(active := true)))
  {}

  lemma RegisterBudget(s: Sys, t: nat, c: nat)
    requires SysInv(s) && SysEnabled(s, SAct(t)) && At(s, t, Register) && Held(s, t, c)
    requires Routed(SActed(s, t)) && c < |s.slots| && c < |SActed(s, t).slots|
    ensures Budget(View(SActed(s, t), c)) == 14 && Budget(View(s, c)) == 0 && Unaccepted(View(SActed(s, t), c))
  {
    HeldView(s, t, c);
    var id := s.workers[t].id;
    NewBudgets(s.slots[id].rpc.kind, true, Stopping(s, id), s.down);
    RegisteredReachable(s, t, c);
  }

  /** The Rpc that the step works on pays. */
  lemma TargetSpends(s: Sys, x: SysStep)
    requires SysInv(s) && SysEnabled(s, x) && Quiet(x) && s.down
    ensures Target(s, x).Some? && Target(s, x).value < |s.slots| <= |SysNext(s, x).slots| && Routed(SysNext(s, x))
    ensures var c, c' := View(s, Target(s, x).value), View(SysNext(s, x), Target(s, x).value);
      && Budget(c') < Budget(c)
      && (x.SAct? && At(s, x.t, Register) ==> Budget(c') + 20 <= Budget(c))
      && (Unaccepted(c) ==> Unaccepted(c'))
  {
    TargetReachable(s, x);
    SimLocal(s, x);
    var c := View(s, Target(s, x).value);
    Spends(c, LocalStep(x));
    if Unaccepted(c) { UnacceptedStays(c, LocalStep(x)); }
    if x.SAct? { RunningView(s, x.t); }
  }

  /** The new budgets: one Rpc pays, maybe another is registered, maybe one is new. */
  lemma BudgetsAfter(p: seq<nat>, p': seq<nat>, id: nat, c: Option<nat>)
    requires id < |p| <= |p'| <= |p| + 1 && (c.Some? ==> c.value < |p| && c.value != id && p[c.value] == 0)
    requires p'[id] < p[id] && (c.Some? ==> p'[id] + 20 <= p[id] && p'[c.value] == 14)
    requires forall j :: 0 <= j < |p| && j != id && Some(j) != c ==> p'[j] == p[j]
    requires |p'| == |p| + 1 ==> p'[|p|] == 0
    ensures Sum(p') < Sum(p)
  {
    var q := p[id := p'[id]];
    SumUpdate(p, id, p'[id]);
    if c.Some? {
      SumUpdate(q, c.value, 14);
      SumSame(q[c.value := 14], p');
    } else {
      SumSame(q, p');
    }
  }

  lemma SumSame(p: seq<nat>, p': seq<nat>)
    requires |p| <= |p'| <= |p| + 1 && (|p'| == |p| + 1 ==> p'[|p|] == 0)
    requires forall j :: 0 <= j < |p| ==> p'[j] == p[j]
    ensures Sum(p') == Sum(p)
  {
    SumSnoc(p, 0);
    assert p' == if |p'| == |p| then p else p + [0];
  }

  lemma NewBudget(s: Sys, x: SysStep)
    requires SysInv(s) && SysEnabled(s, x) && Routed(SysNext(s, x)) && |SysNext(s, x).slots| > |s.slots|
    ensures |SysNext(s, x).slots| == |s.slots| + 1 && Budget(View(SysNext(s, x), |s.slots|)) == 0
    ensures Unaccepted(View(SysNext(s, x), |s.slots|))
  {
    OnlyClonesAdd(s, x, |s.slots|);
    SimClone(s, x.t);
    var id := s.workers[x.t].id;
    NewBudgets(s.slots[id].rpc.kind, false, Stopping(s, id), s.down);
  }

  /** The new Rpc that the step registers, if any. */
  function NewlyRegistered(s: Sys, x: SysStep): Option<nat> {
    if x.SAct? && At(s, x.t, Register) then s.workers[x.t].clone else None
  }

  lemma RegisteredRpc(s: Sys, x: SysStep)
    requires SysInv(s) && SysEnabled(s, x) && NewlyRegistered(s, x).Some?
    ensures var c := NewlyRegistered(s, x).value;
      Registers(s, x, c) && c < |s.slots| && c != s.workers[x.t].id && Target(s, x) == Some(s.workers[x.t].id)
  {
    HeldView(s, x.t, NewlyRegistered(s, x).value);
  }

  lemma TotalSpends(s: Sys, x: SysStep, s': Sys)
    requires SysInv(s) && SysEnabled(s, x) && Quiet(x) && s.down && s' == SysNext(s, x)
    ensures Routed(s') && Total(s') < Total(s)
  {
    TargetEach(s, x, s');
    SlotsGrow(s, x);
    if NewlyRegistered(s, x).Some? { RegisteredRpc(s, x); }
    OthersKeep(s, x, s');
    BudgetsAfter(Each(s), Each(s'), Target(s, x).value, NewlyRegistered(s, x));
  }

  lemma TargetEach(s: Sys, x: SysStep, s': Sys)
    requires SysInv(s) && SysEnabled(s, x) && Quiet(x) && s.down && s' == SysNext(s, x)
    ensures Target(s, x).Some? && Target(s, x).value < |s.slots| <= |s'.slots| && Routed(s')
    ensures var id := Target(s, x).value;
      Each(s')[id] < Each(s)[id] && (NewlyRegistered(s, x).Some? ==> Each(s')[id] + 20 <= Each(s)[id])
  {
    TargetSpends(s, x);
  }

  lemma SlotsGrow(s: Sys, x: SysStep)
    requires SysInv(s) && SysEnabled(s, x) && Routed(SysNext(s, x)) && |s.slots| <= |SysNext(s, x).slots|
    ensures |SysNext(s, x).slots| <= |s.slots| + 1
    ensures |SysNext(s, x).slots| == |s.slots| + 1 ==> Each(SysNext(s, x))[|s.slots|] == 0
  {
    if |SysNext(s, x).slots| > |s.slots| { NewBudget(s, x); }
  }

  lemma OthersKeep(s: Sys, x: SysStep, s': Sys)
    requires SysInv(s) && SysEnabled(s, x) && s' == SysNext(s, x) && Quiet(x) && Routed(s') && |s.slots| <= |s'.slots|
    requires Target(s, x).Some?
    ensures forall j :: 0 <= j < |s.slots| && j != Target(s, x).value && Some(j) != NewlyRegistered(s, x) ==>
      Each(s')[j] == Each(s)[j]
    ensures var c := NewlyRegistered(s, x);
      c.Some? && c.value < |s.slots| && c.value != Target(s, x).value ==>
        Each(s)[c.value] == 0 && Each(s')[c.value] == 14
  {
    var c := NewlyRegistered(s, x);
    forall j | 0 <= j < |s.slots| && j != Target(s, x).value && Some(j) != c ensures Each(s')[j] == Each(s)[j] {
      OtherEach(s, x, s', j);
    }
    if c.Some? && c.value < |s.slots| && c.value != Target(s, x).value { OtherEach(s, x, s', c.value); }
  }

  lemma OtherEach(s: Sys, x: SysStep, s': Sys, j: nat)
    requires SysInv(s) && SysEnabled(s, x) && s' == SysNext(s, x) && Quiet(x) && Routed(s') && |s.slots| <= |s'.slots|
    requires Target(s, x).Some? && j < |s.slots| && j != Target(s, x).value
    ensures if Some(j) == NewlyRegistered(s, x) then Each(s)[j] == 0 && Each(s')[j] == 14 else Each(s')[j] == Each(s)[j]
  {
    OtherBudget(s, x, j);
  }

  lemma StaysUnaccepted(s: Sys, x: SysStep, s': Sys, j: nat)
    requires SysInv(s) && Winds(s) && SysEnabled(s, x) && Quiet(x) && s' == SysNext(s, x) && Routed(s') && j < |s'.slots|
    ensures Unaccepted(View(s', j))
  {
    if j >= |s.slots| {
      NewBudget(s, x);
      assert j == |s.slots|;
    } else {
      assert Unaccepted(View(s, j));
      TargetSpends(s, x);
      if j != Target(s, x).value { OtherBudget(s, x, j); }
    }
  }

  lemma WindsOn(s: Sys, x: SysStep, s': Sys)
    requires SysInv(s) && Winds(s) && SysEnabled(s, x) && Quiet(x) && s' == SysNext(s, x) && Routed(s')
    ensures Winds(s')
  {
    QuietGlobals(s, x);
    forall j | 0 <= j < |s'.slots| ensures Unaccepted(View(s', j)) {
      StaysUnaccepted(s, x, s', j);
    }
  }

  lemma QuietGlobals(s: Sys, x: SysStep)
    requires SysEnabled(s, x) && Quiet(x)
    ensures SysNext(s, x).down == s.down && SysNext(s, x).writers == s.writers
  {
    if x.SAct? { HalfFrame(s, x.t); BeyondGlobals(s, x.t, Half(s, x.t)); }
  }

  lemma BeyondGlobals(s: Sys, t: nat, h: Sys)
    requires SysEnabled(s, SAct(t)) && IsHalf(s, t, h)
    ensures Beyond(s, t, h).down == s.down && Beyond(s, t, h).writers == s.writers
  {}

  /** Every admissible quiet step keeps all this and uses up some of the total. */
  lemma WindStep(s: Sys, x: SysStep)
    requires SysInv(s) && Winds(s) && SysEnabled(s, x) && SysAdmissible(s, x) && Quiet(x)
    ensures SysInv(SysNext(s, x)) && Winds(SysNext(s, x)) && Total(SysNext(s, x)) < Total(s)
  {
    SysStepKeeps(s, x);
    TotalSpends(s, x, SysNext(s, x));
    WindsOn(s, x, SysNext(s, x));
  }

  predicate QuietRun(s: Sys, steps: seq<SysStep>)
    decreases |steps|
  {
    steps == [] ||
    (SysEnabled(s, steps[0]) && SysAdmissible(s, steps[0]) && Quiet(steps[0]) && QuietRun(SysNext(s, steps[0]), steps[1..]))
  }

  lemma {:induction false} WindRun(s: Sys, steps: seq<SysStep>)
    requires SysInv(s) && Winds(s) && QuietRun(s, steps)
    ensures IsSysRun(s, steps) && SysInv(SysRun(s, steps)) && Winds(SysRun(s, steps))
    ensures |steps| + Total(SysRun(s, steps)) <= Total(s)
    decreases |steps|
  {
    if steps != [] {
      WindStep(s, steps[0]);
      WindRun(SysNext(s, steps[0]), steps[1..]);
    }
  }

  // ---------------------------------------------------------------------
  // Some step is possible

  /** A thread that still holds a registered Rpc can let go. */
  lemma HolderMoves(s: Sys, u: nat)
    requires SysInv(s) && u < |s.workers| && s.workers[u].kept.Some?
    ensures SysEnabled(s, SAct(u)) && SysAdmissible(s, SAct(u))
  {
    assert HoldOk(s, u);
    RunningView(s, u);
  }

  /** A thread in the middle of an event can go on, unless it would remove an Rpc
      that is still held; then the thread that holds it can. */
  lemma RunnerMoves(s: Sys, t: nat) returns (x: SysStep)
    requires SysInv(s) && Winds(s) && t < |s.workers| && s.workers[t].prog.Then?
    ensures SysEnabled(s, x) && SysAdmissible(s, x) && Quiet(x)
  {
    RunnerReachable(s, t);
    RunningView(s, t);
    if Admissible(View(s, s.workers[t].id), Act) { return SAct(t); }
    var u := HolderOf(s, s.workers[t].id);
    HolderMoves(s, u);
    return SAct(u);
  }

  /** A removal that is not admissible concerns an Rpc that is held. */
  lemma HolderOf(s: Sys, id: nat) returns (u: nat)
    requires Routed(s) && Winds(s) && id < |s.slots| && Reachable(View(s, id)) && !Admissible(View(s, id), Act)
    ensures u < |s.workers| && s.workers[u].kept == Some(id)
  {
    var c := View(s, id);
    ReachableFullInv(c);
    NotRefused(c);
    NoWriters(s, id);
    assert c.held;
    u :| 0 <= u < |s.workers| && s.workers[u].kept == Some(id);
  }

  lemma NotRefused(c: Conn)
    requires Inv(c) && Unaccepted(c) && Removing(c)
    ensures !RefusesAcceptedCall(c)
  {}

  lemma NoWriters(s: Sys, id: nat)
    requires Routed(s) && s.writers == map[] && id < |s.slots|
    ensures View(s, id).writers == map[]
  {}

  /** When all threads are between events, an active Rpc has a tag on its way,
      and its next stop can be reached. */
  lemma IdleMoves(s: Sys, j: nat) returns (x: SysStep)
    requires SysInv(s) && Winds(s) && j < |s.slots| && s.slots[j].active && !Abandoned(s, j)
    requires forall t :: 0 <= t < |s.workers| ==> s.workers[t].prog == Halt
    ensures SysEnabled(s, x) && SysAdmissible(s, x) && Quiet(x)
  {
    IdleReachable(s, j);
    var c := View(s, j);
    var e := NoLeak(c);
    ReachableFullInv(c);
    if NewConnection in c.rpc.tokens { return SComplete(j, NewConnection, false, 0); }
    if e in c.rpc.tokens {
      if e == Done { DoneIsStarted(c); }
      return SComplete(j, e, false, 0);
    }
    if c.cq != [] {
      assert s.cqs[s.slots[j].cq] != [];
      return SForward(s.slots[j].cq);
    }
    assert Events(c.cq) == [];
    assert e in multiset(c.queue);
    assert s.queues[s.slots[j].eq] != [];
    return SBegin(s.slots[j].eq);
  }

  /** The registration for DONE is void if the call was not accepted. */
  lemma DoneIsStarted(c: Conn)
    requires Inv(c) && Unaccepted(c) && c.active && c.prog == Halt && Done in c.rpc.tokens
    requires NewConnection !in c.rpc.tokens
    ensures c.rpc.started
  {
    if Listening(c) {
      ListeningQuiet(c);
      TrackedEvent(c, Done);
    }
  }

  /** All Rpcs come to their end, however the threads take turns: a quiet run has
      at most as many steps as the budgets of all Rpcs together allow, and if it
      cannot go on, active_rpcs_ is empty, unless an Rpc was left behind by the
      thread of its event queue. */
  lemma ServerDrains(s: Sys, steps: seq<SysStep>)
    requires SysInv(s) && Winds(s) && QuietRun(s, steps)
    ensures IsSysRun(s, steps) && |steps| <= Total(s)
    ensures var d := SysRun(s, steps);
      (forall x :: SysEnabled(d, x) && SysAdmissible(d, x) ==> !Quiet(x)) && !AnyAbandoned(d) ==> NoneInFlight(d)
  {
    WindRun(s, steps);
    var d := SysRun(s, steps);
    if !NoneInFlight(d) && !AnyAbandoned(d) {
      var j :| 0 <= j < |d.slots| && d.slots[j].active;
      if t :| 0 <= t < |d.workers| && d.workers[t].prog.Then? {
        var x := RunnerMoves(d, t);
      } else {
        var x := IdleMoves(d, j);
      }
    }
  }
}
