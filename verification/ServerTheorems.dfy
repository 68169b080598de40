/** The guarantees of the whole server on every run. */
module ServerTheorems {
  import opened Arithmetic
  import opened RpcCore
  import opened Connection
  import opened ConnectionTheorems
  import opened System
  import opened Projection
  import opened Cloning
  import opened Simulation
  import opened Frames
  import opened CloningProofs

  /** The hypotheses on removal, for the Rpc a worker is about to remove. */
  predicate SysAdmissible(s: Sys, x: SysStep) {
    Routed(s) && SysEnabled(s, x) && x.SAct? ==> Admissible(View(s, s.workers[x.t].id), Act)
  }

  predicate AdmissibleSysRun(s: Sys, steps: seq<SysStep>)
    decreases |steps|
  {
    steps == [] ||
    (SysEnabled(s, steps[0]) && SysAdmissible(s, steps[0]) && AdmissibleSysRun(SysNext(s, steps[0]), steps[1..]))
  }

  /** Some thread still has the new Rpc in its hands. */
  predicate InHands(s: Sys, j: nat) {
    exists t :: 0 <= t < |s.workers| && s.workers[t].clone == Some(j)
  }

  /** Every registered Rpc's connection is reached from its own listener by
      admissible steps of its own, so everything proved of connections holds of
      it; the others are unregistered and in the hands of one thread. */
  ghost predicate SysInv(s: Sys) {
    && Routed(s) && CloneInv(s)
    && forall j {:trigger View(s, j)} :: 0 <= j < |s.slots| ==> Reachable(View(s, j)) || InHands(s, j)
  }

  /** An Rpc somebody works for is registered. */
  lemma RunnerReachable(s: Sys, t: nat)
    requires SysInv(s) && t < |s.workers| && s.workers[t].prog.Then?
    ensures s.workers[t].id < |s.slots| && Reachable(View(s, s.workers[t].id))
  {
    RunningView(s, t);
    if InHands(s, s.workers[t].id) {
      var u :| 0 <= u < |s.workers| && s.workers[u].clone == Some(s.workers[t].id);
      HeldView(s, u, s.workers[t].id);
    }
  }

  lemma LocalAdmissible(s: Sys, x: SysStep)
    requires Routed(s) && SysEnabled(s, x) && SysAdmissible(s, x) && Target(s, x).Some?
    ensures Target(s, x).value < |s.slots| && Admissible(View(s, Target(s, x).value), LocalStep(x))
  {
    assert LocalStep(x) == Act ==> x.SAct?;
  }

  /** A new Rpc stays in its thread's hands until it is registered. */
  lemma StaysInHands(s: Sys, x: SysStep, u: nat, c: nat)
    requires Routed(s) && CloneInv(s) && SysEnabled(s, x) && Held(s, u, c) && !(x.SAct? && x.t == u && At(s, u, Register))
    ensures u < |SysNext(s, x).workers| && Held(SysNext(s, x), u, c)
  {
    HeldView(s, u, c);
    assert HoldOk(s, u);
    OnlyActorChanges(s, x, u);
    if x.SAct? && x.t == u { ActHands(s, u); }
  }

  /** Registering makes it a listener. */
  lemma RegisteredReachable(s: Sys, u: nat, c: nat)
    requires SysInv(s) && SysEnabled(s, SAct(u)) && At(s, u, Register) && Held(s, u, c)
    ensures Routed(SActed(s, u)) && c < |s.slots| <= |SActed(s, u).slots|
    ensures View(SActed(s, u), c) == Listener(s.slots[s.workers[u].id].rpc.kind, Stopping(s, s.workers[u].id), s.down, true)
    ensures Reachable(View(SActed(s, u), c))
  {
    HeldView(s, u, c);
    SimRegister(s, u, c);
    RunnerReachable(s, u);
    ReachableFullInv(View(s, s.workers[u].id));
    ListenerReachable(s.slots[s.workers[u].id].rpc.kind, Stopping(s, s.workers[u].id), s.down, true);
  }

  lemma HeldSlotKeeps(s: Sys, x: SysStep, u: nat, j: nat)
    requires SysInv(s) && SysEnabled(s, x) && Held(s, u, j) && Routed(SysNext(s, x))
    ensures j < |SysNext(s, x).slots| && (Reachable(View(SysNext(s, x), j)) || InHands(SysNext(s, x), j))
  {
    HeldView(s, u, j);
    RouteStep(s, x, j);
    if x.SAct? && x.t == u && At(s, u, Register) { RegisteredReachable(s, u, j); } else { StaysInHands(s, x, u, j); }
  }

  lemma MovesReachable(s: Sys, s': Sys, id: nat, step: Step, born: Option<nat>, j: nat)
    requires Routed(s) && MovesBut(s, s', id, step, born) && j < |s.slots| && born != Some(j)
    requires Reachable(View(s, j)) && Admissible(View(s, id), step)
    ensures Reachable(View(s', j))
  {
    if j == id { ReachableStep(View(s, j), step); }
  }

  lemma GlobalReachable(s: Sys, x: SysStep, j: nat)
    requires Routed(s) && SysEnabled(s, x) && Target(s, x).None? && j < |s.slots| && Reachable(View(s, j))
    ensures Routed(SysNext(s, x)) && j < |SysNext(s, x).slots| && Reachable(View(SysNext(s, x), j))
  {
    SimGlobal(s, x, j);
    if View(SysNext(s, x), j) != View(s, j) { ReachableStep(View(s, j), LocalStep(x)); }
  }

  lemma OldSlotKeeps(s: Sys, x: SysStep, j: nat)
    requires SysInv(s) && SysEnabled(s, x) && SysAdmissible(s, x) && j < |s.slots| && Reachable(View(s, j))
    requires BornBy(s, x) != Some(j)
    ensures Routed(SysNext(s, x)) && j < |SysNext(s, x).slots| && Reachable(View(SysNext(s, x), j))
  {
    if Target(s, x).Some? {
      SimLocal(s, x);
      LocalAdmissible(s, x);
      MovesReachable(s, SysNext(s, x), Target(s, x).value, LocalStep(x), BornBy(s, x), j);
    } else {
      GlobalReachable(s, x, j);
    }
  }

  lemma SlotKeeps(s: Sys, x: SysStep, j: nat)
    requires SysInv(s) && SysEnabled(s, x) && SysAdmissible(s, x) && j < |s.slots| && Routed(SysNext(s, x))
    ensures j < |SysNext(s, x).slots| && (Reachable(View(SysNext(s, x), j)) || InHands(SysNext(s, x), j))
  {
    if InHands(s, j) {
      var u :| 0 <= u < |s.workers| && s.workers[u].clone == Some(j);
      HeldSlotKeeps(s, x, u, j);
    } else if Drops(s, x, j) {
      SimDrop(s, x.t, j);
      ReachableStep(View(s, j), Drop);
    } else {
      OldSlotKeeps(s, x, j);
    }
  }

  lemma OnlyClonesAdd(s: Sys, x: SysStep, j: nat)
    requires SysEnabled(s, x) && |s.slots| <= j < |SysNext(s, x).slots|
    ensures Creates(s, x) && j == |s.slots| && SysNext(s, x) == SActed(s, x.t)
  {
    if x.SAct? { ActFrame(s, x.t); } else { OtherUndisturbed(s, x); }
  }

  lemma NewSlotKeeps(s: Sys, t: nat)
    requires SysEnabled(s, SAct(t)) && Clones(s, t)
    ensures InHands(SActed(s, t), |s.slots|)
  {
    ActFrame(s, t);
    ActHands(s, t);
  }

  lemma SysStepKeeps(s: Sys, x: SysStep)
    requires SysInv(s) && SysEnabled(s, x) && SysAdmissible(s, x)
    ensures SysInv(SysNext(s, x))
  {
    CloneStep(s, x);
    var s' := SysNext(s, x);
    forall j | 0 <= j < |s'.slots| ensures Reachable(View(s', j)) || InHands(s', j) {
      if j < |s.slots| {
        SlotKeeps(s, x, j);
      } else {
        OnlyClonesAdd(s, x, j);
        NewSlotKeeps(s, x.t);
      }
    }
  }

  lemma StartedRouted(methods: seq<Method>, numCqs: nat, numQueues: nat)
    requires numQueues > 0
    ensures Routed(Started(methods, numCqs, numQueues)) && CloneInv(Started(methods, numCqs, numQueues))
  {
    var s := Started(methods, numCqs, numQueues);
    forall i | 0 <= i < |s.slots|
      ensures s.slots[i].methodIndex < |s.methods| && s.slots[i].cq < |s.cqs| && s.slots[i].eq < |s.queues|
    {
      SlotIndex(|methods|, numCqs, i);
    }
  }

  /** After Server::Start every Rpc is a fresh listener. */
  lemma StartedInv(methods: seq<Method>, numCqs: nat, numQueues: nat)
    requires numQueues > 0
    ensures SysInv(Started(methods, numCqs, numQueues))
    ensures var s := Started(methods, numCqs, numQueues);
      forall j {:trigger View(s, j)} :: 0 <= j < |s.slots| ==>
        View(s, j) == Listener(s.slots[j].rpc.kind, false, false, false)
  {
    var s := Started(methods, numCqs, numQueues);
    StartedRouted(methods, numCqs, numQueues);
    forall j | 0 <= j < |s.slots|
      ensures View(s, j) == Listener(s.slots[j].rpc.kind, false, false, false) && Reachable(View(s, j))
    {
      assert View(s, j) == Listener(s.slots[j].rpc.kind, false, false, false) by {
        assert MyWriters(s, j) == map[];
      }
      ListenerReachable(s.slots[j].rpc.kind, false, false, false);
    }
  }

  lemma {:induction false} SysRunKeeps(s: Sys, steps: seq<SysStep>)
    requires SysInv(s) && AdmissibleSysRun(s, steps)
    ensures IsSysRun(s, steps) && SysInv(SysRun(s, steps))
    decreases |steps|
  {
    if steps != [] {
      SysStepKeeps(s, steps[0]);
      SysRunKeeps(SysNext(s, steps[0]), steps[1..]);
    }
  }
}
