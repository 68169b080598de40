/** The new Rpc a thread creates in place of a listener, until gRPC knows of it. */
module Cloning {
  import opened RpcCore
  import opened Connection
  import opened System
  import opened Projection

  /** The thread holds a new Rpc in its hands. */
  predicate AtClone(p: Program) {
    p.Then? && p.action in {SelectQueue, AddClone, Register}
  }

  /** The thread still holds the Rpc it has registered. */
  predicate AtDrop(p: Program) {
    p.Then? && p.action == DropClone
  }

  /** The cloning actions come last and in order. */
  predicate WellFormed(p: Program) {
    match p
    case Halt => true
    case Then(CloneRpc, q) => q == PLACING
    case Then(SelectQueue, q) => q == ADDING
    case Then(AddClone, q) => q == REGISTERING
    case Then(Register, q) => q == DROPPING
    case Then(DropClone, q) => q == Halt
    case Then(_, q) => WellFormed(q) && !AtClone(q) && !AtDrop(q)
  }

  /** New Rpc `c` belongs to the pair of the Rpc that thread `t` works for, gRPC
      has not heard of it and nothing refers to it. Until its queue is selected
      it has that Rpc's. */
  predicate HoldsClone(s: Sys, t: nat, c: nat)
    requires Routed(s) && t < |s.workers| && s.workers[t].prog.Then?
  {
    var worker := s.workers[t];
    && c < |s.slots|
    && s.slots[c].methodIndex == s.slots[worker.id].methodIndex && s.slots[c].cq == s.slots[worker.id].cq
    && View(s, c) ==
         Unregistered(s.slots[worker.id].rpc.kind, worker.prog.action == Register, Stopping(s, worker.id), s.down)
    && (worker.prog.action == SelectQueue ==> s.slots[c].eq == t)
  }

  predicate HoldOk(s: Sys, t: nat)
    requires Routed(s) && t < |s.workers|
  {
    var worker := s.workers[t];
    && WellFormed(worker.prog)
    && (worker.clone.Some? <==> AtClone(worker.prog))
    && (worker.clone.Some? ==> HoldsClone(s, t, worker.clone.value))
    && (worker.kept.Some? <==> AtDrop(worker.prog))
    && (worker.kept.Some? ==> worker.kept.value != worker.id)
  }

  predicate Held(s: Sys, t: nat, c: nat) {
    t < |s.workers| && s.workers[t].clone == Some(c)
  }

  predicate CloneInv(s: Sys)
    requires Routed(s)
  {
    && (forall t :: 0 <= t < |s.workers| ==> HoldOk(s, t))
    && (forall t, u :: 0 <= t < u < |s.workers| && s.workers[t].clone.Some? ==>
          s.workers[t].clone != s.workers[u].clone)
    && (forall t, u :: 0 <= t < u < |s.workers| && s.workers[t].kept.Some? ==>
          s.workers[t].kept != s.workers[u].kept)
  }

  /** An unregistered Rpc takes no step of its own. */
  lemma UnregisteredIdle(c: Conn, step: Step)
    requires exists kind, active: bool, stopping: bool, down: bool :: c == Unregistered(kind, active, stopping, down)
    requires Enabled(c, step)
    ensures step.StopServing? || step.GrpcShutdown?
  {}

  lemma HeldView(s: Sys, t: nat, c: nat)
    requires Routed(s) && CloneInv(s) && Held(s, t, c)
    ensures s.workers[t].prog.Then? && HoldsClone(s, t, c)
    ensures c != s.workers[t].id
  {
    assert HoldOk(s, t);
  }
}
