/** What server steps leave alone: routes, membership in active_rpcs_, threads. */
module Frames {
  import opened RpcCore
  import opened System
  import opened Cloning
  import opened Simulation

  predicate SamePair(a: Slot, b: Slot) {
    a.methodIndex == b.methodIndex && a.cq == b.cq
  }

  predicate SameRoute(a: Slot, b: Slot) {
    SamePair(a, b) && a.eq == b.eq
  }

  /** The step gives the new Rpc `j` its event queue. */
  predicate Places(s: Sys, x: SysStep, j: nat) {
    x.SAct? && At(s, x.t, SelectQueue) && Held(s, x.t, j)
  }

  /** The step puts the new Rpc `j` in active_rpcs_. */
  predicate Adds(s: Sys, x: SysStep, j: nat) {
    x.SAct? && At(s, x.t, AddClone) && Held(s, x.t, j)
  }

  /** The step registers the new Rpc `j`. */
  predicate Registers(s: Sys, x: SysStep, j: nat) {
    x.SAct? && At(s, x.t, Register) && Held(s, x.t, j)
  }

  /** The step adds an Rpc to the server. */
  predicate Creates(s: Sys, x: SysStep) {
    x.SAct? && Clones(s, x.t)
  }

  /** Globals but for the queues. */
  predicate SameServer(s: Sys, s': Sys) {
    && s'.methods == s.methods && |s'.queues| == |s.queues| && |s'.cqs| == |s.cqs| && |s'.workers| == |s.workers|
  }

  /** What an action of thread `t` changes: its own program and Rpc, the queue
      of the Rpc it places and the membership of the Rpc it adds. */
  predicate ActChanges(s: Sys, t: nat, s': Sys)
    requires Running(s, t)
  {
    var id := s.workers[t].id;
    && SameServer(s, s') && s'.stopped == s.stopped && s'.down == s.down && s'.closing == s.closing
    && |s'.slots| == |s.slots| + (if Clones(s, t) then 1 else 0)
    && s'.workers[t].id == id && s'.workers[t].exited == s.workers[t].exited
    && (forall u :: 0 <= u < |s.workers| && u != t ==> s'.workers[u] == s.workers[u])
    && (forall j :: 0 <= j < |s.slots| ==> SlotChanges(s, t, j, s.slots[j], s'.slots[j]))
  }

  predicate SlotChanges(s: Sys, t: nat, j: nat, slot: Slot, slot': Slot)
    requires Running(s, t)
  {
    && SamePair(slot, slot')
    && (slot'.eq == slot.eq || Places(s, SAct(t), j))
    && (j == s.workers[t].id || slot'.active == (slot.active || Adds(s, SAct(t), j)))
  }

  lemma PushChanges(s: Sys, t: nat, h: Sys)
    requires SysEnabled(s, SAct(t)) && IsHalf(s, t, h) && Pushes(s, t)
    ensures ActChanges(s, t, Push(h, s.workers[t].id, WriteNeeded))
  {}

  lemma CloneChanges(s: Sys, t: nat, h: Sys)
    requires SysEnabled(s, SAct(t)) && IsHalf(s, t, h) && Clones(s, t)
    ensures ActChanges(s, t, Cloned(h, t))
  {}

  lemma PlaceChanges(s: Sys, t: nat, c: nat, h: Sys)
    requires SysEnabled(s, SAct(t)) && IsHalf(s, t, h) && Places(s, SAct(t), c) && c < |s.slots|
    ensures ActChanges(s, t, Placed(h, c))
  {}

  lemma AddChanges(s: Sys, t: nat, c: nat, h: Sys)
    requires SysEnabled(s, SAct(t)) && IsHalf(s, t, h) && Adds(s, SAct(t), c) && c < |s.slots|
    ensures ActChanges(s, t, Added(h, c))
  {}

  lemma RegisterChanges(s: Sys, t: nat, c: nat, h: Sys)
    requires SysEnabled(s, SAct(t)) && IsHalf(s, t, h) && At(s, t, Register) && c < |s.slots|
    ensures ActChanges(s, t, Registered(h, t, c))
  {}

  lemma DropChanges(s: Sys, t: nat, h: Sys)
    requires SysEnabled(s, SAct(t)) && IsHalf(s, t, h) && At(s, t, DropClone)
    ensures ActChanges(s, t, Dropped(h, t))
  {}

  lemma PlainChanges(s: Sys, t: nat, h: Sys)
    requires SysEnabled(s, SAct(t)) && IsHalf(s, t, h) && !Clones(s, t)
    requires At(s, t, AddClone) ==> !Holding(s, t)
    ensures ActChanges(s, t, h)
  {}

  lemma BeyondChanges(s: Sys, t: nat, h: Sys)
    requires SysEnabled(s, SAct(t)) && IsHalf(s, t, h)
    ensures ActChanges(s, t, Beyond(s, t, h))
  {
    if Pushes(s, t) { PushChanges(s, t, h); }
    else if Clones(s, t) { CloneChanges(s, t, h); }
    else if At(s, t, SelectQueue) && Holding(s, t) { PlaceChanges(s, t, s.workers[t].clone.value, h); }
    else if At(s, t, AddClone) && Holding(s, t) { AddChanges(s, t, s.workers[t].clone.value, h); }
    else if At(s, t, Register) && Holding(s, t) { RegisterChanges(s, t, s.workers[t].clone.value, h); }
    else if At(s, t, DropClone) { DropChanges(s, t, h); }
    else { PlainChanges(s, t, h); }
  }

  lemma ActFrame(s: Sys, t: nat)
    requires SysEnabled(s, SAct(t))
    ensures ActChanges(s, t, SActed(s, t))
  {
    HalfFrame(s, t);
    BeyondChanges(s, t, Half(s, t));
  }

  /** The new Rpc in the thread's hands. */
  lemma ActHands(s: Sys, t: nat)
    requires SysEnabled(s, SAct(t))
    ensures SActed(s, t).workers[t].prog == Half(s, t).workers[t].prog
    ensures SActed(s, t).workers[t].clone ==
      if Clones(s, t) then Some(|s.slots|)
      else if At(s, t, Register) && Holding(s, t) then None
      else s.workers[t].clone
    ensures SActed(s, t).workers[t].kept ==
      if At(s, t, Register) && Holding(s, t) then s.workers[t].clone
      else if At(s, t, DropClone) then None
      else s.workers[t].kept
  {
    HalfFrame(s, t);
    BeyondHands(s, t, Half(s, t));
  }

  lemma BeyondHands(s: Sys, t: nat, h: Sys)
    requires SysEnabled(s, SAct(t)) && IsHalf(s, t, h)
    ensures var worker := Beyond(s, t, h).workers[t];
      && worker.prog == h.workers[t].prog
      && worker.clone ==
           (if Clones(s, t) then Some(|s.slots|)
            else if At(s, t, Register) && Holding(s, t) then None
            else s.workers[t].clone)
      && worker.kept ==
           (if At(s, t, Register) && Holding(s, t) then s.workers[t].clone
            else if At(s, t, DropClone) then None
            else s.workers[t].kept)
  {
    if At(s, t, CloneRpc) || At(s, t, Register) || At(s, t, DropClone) {
    } else {
      BeyondKeepsWorkers(s, t, h);
    }
  }

  lemma BeyondKeepsWorkers(s: Sys, t: nat, h: Sys)
    requires SysEnabled(s, SAct(t)) && IsHalf(s, t, h)
    requires !At(s, t, CloneRpc) && !At(s, t, Register) && !At(s, t, DropClone)
    ensures Beyond(s, t, h).workers == h.workers
  {}

  /** No route and no membership in active_rpcs_ changed, and the threads hold
      what they held. */
  predicate Undisturbed(s: Sys, s': Sys) {
    && SameServer(s, s') && |s'.slots| == |s.slots|
    && s'.current == s.current && s'.selected == s.selected
    && (forall j :: 0 <= j < |s.slots| ==> SameRoute(s.slots[j], s'.slots[j]) && s'.slots[j].active == s.slots[j].active)
    && (forall u :: 0 <= u < |s.workers| ==> s'.workers[u].clone == s.workers[u].clone || s.workers[u].prog == Halt)
    && (forall u :: 0 <= u < |s.workers| ==> s'.workers[u].kept == s.workers[u].kept)
    && (forall u :: 0 <= u < |s.workers| && s.workers[u].exited ==> s'.workers[u].exited)
  }

  /** The memory of one Rpc changed, and queues. */
  lemma MemoryUndisturbed(s: Sys, s': Sys, id: nat, r: Rpc)
    requires id < |s.slots| && s'.slots == s.slots[id := s.slots[id].(rpc := r)] && s'.workers == s.workers
    requires SameServer(s, s') && s'.current == s.current && s'.selected == s.selected
    ensures Undisturbed(s, s')
  {}

  lemma ForwardUndisturbed(s: Sys, q: nat)
    requires SysEnabled(s, SForward(q))
    ensures Undisturbed(s, SForwarded(s, q)) && SForwarded(s, q).workers == s.workers
  {
    var x := s.cqs[q][0];
    var r := s.slots[x.id].rpc;
    if Live(s, x.id) { MemoryUndisturbed(s, SForwarded(s, q), x.id, StoreOk(r, x.value)); }
    else { MemoryUndisturbed(s, SForwarded(s, q), x.id, Raise(r, UseAfterFree)); }
  }

  lemma BeginUndisturbed(s: Sys, t: nat)
    requires SysEnabled(s, SBegin(t))
    ensures Undisturbed(s, SBegun(s, t))
    ensures forall u :: 0 <= u < |s.workers| && u != t ==> SBegun(s, t).workers[u] == s.workers[u]
  {}

  lemma SendUndisturbed(s: Sys, t: nat, item: SendItem)
    requires SysEnabled(s, SHandlerSend(t, item))
    ensures Undisturbed(s, SHandlerSent(s, t, item))
    ensures forall u :: 0 <= u < |s.workers| && u != t ==> SHandlerSent(s, t, item).workers[u] == s.workers[u]
  {
    var worker := s.workers[t];
    var r := s.slots[worker.id].rpc;
    if Live(s, worker.id) {
      WorkUndisturbed(s, t, worker.id, EnqueueMessage(r, item), worker.(prog := Then(PushWriteNeeded, worker.prog)));
    } else {
      MemoryUndisturbed(s, SHandlerSent(s, t, item), worker.id, Raise(r, UseAfterFree));
    }
  }

  /** The memory of one Rpc changed, and a thread's program. */
  lemma WorkUndisturbed(s: Sys, t: nat, id: nat, r: Rpc, worker: Worker)
    requires id < |s.slots| && t < |s.workers| && worker.exited == s.workers[t].exited
    requires worker.clone == s.workers[t].clone && worker.kept == s.workers[t].kept
    ensures Undisturbed(s, SetWorker(SetRpc(s, id, r), t, worker))
  {}

  lemma WriterUndisturbed(s: Sys, x: SysStep)
    requires SysEnabled(s, x) && (x.SWriterLock? || x.SWriterEnqueue? || x.SWriterPush? || x.SWriterReturn?)
    ensures Undisturbed(s, SysNext(s, x)) && SysNext(s, x).workers == s.workers
  {}

  lemma OtherUndisturbed(s: Sys, x: SysStep)
    requires SysEnabled(s, x) && !x.SAct?
    ensures Undisturbed(s, SysNext(s, x))
  {
    match x
    case SComplete(_, _, _, _) =>
    case SForward(q) => ForwardUndisturbed(s, q);
    case SBegin(t) => BeginUndisturbed(s, t);
    case SHandlerSend(t, item) => SendUndisturbed(s, t, item);
    case SClose =>
    case SStop(_) =>
    case SGrpcShutdown =>
    case SQueueShutdown(_) =>
    case SExit(_) =>
    case _ => WriterUndisturbed(s, x);
  }

  /** A step keeps every route, except that it may place a new Rpc. */
  lemma RouteStep(s: Sys, x: SysStep, j: nat)
    requires SysEnabled(s, x) && j < |s.slots|
    ensures j < |SysNext(s, x).slots| && SamePair(s.slots[j], SysNext(s, x).slots[j]) && SameServer(s, SysNext(s, x))
    ensures !Places(s, x, j) ==> SameRoute(s.slots[j], SysNext(s, x).slots[j])
  {
    if x.SAct? { ActFrame(s, x.t); } else { OtherUndisturbed(s, x); }
  }
}
