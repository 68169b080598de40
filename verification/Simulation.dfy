/** Every run of the server is, for each Rpc, a run of its connection. */
module Simulation {
  import opened RpcCore
  import opened Connection
  import opened System
  import opened Projection
  import opened Cloning

  /** Rpc `id`'s connection takes one step and all others are left alone, but
      for the new Rpc `born` that is being added or registered. */
  predicate MovesBut(s: Sys, s': Sys, id: nat, step: Step, born: Option<nat>)
    requires Routed(s)
  {
    && Routed(s') && |s'.slots| >= |s.slots| && id < |s.slots|
    && Enabled(View(s, id), step)
    && View(s', id) == Next(View(s, id), step)
    && (forall j {:trigger View(s', j)} :: 0 <= j < |s.slots| && j != id && Some(j) != born ==>
          View(s', j) == View(s, j))
  }

  predicate Moves(s: Sys, s': Sys, id: nat, step: Step)
    requires Routed(s)
  {
    MovesBut(s, s', id, step, None)
  }

  lemma SimComplete(s: Sys, id: nat, e: Event, ok: bool, m: Message)
    requires Routed(s) && SysEnabled(s, SComplete(id, e, ok, m))
    ensures Moves(s, SCompleted(s, id, e, ok, m), id, Complete(e, ok, m))
    ensures |SCompleted(s, id, e, ok, m).slots| == |s.slots|
  {
    ViewPost(s, id, Post(s.slots[id].rpc, e, ok, m), Completion(e, ok));
  }

  lemma SimForwardLive(s: Sys, q: nat)
    requires Routed(s) && SysEnabled(s, SForward(q)) && Live(s, s.cqs[q][0].id)
    ensures Moves(s, SForwarded(s, q), s.cqs[q][0].id, Forward) && |SForwarded(s, q).slots| == |s.slots|
  {
    var x := s.cqs[q][0];
    LiveIsAlive(s, x.id);
    ViewTransfer(s, q, StoreOk(s.slots[x.id].rpc, x.value), x.value.event);
  }

  lemma SimForwardDead(s: Sys, q: nat)
    requires Routed(s) && SysEnabled(s, SForward(q)) && !Live(s, s.cqs[q][0].id)
    ensures Moves(s, SForwarded(s, q), s.cqs[q][0].id, Forward) && |SForwarded(s, q).slots| == |s.slots|
  {
    var x := s.cqs[q][0];
    LiveIsAlive(s, x.id);
    ViewDrop(s, q, Raise(s.slots[x.id].rpc, UseAfterFree));
  }

  lemma SimForward(s: Sys, q: nat)
    requires Routed(s) && SysEnabled(s, SForward(q))
    ensures Moves(s, SForwarded(s, q), s.cqs[q][0].id, Forward) && |SForwarded(s, q).slots| == |s.slots|
  {
    if Live(s, s.cqs[q][0].id) { SimForwardLive(s, q); } else { SimForwardDead(s, q); }
  }

  lemma SimBegin(s: Sys, t: nat)
    requires Routed(s) && SysEnabled(s, SBegin(t))
    ensures Moves(s, SBegun(s, t), s.queues[t][0].id, Begin)
    ensures |SBegun(s, t).slots| == |s.slots|
  {
    var x := s.queues[t][0];
    LiveIsAlive(s, x.id);
    var d := Dispatch(s.slots[x.id].rpc, Live(s, x.id), x.value, Stopping(s, x.id));
    DispatchPins(s.slots[x.id].rpc, Live(s, x.id), x.value, Stopping(s, x.id));
    ViewTake(s, t, d.rpc, s.workers[t].(id := x.id, prog := d.prog, pinned := d.pinned, clone := None));
  }

  lemma DispatchPins(r: Rpc, alive: bool, e: Event, stopping: bool)
    ensures var d := Dispatch(r, alive, e, stopping); d.pinned ==> d.prog.Then?
  {}

  lemma SimHalf(s: Sys, t: nat)
    requires Routed(s) && Running(s, t)
    ensures var s', id := Half(s, t), s.workers[t].id;
      && Routed(s') && |s'.slots| == |s.slots|
      && View(s, id).prog == s.workers[t].prog
      && View(s', id) == Acted(View(s, id)).(queue := View(s, id).queue)
      && (forall j {:trigger View(s', j)} :: 0 <= j < |s.slots| && j != id ==> View(s', j) == View(s, j))
  {
    var worker := s.workers[t];
    LiveIsAlive(s, worker.id);
    RunningView(s, t);
    var o := Execute(s.slots[worker.id].rpc, s.slots[worker.id].active, Live(s, worker.id), worker.prog);
    ViewWork(s, t, worker.id, o.rpc, o.active, worker.(prog := o.prog, pinned := worker.pinned && o.prog.Then?));
    ActedIs(View(s, worker.id), o);
  }

  lemma RunningView(s: Sys, t: nat)
    requires Routed(s) && Running(s, t)
    ensures var c, worker := View(s, s.workers[t].id), s.workers[t];
      && s.slots[worker.id].eq == t && c.prog == worker.prog && c.pinned == worker.pinned
      && c.rpc == s.slots[worker.id].rpc && c.active == s.slots[worker.id].active
  {}

  lemma ActedIs(c: Conn, o: Outcome)
    requires c.prog.Then? && o == Execute(c.rpc, c.active, Alive(c), c.prog)
    ensures Acted(c).(queue := c.queue) ==
      c.(rpc := o.rpc, active := o.active, prog := o.prog, pinned := c.pinned && o.prog.Then?)
  {}

  /** Thread `t` is about to execute `action`. */
  predicate At(s: Sys, t: nat, action: Action) {
    Running(s, t) && s.workers[t].prog.action == action
  }

  predicate Clones(s: Sys, t: nat) {
    At(s, t, CloneRpc) && Live(s, s.workers[t].id)
  }

  predicate Pushes(s: Sys, t: nat) {
    At(s, t, PushWriteNeeded) && s.slots[s.workers[t].id].active
  }

  /** The new Rpc whose view the action changes. */
  function Born(s: Sys, t: nat): Option<nat> {
    if At(s, t, AddClone) || At(s, t, Register) then s.workers[t].clone
    else if At(s, t, DropClone) then s.workers[t].kept
    else None
  }

  lemma SimActPush(s: Sys, t: nat)
    requires Routed(s) && SysEnabled(s, SAct(t)) && Pushes(s, t)
    ensures Moves(s, Push(Half(s, t), s.workers[t].id, WriteNeeded), s.workers[t].id, Act)
  {
    SimHalf(s, t);
    ActQueue(View(s, s.workers[t].id));
    RunningView(s, t);
    ViewPush(Half(s, t), s.workers[t].id, WriteNeeded);
  }

  lemma SimActPlain(s: Sys, t: nat)
    requires Routed(s) && SysEnabled(s, SAct(t)) && !Pushes(s, t)
    ensures Moves(s, Half(s, t), s.workers[t].id, Act) && |Half(s, t).slots| == |s.slots|
  {
    SimHalf(s, t);
    ActQueue(View(s, s.workers[t].id));
    RunningView(s, t);
    HalfMoves(s, s.workers[t].id, Half(s, t));
  }

  lemma HalfMoves(s: Sys, id: nat, h: Sys)
    requires Routed(s) && Routed(h) && |h.slots| == |s.slots| && id < |s.slots| && View(s, id).prog.Then?
    requires Acted(View(s, id)).queue == View(s, id).queue && View(h, id) == Acted(View(s, id)).(queue := View(s, id).queue)
    requires forall j {:trigger View(h, j)} :: 0 <= j < |s.slots| && j != id ==> View(h, j) == View(s, j)
    ensures Moves(s, h, id, Act)
  {}

  /** `h` differs from `s` only in thread `t` and the Rpc it works for. */
  predicate IsHalf(s: Sys, t: nat, h: Sys)
    requires Running(s, t)
  {
    var id := s.workers[t].id;
    && h == s.(slots := h.slots, workers := h.workers) && |h.slots| == |s.slots| && |h.workers| == |s.workers|
    && h.workers[t] == s.workers[t].(prog := h.workers[t].prog, pinned := h.workers[t].pinned)
    && h.slots[id] == s.slots[id].(rpc := h.slots[id].rpc, active := h.slots[id].active)
    && (forall u :: 0 <= u < |s.workers| && u != t ==> h.workers[u] == s.workers[u])
    && (forall j :: 0 <= j < |s.slots| && j != id ==> h.slots[j] == s.slots[j])
  }

  lemma HalfFrame(s: Sys, t: nat)
    requires Running(s, t)
    ensures IsHalf(s, t, Half(s, t))
  {}

  lemma HalfKind(s: Sys, t: nat)
    requires Running(s, t)
    ensures IsHalf(s, t, Half(s, t))
    ensures Half(s, t).slots[s.workers[t].id].rpc.kind == s.slots[s.workers[t].id].rpc.kind
  {
    var slot := s.slots[s.workers[t].id];
    ExecuteKind(slot.rpc, slot.active, Live(s, s.workers[t].id), s.workers[t].prog);
    HalfFrame(s, t);
  }

  lemma ExecuteKind(r: Rpc, active: bool, alive: bool, p: Program)
    requires p.Then?
    ensures Execute(r, active, alive, p).rpc.kind == r.kind
  {}

  lemma SimClone(s: Sys, t: nat)
    requires Routed(s) && SysEnabled(s, SAct(t)) && Clones(s, t)
    ensures Moves(s, SActed(s, t), s.workers[t].id, Act) && |SActed(s, t).slots| == |s.slots| + 1
    ensures var id := s.workers[t].id;
      View(SActed(s, t), |s.slots|) == Unregistered(s.slots[id].rpc.kind, false, Stopping(s, id), s.down)
  {
    SimActPlain(s, t);
    HalfKind(s, t);
    CloneMoves(s, t, Half(s, t));
  }

  lemma CloneMoves(s: Sys, t: nat, h: Sys)
    requires Routed(s) && Running(s, t) && IsHalf(s, t, h) && Moves(s, h, s.workers[t].id, Act)
    requires h.slots[s.workers[t].id].rpc.kind == s.slots[s.workers[t].id].rpc.kind
    ensures var s', id := Cloned(h, t), s.workers[t].id;
      && Moves(s, s', id, Act) && |s'.slots| == |s.slots| + 1
      && View(s', |s.slots|) == Unregistered(s.slots[id].rpc.kind, false, Stopping(s, id), s.down)
  {
    ViewCloned(h, t);
  }

  /** What the cloning actions do beyond the thread's own Rpc. */
  lemma ActedClone(s: Sys, t: nat, c: nat)
    requires SysEnabled(s, SAct(t)) && Held(s, t, c) && c < |s.slots|
    ensures At(s, t, SelectQueue) ==> SActed(s, t) == Placed(Half(s, t), c)
    ensures At(s, t, AddClone) ==> SActed(s, t) == Added(Half(s, t), c)
    ensures At(s, t, Register) ==> SActed(s, t) == Registered(Half(s, t), t, c)
  {
    BeyondClone(s, t, c, Half(s, t));
  }

  lemma BeyondClone(s: Sys, t: nat, c: nat, h: Sys)
    requires SysEnabled(s, SAct(t)) && |h.slots| == |s.slots| && |h.workers| == |s.workers|
    requires h.queues == s.queues && h.slots[s.workers[t].id].eq == s.slots[s.workers[t].id].eq
    requires h.workers[t].id == s.workers[t].id && h.workers[t].clone == s.workers[t].clone
    requires Held(s, t, c) && c < |s.slots|
    ensures At(s, t, SelectQueue) ==> Beyond(s, t, h) == Placed(h, c)
    ensures At(s, t, AddClone) ==> Beyond(s, t, h) == Added(h, c)
    ensures At(s, t, Register) ==> Beyond(s, t, h) == Registered(h, t, c)
  {}

  /** A change to the new Rpc `c` alone, after the thread's own step. */
  lemma MovesThen(s: Sys, h: Sys, s': Sys, id: nat, c: nat)
    requires Routed(s) && Moves(s, h, id, Act) && |h.slots| == |s.slots| && c != id
    requires Routed(s') && |s'.slots| == |s.slots|
    requires forall j {:trigger View(s', j)} :: 0 <= j < |s.slots| && j != c ==> View(s', j) == View(h, j)
    ensures MovesBut(s, s', id, Act, Some(c))
  {}

  /** The thread's own step leaves the new Rpc alone. */
  lemma HalfClone(s: Sys, t: nat, c: nat)
    requires Routed(s) && CloneInv(s) && SysEnabled(s, SAct(t)) && AtClone(s.workers[t].prog) && Held(s, t, c)
    ensures var h, id := Half(s, t), s.workers[t].id;
      && Moves(s, h, id, Act) && |h.slots| == |s.slots| && c < |s.slots| && c != id
      && View(h, c) == View(s, c) && h.slots[c] == s.slots[c] && h.workers[t].id == id
      && View(s, c).queue == [] && View(s, c).prog == Halt
  {
    HeldView(s, t, c);
    SimActPlain(s, t);
    HalfFrame(s, t);
  }

  lemma SimSelect(s: Sys, t: nat, c: nat)
    requires Routed(s) && CloneInv(s) && SysEnabled(s, SAct(t)) && At(s, t, SelectQueue) && Held(s, t, c)
    ensures Moves(s, SActed(s, t), s.workers[t].id, Act) && |SActed(s, t).slots| == |s.slots|
  {
    HalfClone(s, t, c);
    ActedClone(s, t, c);
    ViewPlaced(Half(s, t), c);
  }

  lemma ViewAdded(s: Sys, c: nat)
    requires Routed(s) && c < |s.slots| && !s.slots[c].active
    ensures var s' := Added(s, c);
      && Routed(s') && |s'.slots| == |s.slots| && View(s', c) == View(s, c).(active := true)
      && (forall j {:trigger View(s', j)} :: 0 <= j < |s.slots| && j != c ==> View(s', j) == View(s, j))
  {
    ViewSetSlot(s, c, s.slots[c].rpc, true);
  }

  /** ActiveRpcs::Add does not find the new Rpc. */
  lemma HeldInactive(s: Sys, t: nat, c: nat)
    requires Routed(s) && CloneInv(s) && Running(s, t) && AtClone(s.workers[t].prog) && !At(s, t, Register)
    requires Held(s, t, c)
    ensures c < |s.slots| && !s.slots[c].active
  {
    HeldView(s, t, c);
    assert View(s, c).active == s.slots[c].active;
  }

  lemma SimAdd(s: Sys, t: nat, c: nat)
    requires Routed(s) && CloneInv(s) && SysEnabled(s, SAct(t)) && At(s, t, AddClone) && Held(s, t, c)
    ensures MovesBut(s, SActed(s, t), s.workers[t].id, Act, Some(c)) && |SActed(s, t).slots| == |s.slots|
    ensures c < |s.slots| && View(SActed(s, t), c) == View(s, c).(active := true)
  {
    HalfClone(s, t, c);
    ActedClone(s, t, c);
    HeldInactive(s, t, c);
    ViewAdded(Half(s, t), c);
    MovesThen(s, Half(s, t), Added(Half(s, t), c), s.workers[t].id, c);
  }

  lemma ViewRegistered(s: Sys, t: nat, c: nat)
    requires Routed(s) && t < |s.workers| && c < |s.slots| && s.workers[t].kept == None
    ensures var s' := Registered(s, t, c);
      && Routed(s') && |s'.slots| == |s.slots|
      && View(s', c) == View(s, c).(rpc := RequestNextMethodInvocation(View(s, c).rpc), held := true)
      && (forall j {:trigger View(s', j)} :: 0 <= j < |s.slots| && j != c ==> View(s', j) == View(s, j))
  {
    var r := RequestNextMethodInvocation(s.slots[c].rpc);
    ViewSetSlot(s, c, r, s.slots[c].active);
    ViewKeep(SetRpc(s, c, r), t, c);
  }

  lemma SimRegister(s: Sys, t: nat, c: nat)
    requires Routed(s) && CloneInv(s) && SysEnabled(s, SAct(t)) && At(s, t, Register) && Held(s, t, c)
    ensures MovesBut(s, SActed(s, t), s.workers[t].id, Act, Some(c)) && |SActed(s, t).slots| == |s.slots|
    ensures c < |s.slots|
    ensures View(SActed(s, t), c) == View(s, c).(rpc := RequestNextMethodInvocation(View(s, c).rpc), held := true)
  {
    HalfClone(s, t, c);
    ActedClone(s, t, c);
    assert HoldOk(s, t) && Half(s, t).workers[t].kept == None;
    ViewRegistered(Half(s, t), t, c);
    MovesThen(s, Half(s, t), Registered(Half(s, t), t, c), s.workers[t].id, c);
  }

  /** For the Rpc that is let go of, that is a step of its own. */
  lemma SimDrop(s: Sys, t: nat, c: nat)
    requires Routed(s) && CloneInv(s) && SysEnabled(s, SAct(t)) && At(s, t, DropClone) && s.workers[t].kept == Some(c)
    ensures MovesBut(s, SActed(s, t), s.workers[t].id, Act, Some(c)) && |SActed(s, t).slots| == |s.slots|
    ensures c < |s.slots| && Enabled(View(s, c), Drop) && View(SActed(s, t), c) == Next(View(s, c), Drop)
  {
    HalfDrop(s, t, c);
    DropMoves(s, t, c, Half(s, t));
    BeyondDrop(s, t, Half(s, t));
  }

  lemma DropMoves(s: Sys, t: nat, c: nat, h: Sys)
    requires Routed(s) && Running(s, t) && IsHalf(s, t, h) && Moves(s, h, s.workers[t].id, Act)
    requires c < |s.slots| && c != s.workers[t].id && View(h, c) == View(s, c) && h.workers[t].kept == Some(c)
    requires forall u :: 0 <= u < |h.workers| && u != t ==> h.workers[u].kept != Some(c)
    ensures var s' := Dropped(h, t);
      && MovesBut(s, s', s.workers[t].id, Act, Some(c)) && |s'.slots| == |s.slots|
      && Enabled(View(s, c), Drop) && View(s', c) == Next(View(s, c), Drop)
  {
    ViewDropped(h, t, c);
    MovesThen(s, h, Dropped(h, t), s.workers[t].id, c);
  }

  lemma HalfDrop(s: Sys, t: nat, c: nat)
    requires Routed(s) && CloneInv(s) && SysEnabled(s, SAct(t)) && At(s, t, DropClone) && s.workers[t].kept == Some(c)
    ensures var h, id := Half(s, t), s.workers[t].id;
      && IsHalf(s, t, h) && Moves(s, h, id, Act) && |h.slots| == |s.slots| && c < |s.slots| && c != id
      && View(h, c) == View(s, c) && h.workers[t].kept == Some(c)
      && (forall u :: 0 <= u < |h.workers| && u != t ==> h.workers[u].kept != Some(c))
  {
    assert HoldOk(s, t);
    SimActPlain(s, t);
    HalfFrame(s, t);
    KeptApart(s, t, c);
  }

  lemma BeyondDrop(s: Sys, t: nat, h: Sys)
    requires SysEnabled(s, SAct(t)) && At(s, t, DropClone) && IsHalf(s, t, h)
    ensures Beyond(s, t, h) == Dropped(h, t)
  {}

  /** Nobody else holds it. */
  lemma KeptApart(s: Sys, t: nat, c: nat)
    requires Routed(s) && CloneInv(s) && t < |s.workers| && s.workers[t].kept == Some(c)
    ensures forall u :: 0 <= u < |s.workers| && u != t ==> s.workers[u].kept != Some(c)
  {}

  lemma HoldsAtClone(s: Sys, t: nat)
    requires Routed(s) && CloneInv(s) && Running(s, t) && AtClone(s.workers[t].prog)
    ensures s.workers[t].clone.Some? && Held(s, t, s.workers[t].clone.value)
  {
    assert HoldOk(s, t);
  }

  lemma KeepsAtDrop(s: Sys, t: nat)
    requires Routed(s) && CloneInv(s) && At(s, t, DropClone)
    ensures s.workers[t].kept.Some?
  {
    assert HoldOk(s, t);
  }

  lemma SimAct(s: Sys, t: nat)
    requires Routed(s) && CloneInv(s) && SysEnabled(s, SAct(t))
    ensures MovesBut(s, SActed(s, t), s.workers[t].id, Act, Born(s, t))
    ensures |SActed(s, t).slots| == |s.slots| + (if Clones(s, t) then 1 else 0)
  {
    if Pushes(s, t) { SimActPush(s, t); HalfFrame(s, t); }
    else if Clones(s, t) { SimClone(s, t); }
    else if At(s, t, SelectQueue) { HoldsAtClone(s, t); SimSelect(s, t, s.workers[t].clone.value); }
    else if At(s, t, AddClone) { HoldsAtClone(s, t); SimAdd(s, t, s.workers[t].clone.value); }
    else if At(s, t, Register) { HoldsAtClone(s, t); SimRegister(s, t, s.workers[t].clone.value); }
    else if At(s, t, DropClone) { KeepsAtDrop(s, t); SimDrop(s, t, s.workers[t].kept.value); }
    else { SimActPlain(s, t); }
  }

  lemma SimHandlerSend(s: Sys, t: nat, item: SendItem)
    requires Routed(s) && SysEnabled(s, SHandlerSend(t, item))
    ensures Moves(s, SHandlerSent(s, t, item), s.workers[t].id, HandlerSend(item))
    ensures |SHandlerSent(s, t, item).slots| == |s.slots|
  {
    LiveIsAlive(s, s.workers[t].id);
    RunningView(s, t);
    if Live(s, s.workers[t].id) { SimLiveSend(s, t, item); } else { SimDeadSend(s, t, item); }
  }

  lemma SimLiveSend(s: Sys, t: nat, item: SendItem)
    requires Routed(s) && SysEnabled(s, SHandlerSend(t, item)) && Live(s, s.workers[t].id)
    ensures Moves(s, SHandlerSent(s, t, item), s.workers[t].id, HandlerSend(item))
    ensures |SHandlerSent(s, t, item).slots| == |s.slots|
  {
    var worker := s.workers[t];
    LiveIsAlive(s, worker.id);
    RunningView(s, t);
    ViewSend(s, t, item);
  }

  lemma ViewSend(s: Sys, t: nat, item: SendItem)
    requires Routed(s) && SysEnabled(s, SHandlerSend(t, item)) && Live(s, s.workers[t].id)
    ensures var s', id := SHandlerSent(s, t, item), s.workers[t].id;
      && Routed(s') && |s'.slots| == |s.slots|
      && View(s', id) ==
           View(s, id).(rpc := EnqueueMessage(View(s, id).rpc, item), prog := Then(PushWriteNeeded, s.workers[t].prog))
      && (forall j {:trigger View(s', j)} :: 0 <= j < |s.slots| && j != id ==> View(s', j) == View(s, j))
  {
    var worker := s.workers[t];
    var slot := s.slots[worker.id];
    RunningView(s, t);
    ViewWork(s, t, worker.id, EnqueueMessage(slot.rpc, item), slot.active,
             worker.(prog := Then(PushWriteNeeded, worker.prog)));
  }

  lemma SimDeadSend(s: Sys, t: nat, item: SendItem)
    requires Routed(s) && SysEnabled(s, SHandlerSend(t, item)) && !Live(s, s.workers[t].id)
    ensures Moves(s, SHandlerSent(s, t, item), s.workers[t].id, HandlerSend(item))
    ensures |SHandlerSent(s, t, item).slots| == |s.slots|
  {
    var slot := s.slots[s.workers[t].id];
    LiveIsAlive(s, s.workers[t].id);
    RunningView(s, t);
    ViewSetSlot(s, s.workers[t].id, Raise(slot.rpc, UseAfterFree), slot.active);
  }

  lemma SimWriterEnqueue(s: Sys, w: nat)
    requires Routed(s) && SysEnabled(s, SWriterEnqueue(w))
    ensures Moves(s, SWriterEnqueued(s, w), s.writers[w].id, WriterEnqueue(w))
    ensures |SWriterEnqueued(s, w).slots| == |s.slots|
  {
    ViewWrite(s, w, EnqueueMessage(s.slots[s.writers[w].id].rpc, s.writers[w].value.item), Enqueued);
  }

  lemma SimWriterPush(s: Sys, w: nat)
    requires Routed(s) && SysEnabled(s, SWriterPush(w))
    ensures Moves(s, SWriterPushed(s, w), s.writers[w].id, WriterPush(w))
    ensures |SWriterPushed(s, w).slots| == |s.slots|
  {
    var slot := s.slots[s.writers[w].id];
    if slot.active { ViewAnnounce(s, w, Pushed, WriteNeeded); }
    else { ViewWrite(s, w, Raise(slot.rpc, WeakPtrCheck), Pushed); }
  }

  lemma SimWriterLock(s: Sys, w: nat, id: nat, item: SendItem)
    requires Routed(s) && SysEnabled(s, SWriterLock(w, id, item))
    ensures Moves(s, SysNext(s, SWriterLock(w, id, item)), id, WriterLock(w, item))
    ensures |SysNext(s, SWriterLock(w, id, item)).slots| == |s.slots|
  {
    LiveIsAlive(s, id);
    ViewSetWriter(s, w, id, Locked(item));
  }

  lemma ViewReturned(s: Sys, w: nat)
    requires Routed(s) && w in s.writers
    ensures var s', id := s.(writers := s.writers - {w}), s.writers[w].id;
      && Routed(s') && View(s', id) == View(s, id).(writers := View(s, id).writers - {w})
      && (forall j {:trigger View(s', j)} :: 0 <= j < |s.slots| && j != id ==> View(s', j) == View(s, j))
  {
    var s' := s.(writers := s.writers - {w});
    assert MyWriters(s', s.writers[w].id) == MyWriters(s, s.writers[w].id) - {w};
    forall j | 0 <= j < |s.slots| && j != s.writers[w].id ensures MyWriters(s', j) == MyWriters(s, j) {}
  }

  lemma SimWriterReturn(s: Sys, w: nat)
    requires Routed(s) && SysEnabled(s, SWriterReturn(w))
    ensures Moves(s, SysNext(s, SWriterReturn(w)), s.writers[w].id, WriterReturn(w))
    ensures |SysNext(s, SWriterReturn(w)).slots| == |s.slots|
  {
    WriterOfView(s, w);
    ViewReturned(s, w);
  }

  function BornBy(s: Sys, x: SysStep): Option<nat> {
    if x.SAct? then Born(s, x.t) else None
  }

  /** A step that works on one Rpc. */
  lemma SimLocal(s: Sys, x: SysStep)
    requires Routed(s) && CloneInv(s) && SysEnabled(s, x) && Target(s, x).Some?
    ensures MovesBut(s, SysNext(s, x), Target(s, x).value, LocalStep(x), BornBy(s, x))
  {
    match x
    case SComplete(id, e, ok, m) => SimComplete(s, id, e, ok, m);
    case SForward(q) => SimForward(s, q);
    case SBegin(t) => SimBegin(s, t);
    case SAct(t) => SimAct(s, t);
    case SHandlerSend(t, item) => SimHandlerSend(s, t, item);
    case SWriterLock(w, id, item) => SimWriterLock(s, w, id, item);
    case SWriterEnqueue(w) => SimWriterEnqueue(s, w);
    case SWriterPush(w) => SimWriterPush(s, w);
    case SWriterReturn(w) => SimWriterReturn(s, w);
  }

  /** A shutdown step takes every affected connection one step. */
  lemma SimGlobal(s: Sys, x: SysStep, j: nat)
    requires Routed(s) && SysEnabled(s, x) && Target(s, x).None? && j < |s.slots|
    ensures Routed(SysNext(s, x)) && |SysNext(s, x).slots| == |s.slots|
    ensures var c, c' := View(s, j), View(SysNext(s, x), j);
      c' == c || (Enabled(c, LocalStep(x)) && c' == Next(c, LocalStep(x)) && LocalStep(x) in {StopServing, GrpcShutdown})
  {
    RoutedGlobal(s, x);
    GlobalView(s, x, j);
  }

  lemma RoutedGlobal(s: Sys, x: SysStep)
    requires Routed(s) && SysEnabled(s, x) && Target(s, x).None?
    ensures Routed(SysNext(s, x)) && |SysNext(s, x).slots| == |s.slots|
  {}

  lemma GlobalView(s: Sys, x: SysStep, j: nat)
    requires Routed(s) && SysEnabled(s, x) && Target(s, x).None? && Routed(SysNext(s, x)) && j < |s.slots|
    requires |SysNext(s, x).slots| == |s.slots|
    ensures View(SysNext(s, x), j) == View(s, j).(stopping := Stopping(SysNext(s, x), j), down := SysNext(s, x).down)
    ensures (View(s, j).stopping ==> Stopping(SysNext(s, x), j)) && (s.down ==> SysNext(s, x).down)
    ensures x.SStop? ==> SysNext(s, x).down == s.down
    ensures !x.SStop? ==> Stopping(SysNext(s, x), j) == View(s, j).stopping
    ensures SysNext(s, x).down != s.down ==> x.SGrpcShutdown? && View(s, j).stopping
  {
    if x.SExit? { KeptStays(s.workers, x.t, s.workers[x.t].(exited := true)); }
    FlagsView(s, SysNext(s, x), j);
  }

  /** Flags of the server and of its threads. */
  lemma FlagsView(s: Sys, s': Sys, j: nat)
    requires Routed(s) && Routed(s') && j < |s.slots| && s'.slots == s.slots && s'.cqs == s.cqs && s'.queues == s.queues
    requires s'.writers == s.writers && |s'.workers| == |s.workers| && KeptBy(s'.workers, j) == KeptBy(s.workers, j)
    requires forall t :: 0 <= t < |s.workers| ==>
      var w, w' := s.workers[t], s'.workers[t]; w'.id == w.id && w'.prog == w.prog && w'.pinned == w.pinned
    ensures View(s', j) == View(s, j).(stopping := Stopping(s', j), down := s'.down)
  {
    assert MyWriters(s', j) == MyWriters(s, j);
  }
}
