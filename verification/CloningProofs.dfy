/** Every step of every server keeps the invariant about new Rpcs. */
module CloningProofs {
  import opened RpcCore
  import opened Connection
  import opened ConnectionTheorems
  import opened System
  import opened Projection
  import opened Cloning
  import opened Simulation
  import opened Frames

  lemma RoutedStep(s: Sys, x: SysStep)
    requires Routed(s) && CloneInv(s) && SysEnabled(s, x)
    ensures Routed(SysNext(s, x))
  {
    if Target(s, x).Some? { SimLocal(s, x); } else { RoutedGlobal(s, x); }
  }

  // ---------------------------------------------------------------------
  // Threads that look on

  lemma HoldFrame(s: Sys, s': Sys, u: nat, c: nat)
    requires Routed(s) && Routed(s') && u < |s.workers| && u < |s'.workers|
    requires s.workers[u].prog.Then? && HoldsClone(s, u, c)
    requires s'.workers[u].prog == s.workers[u].prog && s'.workers[u].id == s.workers[u].id
    requires s'.methods == s.methods && s.workers[u].id < |s.slots| <= |s'.slots|
    requires SameRoute(s.slots[c], s'.slots[c]) && SamePair(s.slots[s.workers[u].id], s'.slots[s.workers[u].id])
    requires s'.slots[s.workers[u].id].rpc.kind == s.slots[s.workers[u].id].rpc.kind
    requires View(s', c) == View(s, c).(stopping := Stopping(s', c), down := s'.down)
    ensures HoldsClone(s', u, c)
  {}

  lemma HeldIdle(s: Sys, u: nat, c: nat, x: SysStep)
    requires Routed(s) && CloneInv(s) && Held(s, u, c) && SysEnabled(s, x) && Target(s, x).Some?
    requires Enabled(View(s, Target(s, x).value), LocalStep(x))
    ensures Target(s, x).value != c
  {
    HeldView(s, u, c);
    if Target(s, x).value == c { UnregisteredIdle(View(s, c), LocalStep(x)); }
  }

  lemma HeldNotBorn(s: Sys, x: SysStep, u: nat, c: nat)
    requires Routed(s) && CloneInv(s) && Held(s, u, c) && !(x.SAct? && x.t == u)
    ensures BornBy(s, x) != Some(c)
  {
    HeldNotKept(s, u, c);
  }

  /** Nobody holds a shared_ptr to a new Rpc that is not registered. */
  lemma HeldNotKept(s: Sys, u: nat, c: nat)
    requires Routed(s) && CloneInv(s) && Held(s, u, c)
    ensures !KeptBy(s.workers, c)
  {
    HeldView(s, u, c);
    assert View(s, c).held == KeptBy(s.workers, c);
  }

  lemma OtherView(s: Sys, s': Sys, id: nat, step: Step, born: Option<nat>, c: nat)
    requires Routed(s) && MovesBut(s, s', id, step, born) && c < |s.slots| && c != id && born != Some(c)
    ensures View(s', c) == View(s, c).(stopping := Stopping(s', c), down := s'.down)
  {
    assert View(s', c) == View(s, c);
  }

  /** Other threads do not change what anybody sees of the new Rpc in `u`'s hands. */
  lemma HeldViewStays(s: Sys, x: SysStep, u: nat, c: nat)
    requires Routed(s) && CloneInv(s) && SysEnabled(s, x) && Held(s, u, c) && !(x.SAct? && x.t == u)
    ensures Routed(SysNext(s, x)) && c < |s.slots| <= |SysNext(s, x).slots|
    ensures View(SysNext(s, x), c) == View(s, c).(stopping := Stopping(SysNext(s, x), c), down := SysNext(s, x).down)
  {
    HeldView(s, u, c);
    if Target(s, x).Some? {
      SimLocal(s, x);
      HeldIdle(s, u, c, x);
      HeldNotBorn(s, x, u, c);
      OtherView(s, SysNext(s, x), Target(s, x).value, LocalStep(x), BornBy(s, x), c);
    } else {
      RoutedGlobal(s, x);
      GlobalView(s, x, c);
    }
  }

  lemma MovesKind(s: Sys, s': Sys, id: nat, step: Step, born: Option<nat>, j: nat)
    requires Routed(s) && MovesBut(s, s', id, step, born) && j < |s.slots| && born != Some(j)
    ensures View(s', j).rpc.kind == View(s, j).rpc.kind
  {
    if j == id { StepKind(View(s, j), step); }
  }

  /** The step lets go of Rpc `j`. */
  predicate Drops(s: Sys, x: SysStep, j: nat) {
    x.SAct? && At(s, x.t, DropClone) && s.workers[x.t].kept == Some(j)
  }

  lemma KindKept(s: Sys, x: SysStep, j: nat)
    requires Routed(s) && CloneInv(s) && SysEnabled(s, x) && j < |s.slots|
    requires BornBy(s, x) != Some(j) || Drops(s, x, j)
    ensures Routed(SysNext(s, x)) && |s.slots| <= |SysNext(s, x).slots|
    ensures SysNext(s, x).slots[j].rpc.kind == s.slots[j].rpc.kind
  {
    if Drops(s, x, j) {
      SimDrop(s, x.t, j);
    } else if Target(s, x).Some? {
      SimLocal(s, x);
      MovesKind(s, SysNext(s, x), Target(s, x).value, LocalStep(x), BornBy(s, x), j);
    } else {
      RoutedGlobal(s, x);
      GlobalView(s, x, j);
    }
  }

  /** A thread that is running is not itself being cloned. */
  lemma RunnerIsNotBorn(s: Sys, x: SysStep, u: nat)
    requires Routed(s) && CloneInv(s) && u < |s.workers| && s.workers[u].prog.Then?
    ensures BornBy(s, x) != Some(s.workers[u].id) || Drops(s, x, s.workers[u].id)
  {
    if BornBy(s, x) == Some(s.workers[u].id) && !Drops(s, x, s.workers[u].id) {
      HeldView(s, x.t, s.workers[u].id);
      RunningView(s, u);
    }
  }

  lemma OnlookerHolds(s: Sys, x: SysStep, u: nat)
    requires Routed(s) && CloneInv(s) && SysEnabled(s, x) && u < |s.workers| && Routed(SysNext(s, x))
    requires SameServer(s, SysNext(s, x)) && SysNext(s, x).workers[u] == s.workers[u] && !(x.SAct? && x.t == u)
    ensures HoldOk(SysNext(s, x), u)
  {
    assert HoldOk(s, u);
    if s.workers[u].clone.Some? {
      var c := s.workers[u].clone.value;
      HeldView(s, u, c);
      HeldViewStays(s, x, u, c);
      RunnerIsNotBorn(s, x, u);
      KindKept(s, x, s.workers[u].id);
      RouteStep(s, x, c);
      RouteStep(s, x, s.workers[u].id);
      assert !Places(s, x, c);
      HoldFrame(s, SysNext(s, x), u, c);
    }
  }

  // ---------------------------------------------------------------------
  // The thread that acts

  lemma ExecuteForm(r: Rpc, active: bool, alive: bool, p: Program)
    requires p.Then? && WellFormed(p)
    ensures var p' := Execute(r, active, alive, p).prog;
      && WellFormed(p')
      && (AtClone(p') <==> (AtClone(p) && p.action != Register) || (p.action == CloneRpc && alive))
      && (AtClone(p') ==> p' == p.next)
  {
    ExecuteProgram(r, active, alive, p);
    assert WellFormed(p.next) && (AtClone(p.next) <==> (AtClone(p) && p.action != Register) || p.action == CloneRpc);
  }

  lemma ExecuteProgram(r: Rpc, active: bool, alive: bool, p: Program)
    requires p.Then?
    ensures var p' := Execute(r, active, alive, p).prog;
      if !alive && p.action !in {SelectQueue, AddClone, Register, DropClone} then p' == Halt
      else p' == p.next || (p' == Then(CallbackReturn, p.next) && !p.action.CloneRpc? && !AtClone(p) && !AtDrop(p))
  {}

  lemma ExecuteDrop(r: Rpc, active: bool, alive: bool, p: Program)
    requires p.Then? && WellFormed(p)
    ensures AtDrop(Execute(r, active, alive, p).prog) <==> p.action == Register
  {
    ExecuteProgram(r, active, alive, p);
  }

  lemma ProgramForm(kind: Kind, e: Event, ok: bool, stopping: bool)
    ensures var p := ProgramFor(kind, e, ok, stopping); WellFormed(p) && !AtClone(p) && !AtDrop(p)
  {
    ReadForm(kind, CLONING);
    ReadForm(kind, Halt);
    SettleForm();
  }

  lemma ReadForm(kind: Kind, p: Program)
    requires WellFormed(p) && !AtClone(p) && !AtDrop(p)
    ensures var q := ReadIfNeeded(kind, p); WellFormed(q) && !AtClone(q) && !AtDrop(q)
  {
    assert WellFormed(Then(CallOnReadsDone, p));
  }

  lemma SettleForm()
    ensures WellFormed(Then(RemoveIfNotPending, Halt)) && WellFormed(Then(RemoveIfNotPending, Then(Release, Halt)))
  {}

  lemma BeginForm(s: Sys, t: nat)
    requires SysEnabled(s, SBegin(t))
    ensures var worker := SBegun(s, t).workers[t];
      && WellFormed(worker.prog) && !AtClone(worker.prog) && !AtDrop(worker.prog)
      && worker.clone == None && worker.kept == s.workers[t].kept
  {
    var x := s.queues[t][0];
    ProgramForm(s.slots[x.id].rpc.kind, x.value, x.value in s.slots[x.id].rpc.oks, Stopping(s, x.id));
    ProgramForm(s.slots[x.id].rpc.kind, x.value, true, Stopping(s, x.id));
  }

  lemma BeginHoldOk(s: Sys, t: nat)
    requires Routed(s) && SysEnabled(s, SBegin(t)) && Routed(SBegun(s, t)) && HoldOk(s, t)
    ensures HoldOk(SBegun(s, t), t)
  {
    BeginForm(s, t);
  }

  lemma SendHolds(s: Sys, t: nat, item: SendItem)
    requires Routed(s) && SysEnabled(s, SHandlerSend(t, item)) && Routed(SHandlerSent(s, t, item)) && HoldOk(s, t)
    ensures HoldOk(SHandlerSent(s, t, item), t)
  {
    var s', worker := SHandlerSent(s, t, item), s.workers[t];
    assert s'.workers[t] == worker || s'.workers[t] == worker.(prog := Then(PushWriteNeeded, worker.prog));
    NoClone(s', t);
  }

  /** A thread that is not replacing a listener. */
  lemma NoClone(s: Sys, t: nat)
    requires Routed(s) && t < |s.workers| && WellFormed(s.workers[t].prog)
    requires !AtClone(s.workers[t].prog) && !AtDrop(s.workers[t].prog)
    requires s.workers[t].clone == None && s.workers[t].kept == None
    ensures HoldOk(s, t)
  {}

  /** Thread `t` goes on for the same Rpc and for the same pair. */
  predicate KeepsPair(s: Sys, s': Sys, t: nat, c: nat) {
    && t < |s.workers| && t < |s'.workers| && s'.workers[t].id == s.workers[t].id
    && s'.methods == s.methods && s'.stopped == s.stopped && s'.down == s.down
    && c < |s.slots| <= |s'.slots| && s.workers[t].id < |s.slots| && SamePair(s.slots[c], s'.slots[c])
    && SamePair(s.slots[s.workers[t].id], s'.slots[s.workers[t].id])
    && s'.slots[s.workers[t].id].rpc.kind == s.slots[s.workers[t].id].rpc.kind
  }

  lemma ActKeepsPair(s: Sys, t: nat, c: nat)
    requires Routed(s) && CloneInv(s) && SysEnabled(s, SAct(t)) && c < |s.slots|
    ensures KeepsPair(s, SActed(s, t), t, c)
  {
    ActFrame(s, t);
    RunnerIsNotBorn(s, SAct(t), t);
    KindKept(s, SAct(t), s.workers[t].id);
  }

  lemma CloneHands(s: Sys, t: nat)
    requires Routed(s) && SysEnabled(s, SAct(t)) && Clones(s, t) && HoldOk(s, t)
    ensures SActed(s, t).workers[t].prog == PLACING && SActed(s, t).workers[t].clone == Some(|s.slots|)
    ensures SActed(s, t).workers[t].kept == None
  {
    var worker := s.workers[t];
    ExecuteForm(s.slots[worker.id].rpc, s.slots[worker.id].active, true, worker.prog);
    ActHands(s, t);
  }

  lemma CloneHolds(s: Sys, t: nat)
    requires Routed(s) && CloneInv(s) && SysEnabled(s, SAct(t)) && Clones(s, t) && Routed(SActed(s, t))
    ensures HoldOk(SActed(s, t), t)
  {
    assert HoldOk(s, t);
    CloneHands(s, t);
    SimClone(s, t);
    ActKeepsPair(s, t, s.workers[t].id);
    NewSlot(s, t);
    HoldNew(s, SActed(s, t), t);
  }

  lemma HoldNew(s: Sys, s': Sys, t: nat)
    requires Routed(s) && Routed(s') && Running(s, t) && KeepsPair(s, s', t, s.workers[t].id)
    requires |s'.slots| == |s.slots| + 1 && s'.slots[|s.slots|].eq == t
    requires s'.workers[t].prog == PLACING && s'.workers[t].clone == Some(|s.slots|) && s'.workers[t].kept == None
    requires SamePair(s.slots[s.workers[t].id], s'.slots[|s.slots|])
    requires View(s', |s.slots|) ==
      Unregistered(s.slots[s.workers[t].id].rpc.kind, false, Stopping(s, s.workers[t].id), s.down)
    ensures HoldOk(s', t)
  {}

  lemma NewSlot(s: Sys, t: nat)
    requires Routed(s) && SysEnabled(s, SAct(t)) && Clones(s, t)
    ensures |SActed(s, t).slots| == |s.slots| + 1
    ensures SamePair(s.slots[s.workers[t].id], SActed(s, t).slots[|s.slots|]) && SActed(s, t).slots[|s.slots|].eq == t
  {
    HalfFrame(s, t);
  }

  /** What the cloning actions do to the thread. */
  lemma CloningHands(s: Sys, t: nat)
    requires Routed(s) && SysEnabled(s, SAct(t)) && HoldOk(s, t) && AtClone(s.workers[t].prog) && Holding(s, t)
    ensures SActed(s, t).workers[t].prog == s.workers[t].prog.next
    ensures SActed(s, t).workers[t].clone == if At(s, t, Register) then None else s.workers[t].clone
    ensures SActed(s, t).workers[t].kept == if At(s, t, Register) then s.workers[t].clone else None
  {
    var worker := s.workers[t];
    ExecuteForm(s.slots[worker.id].rpc, s.slots[worker.id].active, Live(s, worker.id), worker.prog);
    ActHands(s, t);
  }

  /** The thread goes on to the next of the cloning actions. */
  lemma HoldNext(s: Sys, s': Sys, t: nat, c: nat)
    requires Routed(s) && Routed(s') && KeepsPair(s, s', t, c) && AtClone(s.workers[t].prog)
    requires s.workers[t].prog.action != Register && HoldsClone(s, t, c) && HoldOk(s, t)
    requires s'.workers[t].prog == s.workers[t].prog.next && s'.workers[t].clone == Some(c) && s'.workers[t].kept == None
    requires View(s', c) == View(s, c).(active := s.workers[t].prog.action == AddClone)
    ensures HoldOk(s', t)
  {}

  lemma CloningView(s: Sys, t: nat, c: nat)
    requires Routed(s) && CloneInv(s) && SysEnabled(s, SAct(t)) && Held(s, t, c) && Routed(SActed(s, t))
    requires At(s, t, SelectQueue) || At(s, t, AddClone)
    ensures c < |s.slots| <= |SActed(s, t).slots|
    ensures View(SActed(s, t), c) == View(s, c).(active := At(s, t, AddClone))
  {
    HeldView(s, t, c);
    if At(s, t, SelectQueue) { SimSelect(s, t, c); } else { SimAdd(s, t, c); }
  }

  lemma CloningHolds(s: Sys, t: nat, c: nat)
    requires Routed(s) && CloneInv(s) && SysEnabled(s, SAct(t)) && AtClone(s.workers[t].prog) && Held(s, t, c)
    requires Routed(SActed(s, t))
    ensures HoldOk(SActed(s, t), t)
  {
    var worker := s.workers[t];
    HeldView(s, t, c);
    assert HoldOk(s, t);
    CloningHands(s, t);
    ActKeepsPair(s, t, c);
    if worker.prog.action == Register {
      HoldRegistered(s, SActed(s, t), t, c);
    } else {
      CloningView(s, t, c);
      HoldNext(s, SActed(s, t), t, c);
    }
  }

  lemma HoldRegistered(s: Sys, s': Sys, t: nat, c: nat)
    requires Routed(s) && Routed(s') && KeepsPair(s, s', t, c) && HoldOk(s, t) && c != s.workers[t].id
    requires s.workers[t].prog.Then? && s.workers[t].prog.action == Register
    requires s'.workers[t].prog == s.workers[t].prog.next && s'.workers[t].clone == None && s'.workers[t].kept == Some(c)
    ensures HoldOk(s', t)
  {}

  lemma PlainHolds(s: Sys, t: nat)
    requires Routed(s) && CloneInv(s) && SysEnabled(s, SAct(t)) && !AtClone(s.workers[t].prog) && !Clones(s, t)
    requires Routed(SActed(s, t))
    ensures HoldOk(SActed(s, t), t)
  {
    assert HoldOk(s, t);
    var worker := s.workers[t];
    ExecuteForm(s.slots[worker.id].rpc, s.slots[worker.id].active, Live(s, worker.id), worker.prog);
    ExecuteDrop(s.slots[worker.id].rpc, s.slots[worker.id].active, Live(s, worker.id), worker.prog);
    ActFrame(s, t);
    ActHands(s, t);
  }

  lemma ActorHolds(s: Sys, t: nat)
    requires Routed(s) && CloneInv(s) && SysEnabled(s, SAct(t)) && Routed(SActed(s, t))
    ensures HoldOk(SActed(s, t), t)
  {
    if AtClone(s.workers[t].prog) {
      HoldsAtClone(s, t);
      CloningHolds(s, t, s.workers[t].clone.value);
    } else if Clones(s, t) {
      CloneHolds(s, t);
    } else {
      PlainHolds(s, t);
    }
  }

  // ---------------------------------------------------------------------
  // All threads

  /** The threads a step leaves alone. */
  lemma OnlyActorChanges(s: Sys, x: SysStep, u: nat)
    requires Routed(s) && SysEnabled(s, x) && u < |s.workers|
    ensures SameServer(s, SysNext(s, x))
    ensures SysNext(s, x).workers[u] == s.workers[u] ||
      ((x.SBegin? || x.SAct? || x.SHandlerSend? || x.SExit?) && x.t == u)
  {
    match x
    case SAct(t) => ActFrame(s, t);
    case SBegin(t) => BeginUndisturbed(s, t);
    case SHandlerSend(t, item) => SendUndisturbed(s, t, item);
    case SForward(q) => ForwardUndisturbed(s, q);
    case _ => if x.SWriterLock? || x.SWriterEnqueue? || x.SWriterPush? || x.SWriterReturn? { WriterUndisturbed(s, x); }
  }

  lemma HoldStep(s: Sys, x: SysStep, u: nat)
    requires Routed(s) && CloneInv(s) && SysEnabled(s, x) && u < |s.workers| && Routed(SysNext(s, x))
    ensures u < |SysNext(s, x).workers| && HoldOk(SysNext(s, x), u)
  {
    OnlyActorChanges(s, x, u);
    assert HoldOk(s, u);
    if x.SAct? && x.t == u { ActorHolds(s, u); }
    else if SysNext(s, x).workers[u] == s.workers[u] { OnlookerHolds(s, x, u); }
    else if x.SBegin? { BeginHoldOk(s, u); }
    else if x.SHandlerSend? { SendHolds(s, u, x.item); }
  }

  /** What a thread holds after a step it held before, or just created. */
  lemma HandsStep(s: Sys, x: SysStep, u: nat)
    requires Routed(s) && CloneInv(s) && SysEnabled(s, x) && u < |s.workers|
    ensures u < |SysNext(s, x).workers|
    ensures var clone := SysNext(s, x).workers[u].clone;
      clone == s.workers[u].clone || clone == None || (Creates(s, x) && x.t == u && clone == Some(|s.slots|))
  {
    OnlyActorChanges(s, x, u);
    if x.SAct? && x.t == u { ActHands(s, u); }
  }

  lemma HeldBound(s: Sys, t: nat)
    requires Routed(s) && CloneInv(s) && t < |s.workers|
    ensures s.workers[t].clone.Some? ==> s.workers[t].clone.value < |s.slots|
  {
    if s.workers[t].clone.Some? { HeldView(s, t, s.workers[t].clone.value); }
  }

  lemma HandsApart(s: Sys, x: SysStep, t: nat, u: nat)
    requires Routed(s) && CloneInv(s) && SysEnabled(s, x) && t < u < |s.workers|
    ensures u < |SysNext(s, x).workers|
    ensures SysNext(s, x).workers[t].clone.Some? ==> SysNext(s, x).workers[t].clone != SysNext(s, x).workers[u].clone
  {
    HandsStep(s, x, t);
    HandsStep(s, x, u);
    HeldBound(s, t);
    HeldBound(s, u);
  }

  /** What a thread still holds it held before, or has just registered. */
  lemma KeptStep(s: Sys, x: SysStep, u: nat)
    requires Routed(s) && CloneInv(s) && SysEnabled(s, x) && u < |s.workers|
    ensures u < |SysNext(s, x).workers|
    ensures var kept := SysNext(s, x).workers[u].kept;
      kept == s.workers[u].kept || kept == None || (x.SAct? && x.t == u && kept == s.workers[u].clone)
  {
    OnlyActorChanges(s, x, u);
    if x.SAct? { if x.t == u { ActHands(s, u); } } else { OtherUndisturbed(s, x); }
  }

  lemma KeptByOne(s: Sys, x: SysStep, t: nat, u: nat)
    requires Routed(s) && CloneInv(s) && SysEnabled(s, x) && t < |s.workers| && u < |s.workers| && t != u
    ensures t < |SysNext(s, x).workers| && u < |SysNext(s, x).workers|
    ensures SysNext(s, x).workers[t].kept.Some? ==> SysNext(s, x).workers[t].kept != SysNext(s, x).workers[u].kept
  {
    KeptStep(s, x, t);
    KeptStep(s, x, u);
    if s.workers[t].clone.Some? { HeldNotKept(s, t, s.workers[t].clone.value); }
    if s.workers[u].clone.Some? { HeldNotKept(s, u, s.workers[u].clone.value); }
  }

  lemma CloneStep(s: Sys, x: SysStep)
    requires Routed(s) && CloneInv(s) && SysEnabled(s, x)
    ensures Routed(SysNext(s, x)) && CloneInv(SysNext(s, x))
  {
    RoutedStep(s, x);
    OnlyActorChanges(s, x, 0);
    var s' := SysNext(s, x);
    forall u | 0 <= u < |s'.workers| ensures HoldOk(s', u) {
      HoldStep(s, x, u);
    }
    forall t, u | 0 <= t < u < |s'.workers| && s'.workers[t].clone.Some?
      ensures s'.workers[t].clone != s'.workers[u].clone
    {
      HandsApart(s, x, t, u);
    }
    forall t, u | 0 <= t < u < |s'.workers| && s'.workers[t].kept.Some?
      ensures s'.workers[t].kept != s'.workers[u].kept
    {
      KeptByOne(s, x, t, u);
    }
  }

  lemma {:induction false} CloneRun(s: Sys, steps: seq<SysStep>)
    requires Routed(s) && CloneInv(s) && IsSysRun(s, steps)
    ensures Routed(SysRun(s, steps)) && CloneInv(SysRun(s, steps))
    decreases |steps|
  {
    if steps != [] {
      CloneStep(s, steps[0]);
      CloneRun(SysNext(s, steps[0]), steps[1..]);
    }
  }
}
