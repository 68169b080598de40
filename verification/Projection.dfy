/** What one Rpc sees of the server is a connection: every step of the server
    is one step of the connection it works on and leaves the others alone. */
module Projection {
  import opened RpcCore
  import opened Connection
  import opened Sequences
  import opened System

  function MyWriters(s: Sys, id: nat): map<nat, WriterPc> {
    map w | w in s.writers && s.writers[w].id == id :: s.writers[w].value
  }

  /** Queues, programs and Writer calls refer to existing Rpcs and travel
      through the queues those Rpcs were assigned. */
  predicate Routed(s: Sys) {
    && |s.queues| > 0 && |s.workers| == |s.queues|
    && (forall i :: 0 <= i < |s.slots| ==>
          s.slots[i].methodIndex < |s.methods| && s.slots[i].cq < |s.cqs| && s.slots[i].eq < |s.queues|)
    && (forall q, i :: 0 <= q < |s.cqs| && 0 <= i < |s.cqs[q]| ==>
          s.cqs[q][i].id < |s.slots| && s.slots[s.cqs[q][i].id].cq == q)
    && (forall q, i :: 0 <= q < |s.queues| && 0 <= i < |s.queues[q]| ==>
          s.queues[q][i].id < |s.slots| && s.slots[s.queues[q][i].id].eq == q)
    && (forall t :: 0 <= t < |s.workers| && s.workers[t].prog.Then? ==>
          s.workers[t].id < |s.slots| && s.slots[s.workers[t].id].eq == t)
    && (forall t :: 0 <= t < |s.workers| && s.workers[t].pinned ==> s.workers[t].prog.Then?)
    && (forall t :: 0 <= t < |s.workers| && s.workers[t].kept.Some? ==> s.workers[t].kept.value < |s.slots|)
    && (forall w :: w in s.writers ==> s.writers[w].id < |s.slots|)
  }

  /** The connection of Rpc `id`. */
  function View(s: Sys, id: nat): Conn
    requires Routed(s) && id < |s.slots|
  {
    var slot := s.slots[id];
    var worker := s.workers[slot.eq];
    Conn(slot.rpc, slot.active, Mine(s.cqs[slot.cq], id), Mine(s.queues[slot.eq], id),
         if worker.id == id then worker.prog else Halt, worker.id == id && worker.pinned, KeptBy(s.workers, id),
         MyWriters(s, id), Stopping(s, id), s.down)
  }

  lemma LiveIsAlive(s: Sys, id: nat)
    requires Routed(s) && id < |s.slots|
    ensures Live(s, id) <==> Alive(View(s, id))
  {
    var c := View(s, id);
    if w :| w in s.writers && s.writers[w].id == id { assert w in c.writers; }
    if c.writers != map[] {
      var w :| w in c.writers;
      assert w in s.writers && s.writers[w].id == id;
    }
  }

  lemma WriterOfView(s: Sys, w: nat)
    requires Routed(s) && w in s.writers
    ensures w in View(s, s.writers[w].id).writers
    ensures View(s, s.writers[w].id).writers[w] == s.writers[w].value
  {}

  /** The Rpc a step works on, if it works on one. */
  function Target(s: Sys, x: SysStep): Option<nat>
    requires SysEnabled(s, x)
  {
    match x
    case SComplete(id, _, _, _) => Some(id)
    case SForward(q) => Some(s.cqs[q][0].id)
    case SBegin(t) => Some(s.queues[t][0].id)
    case SAct(t) => Some(s.workers[t].id)
    case SHandlerSend(t, _) => Some(s.workers[t].id)
    case SWriterLock(_, id, _) => Some(id)
    case SWriterEnqueue(w) => Some(s.writers[w].id)
    case SWriterPush(w) => Some(s.writers[w].id)
    case SWriterReturn(w) => Some(s.writers[w].id)
    case _ => None
  }

  /** The same step, seen from the Rpc it works on. */
  function LocalStep(x: SysStep): Step {
    match x
    case SComplete(_, e, ok, m) => Complete(e, ok, m)
    case SForward(_) => Forward
    case SBegin(_) => Begin
    case SAct(_) => Act
    case SHandlerSend(_, item) => HandlerSend(item)
    case SWriterLock(w, _, item) => WriterLock(w, item)
    case SWriterEnqueue(w) => WriterEnqueue(w)
    case SWriterPush(w) => WriterPush(w)
    case SWriterReturn(w) => WriterReturn(w)
    case SStop(_) => StopServing
    case SGrpcShutdown => GrpcShutdown
    case _ => StopServing
  }

  // ---------------------------------------------------------------------
  // How the building blocks of a step look to each Rpc

  lemma ViewSetSlot(s: Sys, id: nat, r: Rpc, active: bool)
    requires Routed(s) && id < |s.slots|
    ensures var s' := SetSlot(s, id, r, active);
      && Routed(s') && |s'.slots| == |s.slots|
      && (forall j {:trigger View(s', j)} :: 0 <= j < |s.slots| ==>
            View(s', j) == if j == id then View(s, j).(rpc := r, active := active) else View(s, j))
  {}

  lemma ViewPush(s: Sys, id: nat, e: Event)
    requires Routed(s) && id < |s.slots|
    ensures var s' := Push(s, id, e);
      && Routed(s') && |s'.slots| == |s.slots|
      && (forall j {:trigger View(s', j)} :: 0 <= j < |s.slots| ==>
            View(s', j) == if j == id then View(s, j).(queue := View(s, j).queue + [e]) else View(s, j))
  {
    var q := s.slots[id].eq;
    forall j: nat | j < |s.slots|
      ensures Mine(s.queues[q] + [Tagged(id, e)], j) == Mine(s.queues[q], j) + (if j == id then [e] else [])
    {
      MineAppend(s.queues[q], Tagged(id, e), j);
    }
  }

  lemma ViewPushCq(s: Sys, id: nat, x: Completion)
    requires Routed(s) && id < |s.slots|
    ensures var s' := PushCq(s, id, x);
      && Routed(s') && |s'.slots| == |s.slots|
      && (forall j {:trigger View(s', j)} :: 0 <= j < |s.slots| ==>
            View(s', j) == if j == id then View(s, j).(cq := View(s, j).cq + [x]) else View(s, j))
  {
    var q := s.slots[id].cq;
    forall j: nat | j < |s.slots|
      ensures Mine(s.cqs[q] + [Tagged(id, x)], j) == Mine(s.cqs[q], j) + (if j == id then [x] else [])
    {
      MineAppend(s.cqs[q], Tagged(id, x), j);
    }
  }

  lemma ViewPop(s: Sys, t: nat)
    requires Routed(s) && t < |s.queues| && s.queues[t] != []
    ensures var s', id := Pop(s, t), s.queues[t][0].id;
      && Routed(s') && |s'.slots| == |s.slots|
      && View(s, id).queue != [] && View(s, id).queue[0] == s.queues[t][0].value
      && (forall j {:trigger View(s', j)} :: 0 <= j < |s.slots| ==>
            View(s', j) == if j == id then View(s, j).(queue := View(s, j).queue[1..]) else View(s, j))
  {}

  lemma ViewPopCq(s: Sys, q: nat)
    requires Routed(s) && q < |s.cqs| && s.cqs[q] != []
    ensures var s', id := PopCq(s, q), s.cqs[q][0].id;
      && Routed(s') && |s'.slots| == |s.slots|
      && View(s, id).cq != [] && View(s, id).cq[0] == s.cqs[q][0].value
      && (forall j {:trigger View(s', j)} :: 0 <= j < |s.slots| ==>
            View(s', j) == if j == id then View(s, j).(cq := View(s, j).cq[1..]) else View(s, j))
  {}

  /** A worker takes up, continues or ends work for one of the Rpcs of its queue. */
  lemma ViewSetWorker(s: Sys, t: nat, worker: Worker)
    requires Routed(s) && t < |s.workers|
    requires worker.id < |s.slots| && s.slots[worker.id].eq == t
    requires worker.pinned ==> worker.prog.Then?
    requires s.workers[t].prog == Halt || s.workers[t].id == worker.id
    requires worker.kept == s.workers[t].kept
    ensures var s' := SetWorker(s, t, worker);
      && Routed(s') && |s'.slots| == |s.slots|
      && (forall j {:trigger View(s', j)} :: 0 <= j < |s.slots| ==>
            View(s', j) == if j == worker.id then View(s, j).(prog := worker.prog, pinned := worker.pinned) else View(s, j))
  {
    RoutedWorker(s, t, worker);
    KeptStays(s.workers, t, worker);
  }

  lemma RoutedWorker(s: Sys, t: nat, worker: Worker)
    requires Routed(s) && t < |s.workers|
    requires worker.prog.Then? ==> worker.id < |s.slots| && s.slots[worker.id].eq == t
    requires worker.pinned ==> worker.prog.Then?
    requires worker.kept.Some? ==> worker.kept.value < |s.slots|
    ensures Routed(SetWorker(s, t, worker))
  {}

  lemma KeptStays(workers: seq<Worker>, t: nat, worker: Worker)
    requires t < |workers| && worker.kept == workers[t].kept
    ensures forall j :: KeptBy(workers[t := worker], j) == KeptBy(workers, j)
  {
    var workers' := workers[t := worker];
    assert forall u :: 0 <= u < |workers| ==> workers'[u].kept == workers[u].kept;
  }

  /** The others are held as before. */
  lemma KeptElsewhere(workers: seq<Worker>, t: nat, worker: Worker, j: nat)
    requires t < |workers| && worker.kept != Some(j) && workers[t].kept != Some(j)
    ensures KeptBy(workers[t := worker], j) == KeptBy(workers, j)
  {
    var workers' := workers[t := worker];
    if KeptBy(workers, j) {
      var u :| 0 <= u < |workers| && workers[u].kept == Some(j);
      assert workers'[u].kept == Some(j);
    }
  }

  lemma ViewSetWriter(s: Sys, w: nat, id: nat, pc: WriterPc)
    requires Routed(s) && id < |s.slots| && (w in s.writers ==> s.writers[w].id == id)
    ensures var s' := SetWriter(s, w, id, pc);
      && Routed(s') && |s'.slots| == |s.slots|
      && (forall j {:trigger View(s', j)} :: 0 <= j < |s.slots| ==>
            View(s', j) == if j == id then View(s, j).(writers := View(s, j).writers[w := pc]) else View(s, j))
  {
    var s' := SetWriter(s, w, id, pc);
    forall j | 0 <= j < |s.slots|
      ensures View(s', j) == if j == id then View(s, j).(writers := View(s, j).writers[w := pc]) else View(s, j)
    {
      MineSetWriter(s, w, id, pc, j);
    }
  }

  lemma MineSetWriter(s: Sys, w: nat, id: nat, pc: WriterPc, j: nat)
    requires w in s.writers ==> s.writers[w].id == id
    ensures MyWriters(SetWriter(s, w, id, pc), j) == if j == id then MyWriters(s, j)[w := pc] else MyWriters(s, j)
  {}

  // --- new Rpcs ---------------------------------------------------------

  /** An Rpc that gRPC has not heard of and nothing refers to. */
  function Unregistered(kind: Kind, active: bool, stopping: bool, down: bool): Conn {
    Conn(Fresh(kind), active, [], [], Halt, false, false, map[], stopping, down)
  }

  /** What a thread has in hand or holds matters only to the Rpc that is held. */
  lemma ViewHands(s: Sys, t: nat, worker: Worker)
    requires Routed(s) && t < |s.workers| && worker == s.workers[t].(clone := worker.clone, kept := worker.kept)
    requires worker.kept.Some? ==> worker.kept.value < |s.slots|
    ensures var s' := SetWorker(s, t, worker);
      && Routed(s') && |s'.slots| == |s.slots|
      && (forall j {:trigger View(s', j)} :: 0 <= j < |s.slots| ==>
            View(s', j) == View(s, j).(held := KeptBy(s.workers[t := worker], j)))
  {
    RoutedWorker(s, t, worker);
  }

  /** A thread takes hold of a registered Rpc ... */
  lemma ViewKeep(s: Sys, t: nat, c: nat)
    requires Routed(s) && t < |s.workers| && c < |s.slots| && s.workers[t].kept == None
    ensures var s' := SetWorker(s, t, s.workers[t].(clone := None, kept := Some(c)));
      && Routed(s') && |s'.slots| == |s.slots|
      && (forall j {:trigger View(s', j)} :: 0 <= j < |s.slots| ==>
            View(s', j) == if j == c then View(s, j).(held := true) else View(s, j))
  {
    var worker := s.workers[t].(clone := None, kept := Some(c));
    ViewHands(s, t, worker);
    KeptAlone(s.workers, t, worker, c);
  }

  lemma KeptAlone(workers: seq<Worker>, t: nat, worker: Worker, c: nat)
    requires t < |workers| && (workers[t].kept == None || workers[t].kept == Some(c))
    requires worker.kept == None || worker.kept == Some(c)
    ensures forall j :: j != c ==> KeptBy(workers[t := worker], j) == KeptBy(workers, j)
    ensures worker.kept == Some(c) ==> KeptBy(workers[t := worker], c)
  {
    var workers' := workers[t := worker];
    assert workers'[t] == worker;
    forall j | j != c ensures KeptBy(workers', j) == KeptBy(workers, j) {
      KeptElsewhere(workers, t, worker, j);
    }
  }

  /** ... and lets go of it. */
  lemma ViewDropped(s: Sys, t: nat, c: nat)
    requires Routed(s) && t < |s.workers| && c < |s.slots| && s.workers[t].kept == Some(c)
    requires forall u :: 0 <= u < |s.workers| && u != t ==> s.workers[u].kept != Some(c)
    ensures var s' := Dropped(s, t);
      && Routed(s') && |s'.slots| == |s.slots| && View(s, c).held
      && (forall j {:trigger View(s', j)} :: 0 <= j < |s.slots| ==>
            View(s', j) == if j == c then View(s, j).(held := false) else View(s, j))
  {
    var worker := s.workers[t].(kept := None);
    ViewHands(s, t, worker);
    KeptAlone(s.workers, t, worker, c);
    assert !KeptBy(s.workers[t := worker], c);
  }

  lemma ViewCloned(s: Sys, t: nat)
    requires Routed(s) && t < |s.workers| && s.workers[t].id < |s.slots|
    ensures var s', origin := Cloned(s, t), s.workers[t].id;
      && Routed(s') && |s'.slots| == |s.slots| + 1
      && (forall j {:trigger View(s', j)} :: 0 <= j < |s.slots| ==> View(s', j) == View(s, j))
      && View(s', |s.slots|) == Unregistered(s.slots[origin].rpc.kind, false, Stopping(s, origin), s.down)
  {
    var s' := Cloned(s, t);
    KeptStays(s.workers, t, s.workers[t].(clone := Some(|s.slots|)));
    forall j | 0 <= j < |s.slots| ensures View(s', j) == View(s, j) {
      assert MyWriters(s', j) == MyWriters(s, j);
    }
    NewView(s, t);
  }

  lemma NewView(s: Sys, t: nat)
    requires Routed(s) && t < |s.workers| && s.workers[t].id < |s.slots| && Routed(Cloned(s, t))
    ensures var s', origin := Cloned(s, t), s.workers[t].id;
      && |s'.slots| == |s.slots| + 1
      && View(s', |s.slots|) == Unregistered(s.slots[origin].rpc.kind, false, Stopping(s, origin), s.down)
  {
    var s', n := Cloned(s, t), |s.slots|;
    MineNone(s.cqs[s'.slots[n].cq], n);
    MineNone(s.queues[s'.slots[n].eq], n);
    KeptStays(s.workers, t, s.workers[t].(clone := Some(n)));
    assert !KeptBy(s.workers, n);
    assert MyWriters(s', n) == map[];
  }

  /** No event queue holds an event of an Rpc whose view of its queue is empty. */
  lemma NoEvents(s: Sys, c: nat, q: nat, i: nat)
    requires Routed(s) && c < |s.slots| && View(s, c).queue == [] && q < |s.queues| && i < |s.queues[q]|
    ensures s.queues[q][i].id != c
  {
    if s.queues[q][i].id == c { MineContains(s.queues[q], i); }
  }

  /** Placing an Rpc that has no events and no thread is invisible to everybody. */
  lemma ViewPlaced(s: Sys, c: nat)
    requires Routed(s) && c < |s.slots| && View(s, c).queue == [] && View(s, c).prog == Halt
    ensures var s' := Placed(s, c);
      && Routed(s') && |s'.slots| == |s.slots|
      && (forall j {:trigger View(s', j)} :: 0 <= j < |s.slots| ==> View(s', j) == View(s, j))
  {
    var s' := Placed(s, c);
    forall q, i | 0 <= q < |s.queues| && 0 <= i < |s.queues[q]| ensures s.queues[q][i].id != c {
      NoEvents(s, c, q, i);
    }
    PlacedRouted(s, c);
    MineNone(s.queues[NextQueue(s)], c);
    forall j | 0 <= j < |s.slots| ensures View(s', j) == View(s, j) {
      assert MyWriters(s', j) == MyWriters(s, j);
    }
  }

  lemma PlacedRouted(s: Sys, c: nat)
    requires Routed(s) && c < |s.slots| && View(s, c).prog == Halt
    requires forall q, i :: 0 <= q < |s.queues| && 0 <= i < |s.queues[q]| ==> s.queues[q][i].id != c
    ensures Routed(Placed(s, c))
  {
    assert s.workers[s.slots[c].eq].id == c ==> s.workers[s.slots[c].eq].prog == Halt;
  }

  // --- combinations ----------------------------------------------------

  /** Rpc `id` changes its memory and its program. */
  lemma ViewWork(s: Sys, t: nat, id: nat, r: Rpc, active: bool, worker: Worker)
    requires Routed(s) && id < |s.slots| && t == s.slots[id].eq && worker.id == id
    requires (worker.pinned ==> worker.prog.Then?) && worker.kept == s.workers[t].kept
    requires s.workers[t].prog == Halt || s.workers[t].id == id
    ensures var s' := SetWorker(SetSlot(s, id, r, active), t, worker);
      && Routed(s') && |s'.slots| == |s.slots|
      && View(s', id) == View(s, id).(rpc := r, active := active, prog := worker.prog, pinned := worker.pinned)
      && (forall j {:trigger View(s', j)} :: 0 <= j < |s.slots| && j != id ==> View(s', j) == View(s, j))
  {
    ViewSetSlot(s, id, r, active);
    ViewSetWorker(SetSlot(s, id, r, active), t, worker);
  }

  /** Rpc `id` changes its memory and gets an entry on its completion queue. */
  lemma ViewPost(s: Sys, id: nat, r: Rpc, x: Completion)
    requires Routed(s) && id < |s.slots|
    ensures var s' := PushCq(SetRpc(s, id, r), id, x);
      && Routed(s') && |s'.slots| == |s.slots|
      && View(s', id) == View(s, id).(rpc := r, cq := View(s, id).cq + [x])
      && (forall j {:trigger View(s', j)} :: 0 <= j < |s.slots| && j != id ==> View(s', j) == View(s, j))
  {
    ViewSetSlot(s, id, r, s.slots[id].active);
    ViewPushCq(SetRpc(s, id, r), id, x);
  }

  /** A worker takes the head of its queue. */
  lemma ViewTake(s: Sys, t: nat, r: Rpc, worker: Worker)
    requires Routed(s) && t < |s.queues| && s.queues[t] != [] && s.workers[t].prog == Halt
    requires worker.id == s.queues[t][0].id && (worker.pinned ==> worker.prog.Then?)
    requires worker.kept == s.workers[t].kept
    ensures var s', id := SetWorker(SetRpc(Pop(s, t), worker.id, r), t, worker), worker.id;
      && Routed(s') && |s'.slots| == |s.slots|
      && View(s, id).prog == Halt && View(s, id).queue != [] && View(s, id).queue[0] == s.queues[t][0].value
      && View(s', id) ==
           View(s, id).(rpc := r, prog := worker.prog, pinned := worker.pinned, queue := View(s, id).queue[1..])
      && (forall j {:trigger View(s', j)} :: 0 <= j < |s.slots| && j != id ==> View(s', j) == View(s, j))
  {
    ViewPop(s, t);
    ViewWork(Pop(s, t), t, worker.id, r, s.slots[worker.id].active, worker);
  }

  /** An entry leaves its completion queue ... */
  lemma ViewDrop(s: Sys, q: nat, r: Rpc)
    requires Routed(s) && q < |s.cqs| && s.cqs[q] != []
    ensures var s', id := SetRpc(PopCq(s, q), s.cqs[q][0].id, r), s.cqs[q][0].id;
      && Routed(s') && |s'.slots| == |s.slots|
      && View(s, id).cq != [] && View(s, id).cq[0] == s.cqs[q][0].value
      && View(s', id) == View(s, id).(rpc := r, cq := View(s, id).cq[1..])
      && (forall j {:trigger View(s', j)} :: 0 <= j < |s.slots| && j != id ==> View(s', j) == View(s, j))
  {
    ViewPopCq(s, q);
    ViewSetSlot(PopCq(s, q), s.cqs[q][0].id, r, s.slots[s.cqs[q][0].id].active);
  }

  /** ... and moves to its event queue. */
  lemma ViewTransfer(s: Sys, q: nat, r: Rpc, e: Event)
    requires Routed(s) && q < |s.cqs| && s.cqs[q] != []
    ensures var s', id := Push(SetRpc(PopCq(s, q), s.cqs[q][0].id, r), s.cqs[q][0].id, e), s.cqs[q][0].id;
      && Routed(s') && |s'.slots| == |s.slots|
      && View(s, id).cq != [] && View(s, id).cq[0] == s.cqs[q][0].value
      && View(s', id) == View(s, id).(rpc := r, cq := View(s, id).cq[1..], queue := View(s, id).queue + [e])
      && (forall j {:trigger View(s', j)} :: 0 <= j < |s.slots| && j != id ==> View(s', j) == View(s, j))
  {
    ViewDrop(s, q, r);
    ViewPush(SetRpc(PopCq(s, q), s.cqs[q][0].id, r), s.cqs[q][0].id, e);
  }

  /** A Writer call gets on and changes the memory of its Rpc ... */
  lemma ViewWrite(s: Sys, w: nat, r: Rpc, pc: WriterPc)
    requires Routed(s) && w in s.writers
    ensures var id := s.writers[w].id; var s' := SetWriter(SetRpc(s, id, r), w, id, pc);
      && Routed(s') && |s'.slots| == |s.slots| && w in View(s, id).writers && View(s, id).writers[w] == s.writers[w].value
      && View(s', id) == View(s, id).(rpc := r, writers := View(s, id).writers[w := pc])
      && (forall j {:trigger View(s', j)} :: 0 <= j < |s.slots| && j != id ==> View(s', j) == View(s, j))
  {
    var id := s.writers[w].id;
    WriterOfView(s, w);
    ViewSetSlot(s, id, r, s.slots[id].active);
    ViewSetWriter(SetRpc(s, id, r), w, id, pc);
  }

  /** ... or announces what it has sent. */
  lemma ViewAnnounce(s: Sys, w: nat, pc: WriterPc, e: Event)
    requires Routed(s) && w in s.writers
    ensures var id := s.writers[w].id; var s' := Push(SetWriter(s, w, id, pc), id, e);
      && Routed(s') && |s'.slots| == |s.slots| && w in View(s, id).writers && View(s, id).writers[w] == s.writers[w].value
      && View(s', id) ==
           View(s, id).(queue := View(s, id).queue + [e], writers := View(s, id).writers[w := pc])
      && (forall j {:trigger View(s', j)} :: 0 <= j < |s.slots| && j != id ==> View(s', j) == View(s, j))
  {
    var id := s.writers[w].id;
    WriterOfView(s, w);
    ViewSetWriter(s, w, id, pc);
    ViewPush(SetWriter(s, w, id, pc), id, e);
  }
}
