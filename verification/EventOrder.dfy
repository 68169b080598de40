/** The event queues of a server on whole runs: every event that arrives is taken in
    its turn, by the thread of its queue, and a thread leaves only after it has
    taken all that arrived before. */
module EventOrder {
  import opened RpcCore
  import opened Sequences
  import opened System

  /** What the step puts in event queue `t`. */
  function Put(s: Sys, x: SysStep, t: nat): seq<Tagged<nat, Event>>
    requires SysEnabled(s, x)
  {
    match x
    case SForward(q) =>
      var e := s.cqs[q][0];
      if Live(s, e.id) && s.slots[e.id].eq == t then [Tagged(e.id, e.value.event)] else []
    case SAct(u) =>
      var id := s.workers[u].id;
      if s.workers[u].prog.action == PushWriteNeeded && s.slots[id].active && s.slots[id].eq == t
      then [Tagged(id, WriteNeeded)] else []
    case SWriterPush(w) =>
      var id := s.writers[w].id;
      if s.slots[id].active && s.slots[id].eq == t then [Tagged(id, WriteNeeded)] else []
    case _ => []
  }

  /** The event that the thread of queue `t` takes with this step. */
  function TakenBy(s: Sys, x: SysStep, t: nat): seq<Tagged<nat, Event>>
    requires SysEnabled(s, x)
  {
    if x == SBegin(t) then [s.queues[t][0]] else []
  }

  /** With the step, `k` was taken from `q` and `p` put there, which left `q'`. */
  predicate Moved<T(==)>(q: seq<T>, p: seq<T>, k: seq<T>, q': seq<T>) {
    q + p == k + q'
  }

  lemma QueueStep(s: Sys, x: SysStep, t: nat)
    requires SysEnabled(s, x) && t < |s.queues|
    ensures t < |SysNext(s, x).queues| && Moved(s.queues[t], Put(s, x, t), TakenBy(s, x, t), SysNext(s, x).queues[t])
  {
    match x
    case SForward(q) => ForwardQueueStep(s, q, t);
    case SBegin(u) => BeginQueueStep(s, u, t);
    case SAct(u) => ActQueueStep(s, u, t);
    case SWriterPush(w) => PushQueueStep(s, w, t);
    case _ => OtherQueueStep(s, x, t);
  }

  lemma ForwardQueueStep(s: Sys, q: nat, t: nat)
    requires SysEnabled(s, SForward(q)) && t < |s.queues|
    ensures |SForwarded(s, q).queues| == |s.queues|
    ensures Moved(s.queues[t], Put(s, SForward(q), t), [], SForwarded(s, q).queues[t])
  {}

  lemma BeginQueueStep(s: Sys, u: nat, t: nat)
    requires SysEnabled(s, SBegin(u)) && t < |s.queues|
    ensures |SBegun(s, u).queues| == |s.queues|
    ensures Moved(s.queues[t], [], TakenBy(s, SBegin(u), t), SBegun(s, u).queues[t])
  {
    if u == t { assert s.queues[t] == [s.queues[t][0]] + s.queues[t][1..]; }
  }

  lemma ActQueueStep(s: Sys, u: nat, t: nat)
    requires SysEnabled(s, SAct(u)) && t < |s.queues|
    ensures |SActed(s, u).queues| == |s.queues|
    ensures Moved(s.queues[t], Put(s, SAct(u), t), [], SActed(s, u).queues[t])
  {}

  lemma PushQueueStep(s: Sys, w: nat, t: nat)
    requires SysEnabled(s, SWriterPush(w)) && t < |s.queues|
    ensures |SWriterPushed(s, w).queues| == |s.queues|
    ensures Moved(s.queues[t], Put(s, SWriterPush(w), t), [], SWriterPushed(s, w).queues[t])
  {}

  lemma OtherQueueStep(s: Sys, x: SysStep, t: nat)
    requires SysEnabled(s, x) && t < |s.queues| && !x.SForward? && !x.SBegin? && !x.SAct? && !x.SWriterPush?
    ensures |SysNext(s, x).queues| == |s.queues| && Moved(s.queues[t], [], [], SysNext(s, x).queues[t])
  {
    if x.SHandlerSend? { SendQueueStep(s, x.t, x.item); }
    assert SysNext(s, x).queues == s.queues;
  }

  lemma SendQueueStep(s: Sys, u: nat, item: SendItem)
    requires SysEnabled(s, SHandlerSend(u, item))
    ensures SHandlerSent(s, u, item).queues == s.queues
  {}

  /** The same over a run. */
  function PutInto(s: Sys, steps: seq<SysStep>, t: nat): seq<Tagged<nat, Event>>
    requires IsSysRun(s, steps)
    decreases |steps|
  {
    if steps == [] then [] else Put(s, steps[0], t) + PutInto(SysNext(s, steps[0]), steps[1..], t)
  }

  function TakenFrom(s: Sys, steps: seq<SysStep>, t: nat): seq<Tagged<nat, Event>>
    requires IsSysRun(s, steps)
    decreases |steps|
  {
    if steps == [] then [] else TakenBy(s, steps[0], t) + TakenFrom(SysNext(s, steps[0]), steps[1..], t)
  }

  /** On every run of every server, the events a thread has taken and those still in
      its queue are, in this order, those that were there and those put there since. */
  lemma {:induction false} EventsInOrder(s: Sys, steps: seq<SysStep>, t: nat)
    requires IsSysRun(s, steps) && t < |s.queues|
    ensures t < |SysRun(s, steps).queues|
    ensures s.queues[t] + PutInto(s, steps, t) == TakenFrom(s, steps, t) + SysRun(s, steps).queues[t]
    decreases |steps|
  {
    if steps == [] {
      assert s.queues[t] + [] == [] + s.queues[t];
    } else {
      var s' := SysNext(s, steps[0]);
      QueueStep(s, steps[0], t);
      EventsInOrder(s', steps[1..], t);
      Regroup(s.queues[t], Put(s, steps[0], t), PutInto(s', steps[1..], t), TakenBy(s, steps[0], t), s'.queues[t],
              TakenFrom(s', steps[1..], t), SysRun(s', steps[1..]).queues[t]);
    }
  }

  lemma Regroup<T>(q: seq<T>, p: seq<T>, ps: seq<T>, k: seq<T>, q': seq<T>, ks: seq<T>, q'': seq<T>)
    requires q + p == k + q' && q' + ps == ks + q''
    ensures q + (p + ps) == (k + ks) + q''
  {
    assert q + (p + ps) == (q + p) + ps && (k + q') + ps == k + (q' + ps) && k + (ks + q'') == (k + ks) + q'';
  }

  /** A thread leaves its loop only during shutdown, between events, and when it has
      taken every event that was or has been put in its queue. */
  lemma LeavesDrained(s: Sys, steps: seq<SysStep>, x: SysStep, t: nat)
    requires IsSysRun(s, steps) && SysEnabled(SysRun(s, steps), x) && t < |s.queues|
    requires var m := SysRun(s, steps);
      t < |m.workers| && !m.workers[t].exited && t < |SysNext(m, x).workers| && SysNext(m, x).workers[t].exited
    ensures SysRun(s, steps).closing && SysRun(s, steps).workers[t].prog == Halt
    ensures TakenFrom(s, steps, t) == s.queues[t] + PutInto(s, steps, t)
  {
    EventsInOrder(s, steps, t);
    OnlyExits(SysRun(s, steps), x, t);
  }

  lemma OnlyExits(s: Sys, x: SysStep, t: nat)
    requires SysEnabled(s, x) && t < |s.workers| && t < |SysNext(s, x).workers|
    requires !s.workers[t].exited && SysNext(s, x).workers[t].exited
    ensures x == SExit(t) && s.closing && s.workers[t].prog == Halt && s.queues[t] == []
  {
    LeavingStep(s, x, t);
  }

  /** Only leaving changes who has left. */
  lemma LeavingStep(s: Sys, x: SysStep, t: nat)
    requires SysEnabled(s, x) && t < |s.workers|
    ensures t < |SysNext(s, x).workers|
    ensures SysNext(s, x).workers[t].exited <==> s.workers[t].exited || x == SExit(t)
  {
    match x
    case SForward(q) => ForwardKeepsThreads(s, q);
    case SBegin(u) => BeginKeepsExited(s, u, t);
    case SAct(u) => BeyondKeepsExited(s, u, Half(s, u), t);
    case SHandlerSend(u, item) => SendKeepsExited(s, u, item, t);
    case _ =>
  }

  lemma ForwardKeepsThreads(s: Sys, q: nat)
    requires SysEnabled(s, SForward(q))
    ensures SForwarded(s, q).workers == s.workers
  {}

  lemma BeginKeepsExited(s: Sys, u: nat, t: nat)
    requires SysEnabled(s, SBegin(u)) && t < |s.workers|
    ensures |SBegun(s, u).workers| == |s.workers| && SBegun(s, u).workers[t].exited == s.workers[t].exited
  {}

  lemma SendKeepsExited(s: Sys, u: nat, item: SendItem, t: nat)
    requires SysEnabled(s, SHandlerSend(u, item)) && t < |s.workers|
    ensures var s' := SHandlerSent(s, u, item); |s'.workers| == |s.workers| && s'.workers[t].exited == s.workers[t].exited
  {}

  lemma BeyondKeepsExited(s: Sys, u: nat, h: Sys, t: nat)
    requires SysEnabled(s, SAct(u)) && h == Half(s, u) && t < |s.workers|
    ensures |SActed(s, u).workers| == |s.workers| && SActed(s, u).workers[t].exited == s.workers[t].exited
  {
    HalfKeepsExited(s, u, t);
    assert SActed(s, u) == Beyond(s, u, h);
  }

  lemma HalfKeepsExited(s: Sys, u: nat, t: nat)
    requires Running(s, u) && t < |s.workers|
    ensures |Half(s, u).workers| == |s.workers| && Half(s, u).workers[t].exited == s.workers[t].exited
  {}

  lemma ExitedStays(s: Sys, x: SysStep, t: nat)
    requires SysEnabled(s, x) && t < |s.workers| && s.workers[t].exited
    ensures t < |SysNext(s, x).workers| && SysNext(s, x).workers[t].exited && TakenBy(s, x, t) == []
  {
    LeavingStep(s, x, t);
  }

  /** After that it takes nothing: what arrives later stays in the queue. */
  lemma {:induction false} NothingTakenLater(s: Sys, steps: seq<SysStep>, t: nat)
    requires IsSysRun(s, steps) && t < |s.queues| && t < |s.workers| && s.workers[t].exited
    ensures t < |SysRun(s, steps).queues| && SysRun(s, steps).queues[t] == s.queues[t] + PutInto(s, steps, t)
    decreases |steps|
  {
    EventsInOrder(s, steps, t);
    NothingTaken(s, steps, t);
  }

  lemma {:induction false} NothingTaken(s: Sys, steps: seq<SysStep>, t: nat)
    requires IsSysRun(s, steps) && t < |s.workers| && s.workers[t].exited
    ensures TakenFrom(s, steps, t) == []
    decreases |steps|
  {
    if steps != [] {
      ExitedStays(s, steps[0], t);
      NothingTaken(SysNext(s, steps[0]), steps[1..], t);
    }
  }
}
