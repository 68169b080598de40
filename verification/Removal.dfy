/** Exactly when taking an Rpc out of active_rpcs_ is safe. */
module Removal {
  import opened RpcCore
  import opened Connection
  import opened Lifetime
  import opened LifetimeProofs

  /** No continuation, whatever gRPC and the other threads do, ends in
      undefined behaviour or a failed check. */
  ghost predicate SafeFrom(c: Conn) {
    forall steps :: IsRun(c, steps) ==> Run(c, steps).rpc.faults == {}
  }

  /** After an admissible removal every run is admissible. */
  lemma {:induction false} RemovedStaysSafe(c: Conn, steps: seq<Step>)
    requires Inv(c) && !c.active && IsRun(c, steps)
    ensures Inv(Run(c, steps)) && !Run(c, steps).active
    decreases |steps|
  {
    if steps != [] {
      StepKeeps(c, steps[0]);
      StaysInactive(c, steps[0]);
      RemovedStaysSafe(Next(c, steps[0]), steps[1..]);
    }
  }

  lemma StaysInactive(c: Conn, s: Step)
    requires !c.active && Enabled(c, s)
    ensures !Next(c, s).active
  {}

  lemma Unsafe(c: Conn, steps: seq<Step>)
    requires IsRun(c, steps) && Run(c, steps).rpc.faults != {}
    ensures !SafeFrom(c)
  {}

  /** A thread that is inside a Writer call pushes its event for an Rpc that
      is no longer active. */
  lemma WriterStrands(c: Conn, w: nat)
    requires !c.active && w in c.writers && c.writers[w] != Pushed
    ensures !SafeFrom(c)
  {
    var c1 := if c.writers[w].Locked? then Next(c, WriterEnqueue(w)) else c;
    var c2 := Next(c1, WriterPush(w));
    assert WeakPtrCheck in c2.rpc.faults;
    if c.writers[w].Locked? {
      assert IsRun(c2, []);
      assert IsRun(c1, [WriterPush(w)]) && Run(c1, [WriterPush(w)]) == c2;
      var steps := [WriterEnqueue(w), WriterPush(w)];
      assert steps[1..] == [WriterPush(w)];
      Unsafe(c, steps);
    } else {
      assert IsRun(c2, []);
      Unsafe(c, [WriterPush(w)]);
    }
  }

  /** Even a Writer that has pushed keeps the Rpc alive long enough for a second
      thread to lock it. */
  lemma SecondWriterStrands(c: Conn, w: nat)
    requires !c.active && w in c.writers && c.rpc.handler
    ensures !SafeFrom(c)
  {
    if c.writers[w] != Pushed {
      WriterStrands(c, w);
    } else {
      var v := FreshWriter(c.writers.Keys);
      var s := WriterLock(v, SendItem(None, Status(0)));
      var c1 := Next(c, s);
      assert Alive(c) && v in c1.writers && c1.writers[v].Locked?;
      WriterStrands(c1, v);
      Prepend(c, s);
    }
  }

  lemma Prepend(c: Conn, s: Step)
    requires Enabled(c, s) && !SafeFrom(Next(c, s))
    ensures !SafeFrom(c)
  {
    var steps :| IsRun(Next(c, s), steps) && Run(Next(c, s), steps).rpc.faults != {};
    assert ([s] + steps)[1..] == steps;
    Unsafe(c, [s] + steps);
  }

  lemma {:induction false} FreshWriter(ws: set<nat>) returns (v: nat)
    ensures forall x :: x in ws ==> x < v
  {
    v := 0;
    if ws != {} {
      var y :| y in ws;
      v := FreshWriter(ws - {y});
      assert forall x :: x in ws ==> x == y || x in ws - {y};
      v := if y < v then v else y + 1;
    }
  }

  /** The tag of a DONE registration outlives a refused Rpc. */
  lemma RefusalStrandsDone(c: Conn)
    requires Inv(c) && Removing(c) && RefusesAcceptedCall(c)
    ensures !SafeFrom(Acted(c))
  {
    var c' := Acted(c);
    assert Refusing(c);
    TrackedEvent(c, Done);
    assert InFlight(c', Done) == 1;
    if c'.held {
      assert InFlight(Next(c', Drop), Done) == 1;
      FreedTooEarly(Next(c', Drop));
      Prepend(c', Drop);
    } else {
      FreedTooEarly(c');
    }
  }

  lemma FreedTooEarly(c: Conn)
    requires !Alive(c) && c.prog == Halt && InFlight(c, Done) == 1 && c.rpc.started
    ensures !SafeFrom(c)
  {
    if Done in c.rpc.tokens {
      var s := Complete(Done, true, 0);
      DeadForward(Next(c, s));
      Prepend(c, s);
    } else if c.cq != [] {
      DeadForward(c);
    } else {
      assert Done in multiset(c.queue);
      DeadBegin(c);
    }
  }

  lemma DeadForward(c: Conn)
    requires !Alive(c) && c.cq != []
    ensures !SafeFrom(c)
  {
    assert UseAfterFree in Next(c, Forward).rpc.faults;
    assert IsRun(Next(c, Forward), []);
    Unsafe(c, [Forward]);
  }

  /** Draining a dead Rpc's queue reaches the completion in it. */
  lemma {:induction false} DeadBegin(c: Conn)
    requires !Alive(c) && c.prog == Halt && Done in c.queue
    ensures !SafeFrom(c)
    decreases |c.queue|
  {
    var c' := Next(c, Begin);
    if c.queue[0] != WriteNeeded {
      assert UseAfterFree in c'.rpc.faults;
      assert IsRun(c', []);
      Unsafe(c, [Begin]);
    } else {
      DeadBegin(c');
      Prepend(c, Begin);
    }
  }

  /** An Rpc that was removed can be locked by a Writer as long as the thread that
      registered it holds it. */
  lemma HolderStrands(c: Conn)
    requires !c.active && c.held && c.rpc.handler
    ensures !SafeFrom(c)
  {
    var v := FreshWriter(c.writers.Keys);
    var s := WriterLock(v, SendItem(None, Status(0)));
    var c1 := Next(c, s);
    assert v in c1.writers && c1.writers[v].Locked?;
    WriterStrands(c1, v);
    Prepend(c, s);
  }

  /** Nor does it take a Writer: a WRITE_NEEDED that is still queued locks the Rpc,
      HandleSendQueue hands a tag of a removed Rpc to gRPC, and the tag outlives
      the last shared_ptr. */
  lemma StaleWriteStrands(c: Conn) returns (steps: seq<Step>)
    requires !c.active && c.held && c.writers == map[] && c.prog == Halt && c.cq == []
    requires c.queue != [] && c.queue[0] == WriteNeeded && c.rpc.sendQueue != []
    requires Write !in c.rpc.pending && Finish !in c.rpc.pending
    ensures IsRun(c, steps) && UseAfterFree in Run(c, steps).rpc.faults
    ensures forall i :: 0 <= i < |steps| ==> steps[i] in {Begin, Act, Drop, Forward} || steps[i].Complete?
  {
    var d, e := StaleSend(c);
    var rest := TagOutlives(d, e);
    steps := [Begin, Act, Act, Act] + rest;
    FourSteps(c, d, steps);
  }

  lemma TagOutlives(c: Conn, e: Event) returns (steps: seq<Step>)
    requires !c.active && !c.pinned && c.held && c.writers == map[] && c.cq == [] && e in c.rpc.tokens
    requires e in {Write, Finish}
    ensures IsRun(c, steps) && UseAfterFree in Run(c, steps).rpc.faults
    ensures steps == [Drop] + ([Complete(e, true, 0)] + [Forward])
  {
    var freed := Next(c, Drop);
    var done := Next(freed, Complete(e, true, 0));
    RunCons(done, Forward, []);
    assert [Forward] + [] == [Forward];
    RunCons(freed, Complete(e, true, 0), [Forward]);
    RunCons(c, Drop, [Complete(e, true, 0)] + [Forward]);
    steps := [Drop] + ([Complete(e, true, 0)] + [Forward]);
  }

  lemma StaleSend(c: Conn) returns (d: Conn, e: Event)
    requires !c.active && c.held && c.writers == map[] && c.prog == Halt && c.cq == []
    requires c.queue != [] && c.queue[0] == WriteNeeded && c.rpc.sendQueue != []
    requires Write !in c.rpc.pending && Finish !in c.rpc.pending
    ensures Enabled(c, Begin) && Begun(c).prog.Then? && Acted(Begun(c)).prog.Then?
    ensures Acted(Acted(Begun(c))).prog.Then? && d == Acted(Acted(Acted(Begun(c))))
    ensures !d.active && !d.pinned && d.held && d.writers == map[] && d.cq == [] && e in {Write, Finish} && e in d.rpc.tokens
  {
    e := SendQueueStarts(c.rpc);
    d := Acted(Acted(Acted(Begun(c))));
  }

  lemma FourSteps(c: Conn, d: Conn, steps: seq<Step>)
    requires |steps| >= 4 && steps[..4] == [Begin, Act, Act, Act]
    requires Enabled(c, Begin) && Begun(c).prog.Then? && Acted(Begun(c)).prog.Then?
    requires Acted(Acted(Begun(c))).prog.Then? && d == Acted(Acted(Acted(Begun(c)))) && IsRun(d, steps[4..])
    ensures IsRun(c, steps) && Run(c, steps) == Run(d, steps[4..])
  {
    RunCons(Acted(Acted(Begun(c))), Act, steps[4..]);
    RunCons(Acted(Begun(c)), Act, [Act] + steps[4..]);
    RunCons(Begun(c), Act, [Act] + ([Act] + steps[4..]));
    RunCons(c, Begin, [Act] + ([Act] + ([Act] + steps[4..])));
    assert steps == steps[..4] + steps[4..];
    assert steps == [Begin] + ([Act] + ([Act] + ([Act] + steps[4..])));
  }

  /** Removing an Rpc is safe for all continuations if and only if no Writer
      call is in progress, no accepted call is being refused, and the thread that
      registered it does not hold it beyond its service. */
  lemma RemovalSafeIff(c: Conn)
    requires Inv(c) && Removing(c)
    ensures SafeFrom(Acted(c)) <==> Admissible(c, Act)
  {
    if Admissible(c, Act) {
      StepKeeps(c, Act);
      forall steps | IsRun(Acted(c), steps) ensures Run(Acted(c), steps).rpc.faults == {} {
        RemovedStaysSafe(Acted(c), steps);
      }
    } else if RefusesAcceptedCall(c) {
      RefusalStrandsDone(c);
    } else if OutlivesService(c) {
      HolderStrands(Acted(c));
    } else {
      var w :| w in c.writers;
      WritersImplyHandler(c, w);
      SecondWriterStrands(Acted(c), w);
    }
  }
}
