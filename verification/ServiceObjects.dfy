/** `Service` and `RpcHandler::Writer` over the objects of `Objects`. */
module ServiceObjects {
  import opened Arithmetic
  import opened RpcCore
  import opened Sequences
  import opened BigStep
  import opened Objects
  import opened System

  /** RpcHandler::Writer. */
  class Writer {
    const rpc: RpcObject              // weakly held

    constructor (rpc: RpcObject)
      ensures this.rpc == rpc
    {
      this.rpc := rpc;
    }

    /** Write, WritesDone and Finish differ only in the item. `alive` says whether
        some shared_ptr to the Rpc exists, so that the weak pointer can be locked;
        active_rpcs_ holds one, but others may do so longer. The call returns false
        and changes nothing exactly if there is none; if the Rpc is no longer
        active, announcing the item fails the check. */
    method Send(item: SendItem, alive: bool) returns (ok: bool)
      requires rpc.Valid() && (rpc in rpc.activeRpcs.rpcs ==> alive)
      modifies rpc, rpc.eventQueue
      ensures rpc.Valid() && rpc.eventQueue == old(rpc.eventQueue)
      ensures ok <==> alive
      ensures rpc.sendQueue == old(rpc.sendQueue) + (if alive then [item] else [])
      ensures rpc.model ==
        if !alive then old(rpc.model)
        else if rpc in rpc.activeRpcs.rpcs then EnqueueMessage(old(rpc.model), item)
        else Raise(EnqueueMessage(old(rpc.model), item), WeakPtrCheck)
      ensures rpc.eventQueue.items ==
        old(rpc.eventQueue.items) + (if rpc in rpc.activeRpcs.rpcs then [Tagged(rpc, WriteNeeded)] else [])
    {
      ok := alive;
      if ok { var announced := rpc.Send(item); }
    }
  }

  class Service {
    const activeRpcs: ActiveRpcs
    const selector: QueueSelector
    var shuttingDown: bool

    constructor (selector: QueueSelector)
      ensures this.selector == selector && !shuttingDown && fresh(activeRpcs) && activeRpcs.rpcs == {}
    {
      activeRpcs := new ActiveRpcs();
      this.selector := selector;
      shuttingDown := false;
    }

    method StopServing()
      modifies this
      ensures shuttingDown
    {
      shuttingDown := true;
    }

    /** The Rpc may be passed to the handlers. */
    ghost predicate Serves(rpc: RpcObject)
      reads rpc, activeRpcs
    {
      rpc.Valid() && rpc.activeRpcs == activeRpcs && rpc in activeRpcs.rpcs
    }

    /** A listener created in place of `origin`. */
    ghost predicate IsCloneOf(clone: RpcObject, origin: RpcObject)
      reads clone, selector
    {
      && clone.Valid() && clone.model == RequestNextMethodInvocation(Fresh(origin.kind))
      && clone.methodIndex == origin.methodIndex && clone.cq == origin.cq && clone.kind == origin.kind
      && clone.activeRpcs == activeRpcs
      && selector.Valid() && clone.eventQueue == selector.queues[selector.current]
    }

    method RemoveIfNotPending(rpc: RpcObject)
      requires Serves(rpc)
      modifies activeRpcs
      ensures activeRpcs.rpcs == if IsAnyEventPending(rpc.model) then old(activeRpcs.rpcs) else old(activeRpcs.rpcs) - {rpc}
    {
      var pending := rpc.IsAnyEventPending();
      if !pending { var found := activeRpcs.Remove(rpc); }
    }

    /** Rpc::Clone, SetEventQueue, ActiveRpcs::Add and RequestNextMethodInvocation.
        The "RPC already active" check cannot fail for a new object. */
    method AddListener(origin: RpcObject) returns (clone: RpcObject)
      requires origin.Valid() && origin.activeRpcs == activeRpcs && selector.Valid()
      modifies activeRpcs, selector
      ensures fresh(clone) && IsCloneOf(clone, origin)
      ensures selector.Valid() && selector.current == (old(selector.current) + 1) % |selector.queues|
      ensures activeRpcs.rpcs == old(activeRpcs.rpcs) + {clone}
    {
      clone := new RpcObject(origin.methodIndex, origin.cq, origin.eventQueue, origin.kind, activeRpcs);
      var queue := selector.Select();
      clone.SetEventQueue(queue);
      var added := activeRpcs.Add(clone);
      assert added;
      clone.RequestNextMethodInvocation();
    }

    method HandleNewConnection(rpc: RpcObject, ok: bool, sends: seq<seq<SendItem>>) returns (clone: Option<RpcObject>)
      requires Serves(rpc) && Expected(rpc.model, NewConnection) && selector.Valid()
      modifies rpc, rpc.eventQueue, activeRpcs, selector
      ensures rpc.Valid() && rpc.eventQueue == old(rpc.eventQueue)
      ensures rpc.model == HandledRpc(old(rpc.model), NewConnection, ok, shuttingDown, sends)
      ensures rpc.eventQueue.items ==
        old(rpc.eventQueue.items) + Announced(rpc, Sent(rpc.kind, NewConnection, ok, shuttingDown, sends))
      ensures clone.Some? <==> ok && !shuttingDown
      ensures clone.None? ==> activeRpcs.rpcs == old(activeRpcs.rpcs) - {rpc} && selector.current == old(selector.current)
      ensures clone.Some? ==> fresh(clone.value) && IsCloneOf(clone.value, rpc)
      ensures clone.Some? ==> activeRpcs.rpcs == old(activeRpcs.rpcs) + {clone.value}
      ensures clone.Some? ==> selector.current == (old(selector.current) + 1) % |selector.queues|
    {
      if shuttingDown {
        var found := activeRpcs.Remove(rpc);
        return None;
      }
      if !ok {
        var found := activeRpcs.Remove(rpc);
        rpc.model := Raise(rpc.model, UseAfterFree);  // cloning it now reads a freed object
        return None;
      }
      rpc.OnConnection(sends);
      var listener := AddListener(rpc);
      clone := Some(listener);
    }

    method HandleRead(rpc: RpcObject, ok: bool, sends: seq<seq<SendItem>>)
      requires Serves(rpc) && Expected(rpc.model, Read)
      modifies rpc, rpc.eventQueue, activeRpcs
      ensures rpc.Valid() && rpc.eventQueue == old(rpc.eventQueue)
      ensures rpc.model == HandledRpc(old(rpc.model), Read, ok, shuttingDown, sends)
      ensures rpc.eventQueue.items == old(rpc.eventQueue.items) + Announced(rpc, |Head(sends)|)
      ensures activeRpcs.rpcs ==
        if StaysActive(rpc.model, Read, ok, shuttingDown) then old(activeRpcs.rpcs) else old(activeRpcs.rpcs) - {rpc}
    {
      if ok {
        rpc.CallHandler(OnRequest(rpc.request), Head(sends));
        rpc.RequestStreamingReadIfNeeded(Tail(sends));
        return;
      }
      rpc.CallHandler(OnReadsDone, Head(sends));
      RemoveIfNotPending(rpc);
    }

    /** Both WRITE and WRITE_NEEDED. */
    method HandleWrite(rpc: RpcObject)
      requires Serves(rpc)
      modifies rpc, activeRpcs
      ensures rpc.Valid() && rpc.eventQueue == old(rpc.eventQueue)
      ensures rpc.model == HandleSendQueue(old(rpc.model))
      ensures activeRpcs.rpcs ==
        if IsAnyEventPending(rpc.model) then old(activeRpcs.rpcs) else old(activeRpcs.rpcs) - {rpc}
    {
      rpc.HandleSendQueue();
      RemoveIfNotPending(rpc);
    }

    method HandleFinish(rpc: RpcObject, sends: seq<seq<SendItem>>)
      requires Serves(rpc) && rpc.handler
      modifies rpc, rpc.eventQueue, activeRpcs
      ensures rpc.Valid() && rpc.eventQueue == old(rpc.eventQueue)
      ensures rpc.model == CalledBack(old(rpc.model), OnFinish, Head(sends))
      ensures rpc.eventQueue.items == old(rpc.eventQueue.items) + Announced(rpc, |Head(sends)|)
      ensures activeRpcs.rpcs ==
        if IsAnyEventPending(rpc.model) then old(activeRpcs.rpcs) else old(activeRpcs.rpcs) - {rpc}
    {
      rpc.CallHandler(OnFinish, Head(sends));
      RemoveIfNotPending(rpc);
    }

    method HandleOther(event: Event, rpc: RpcObject, ok: bool, sends: seq<seq<SendItem>>)
      requires Serves(rpc) && Expected(rpc.model, event) && event != NewConnection
      modifies rpc, rpc.eventQueue, activeRpcs
      ensures rpc.Valid() && rpc.eventQueue == old(rpc.eventQueue)
      ensures rpc.model == HandledRpc(old(rpc.model), event, ok, shuttingDown, sends)
      ensures rpc.eventQueue.items ==
        old(rpc.eventQueue.items) + Announced(rpc, Sent(rpc.kind, event, ok, shuttingDown, sends))
      ensures activeRpcs.rpcs ==
        if StaysActive(rpc.model, event, ok, shuttingDown) then old(activeRpcs.rpcs) else old(activeRpcs.rpcs) - {rpc}
    {
      match event {
        case Read => HandleRead(rpc, ok, sends);
        case WriteNeeded => HandleWrite(rpc);
        case Write => HandleWrite(rpc);
        case Finish => HandleFinish(rpc, sends);
        case Done => RemoveIfNotPending(rpc);
      }
    }

    /** Service::HandleEvent. Together with `HandledIsRun` and `RunProgramIsRun`
        the contract says: what the method does to the Rpc, to its event queue
        and to active_rpcs_ is a run of the Rpc's connection. */
    method HandleEvent(event: Event, rpc: RpcObject, ok: bool, sends: seq<seq<SendItem>>)
      returns (clone: Option<RpcObject>)
      requires Serves(rpc) && Expected(rpc.model, event) && selector.Valid()
      modifies rpc, rpc.eventQueue, activeRpcs, selector
      ensures rpc.Valid() && rpc.eventQueue == old(rpc.eventQueue)
      ensures rpc.model == HandledRpc(old(rpc.model), event, ok, shuttingDown, sends)
      ensures rpc.eventQueue.items ==
        old(rpc.eventQueue.items) + Announced(rpc, Sent(rpc.kind, event, ok, shuttingDown, sends))
      ensures clone.Some? <==> event == NewConnection && ok && !shuttingDown
      ensures clone.Some? ==> fresh(clone.value) && IsCloneOf(clone.value, rpc)
      ensures selector.current ==
        if clone.Some? then (old(selector.current) + 1) % |selector.queues| else old(selector.current)
      ensures activeRpcs.rpcs ==
        (if StaysActive(rpc.model, event, ok, shuttingDown) then old(activeRpcs.rpcs) else old(activeRpcs.rpcs) - {rpc})
        + (if clone.Some? then {clone.value} else {})
    {
      clone := None;
      if event == NewConnection {
        clone := HandleNewConnection(rpc, ok, sends);
      } else {
        HandleOther(event, rpc, ok, sends);
      }
    }

    /** One listener for a method on a completion queue. */
    ghost predicate Listens(rpc: RpcObject, kind: Kind, methodIndex: nat, cq: nat, queue: nat)
      reads rpc
    {
      && rpc.Valid() && rpc.model == RequestNextMethodInvocation(Fresh(kind))
      && rpc.methodIndex == methodIndex && rpc.cq == cq && rpc.activeRpcs == activeRpcs
      && queue < |selector.queues| && rpc.eventQueue == selector.queues[queue]
    }

    /** Where the selector stands after `k` selections, having started at `start`. */
    ghost function Position(start: nat, k: nat): nat
      requires selector.queues != []
    {
      (start + k) % |selector.queues|
    }

    lemma NextPosition(start: nat, k: nat, n: nat)
      requires selector.queues != []
      ensures Position(Position(start, k), n) == Position(start, k + n)
    {
      var i := start + k;
      assert start + (k + n) == i + n;
      ModAdd(i, n, |selector.queues|);
    }

    /** A listener for one method on each completion queue; `start` is the
        selector's position before the first was created. */
    ghost predicate Row(rpcs: seq<RpcObject>, kind: Kind, methodIndex: nat, start: nat)
      requires selector.queues != []
      reads rpcs
    {
      forall q :: 0 <= q < |rpcs| ==> Listens(rpcs[q], kind, methodIndex, q, Position(start, q + 1))
    }

    /** The inner loop of StartServing. */
    method ServeMethod(kind: Kind, methodIndex: nat, numCqs: nat) returns (created: seq<RpcObject>)
      requires selector.Valid()
      modifies activeRpcs, selector
      ensures selector.Valid() && |created| == numCqs && fresh(created)
      ensures Row(created, kind, methodIndex, old(selector.current))
      ensures selector.current == Position(old(selector.current), numCqs)
      ensures activeRpcs.rpcs == old(activeRpcs.rpcs) + set r | r in created
    {
      created := [];
      for q := 0 to numCqs
        invariant selector.Valid() && |created| == q && fresh(created)
        invariant Row(created, kind, methodIndex, old(selector.current))
        invariant selector.current == Position(old(selector.current), q)
        invariant activeRpcs.rpcs == old(activeRpcs.rpcs) + set r | r in created
      {
        var rpc := ServeOne(kind, methodIndex, q, old(selector.current));
        RowSnoc(created, rpc, kind, methodIndex, old(selector.current));
        created := created + [rpc];
      }
    }

    lemma RowSnoc(rpcs: seq<RpcObject>, rpc: RpcObject, kind: Kind, methodIndex: nat, start: nat)
      requires selector.queues != [] && Row(rpcs, kind, methodIndex, start)
      requires Listens(rpc, kind, methodIndex, |rpcs|, Position(start, |rpcs| + 1))
      ensures Row(rpcs + [rpc], kind, methodIndex, start)
      ensures (set r | r in rpcs + [rpc]) == (set r | r in rpcs) + {rpc}
    {}

    /** The body of the loop; `start` is where the selector stood at the row's beginning. */
    method ServeOne(kind: Kind, methodIndex: nat, cq: nat, ghost start: nat) returns (rpc: RpcObject)
      requires selector.Valid() && selector.current == Position(start, cq)
      modifies activeRpcs, selector
      ensures selector.Valid() && fresh(rpc)
      ensures Listens(rpc, kind, methodIndex, cq, Position(start, cq + 1))
      ensures selector.current == Position(start, cq + 1)
      ensures activeRpcs.rpcs == old(activeRpcs.rpcs) + {rpc}
    {
      NextPosition(start, cq, 1);
      var queue := selector.Select();
      rpc := Listen(kind, methodIndex, cq, queue);
    }

    /** Adds a new Rpc and registers it. */
    method Listen(kind: Kind, methodIndex: nat, cq: nat, queue: EventQueue) returns (rpc: RpcObject)
      modifies activeRpcs
      ensures fresh(rpc) && rpc.Valid() && rpc.model == RequestNextMethodInvocation(Fresh(kind))
      ensures rpc.methodIndex == methodIndex && rpc.cq == cq && rpc.eventQueue == queue && rpc.activeRpcs == activeRpcs
      ensures activeRpcs.rpcs == old(activeRpcs.rpcs) + {rpc}
    {
      rpc := new RpcObject(methodIndex, cq, queue, kind, activeRpcs);
      var added := activeRpcs.Add(rpc);
      assert added;
      rpc.RequestNextMethodInvocation();
    }

    /** All Rpcs of some rows. */
    ghost function Flat(rows: seq<seq<RpcObject>>): set<RpcObject> {
      set m, r | 0 <= m < |rows| && r in rows[m] :: r
    }

    ghost predicate IsRow(row: seq<RpcObject>, methods: seq<Method>, numCqs: nat, start: nat, m: nat)
      requires selector.queues != [] && m < |methods|
      reads row
    {
      |row| == numCqs && Row(row, methods[m].kind, m, Position(start, m * numCqs))
    }

    /** The body of the outer loop. */
    method ServeNext(methods: seq<Method>, numCqs: nat, m: nat, ghost start: nat) returns (row: seq<RpcObject>)
      requires selector.Valid() && m < |methods| && selector.current == Position(start, m * numCqs)
      modifies activeRpcs, selector
      ensures selector.Valid() && selector.current == Position(start, (m + 1) * numCqs)
      ensures fresh(row) && IsRow(row, methods, numCqs, start, m)
      ensures activeRpcs.rpcs == old(activeRpcs.rpcs) + set r | r in row
    {
      NextPosition(start, m * numCqs, numCqs);
      Distribute(m, 1, numCqs);
      row := ServeMethod(methods[m].kind, m, numCqs);
    }

    /** StartServing creates one row of listeners per method. */
    method StartServing(methods: seq<Method>, numCqs: nat) returns (created: seq<seq<RpcObject>>)
      requires selector.Valid()
      modifies activeRpcs, selector
      ensures selector.Valid() && selector.current == Position(old(selector.current), |methods| * numCqs)
      ensures |created| == |methods| && activeRpcs.rpcs == old(activeRpcs.rpcs) + Flat(created)
      ensures forall m :: 0 <= m < |methods| ==>
        fresh(created[m]) && IsRow(created[m], methods, numCqs, old(selector.current), m)
    {
      created := [];
      for m := 0 to |methods|
        invariant selector.Valid() && selector.current == Position(old(selector.current), m * numCqs)
        invariant |created| == m && activeRpcs.rpcs == old(activeRpcs.rpcs) + Flat(created)
        invariant forall k :: 0 <= k < m ==>
          fresh(created[k]) && IsRow(created[k], methods, numCqs, old(selector.current), k)
      {
        var row := ServeNext(methods, numCqs, m, old(selector.current));
        FlatSnoc(created, row);
        ghost var before := created;
        created := created + [row];
        assert forall k :: 0 <= k < m ==> created[k] == before[k];
        assert created[m] == row;
      }
    }

    lemma FlatSnoc(rows: seq<seq<RpcObject>>, row: seq<RpcObject>)
      ensures Flat(rows + [row]) == Flat(rows) + set r | r in row
    {
      var more := rows + [row];
      forall r | r in Flat(rows) ensures r in Flat(more) {
        var m :| 0 <= m < |rows| && r in rows[m];
        assert r in more[m];
      }
      assert more[|rows|] == row;
    }

    /** The Rpc is the i-th with which the server starts; the service's methods come
        after the `base` methods of services started before it. */
    ghost predicate IsStarted(rpc: RpcObject, methods: seq<Method>, numCqs: nat, base: nat, i: nat)
      requires selector.queues != []
      reads rpc
    {
      var slots := Started(methods, numCqs, |selector.queues|).slots;
      && i < |slots| && slots[i] == Slot(rpc.model, true, base + rpc.methodIndex, rpc.cq, slots[i].eq)
      && slots[i].eq < |selector.queues| && rpc.eventQueue == selector.queues[slots[i].eq]
    }

    /** Method by method and queue by queue, the Rpcs that StartServing creates for
        the service's own methods are those of `Started`. */
    lemma RowIsStarted(methods: seq<Method>, numCqs: nat, base: nat, own: seq<Method>, m: nat, row: seq<RpcObject>, q: nat)
      requires selector.queues != [] && base + |own| <= |methods| && own == methods[base..base + |own|] && m < |own|
      requires IsRow(row, own, numCqs, Position(0, base * numCqs), m) && q < numCqs && row[q] in activeRpcs.rpcs
      ensures IsStarted(row[q], methods, numCqs, base, (base + m) * numCqs + q)
    {
      StartedSlot(methods, numCqs, |selector.queues|, base + m, q);
      Distribute(base, m, numCqs);
      NextPosition(0, base * numCqs, m * numCqs);
      NextPosition(0, base * numCqs + m * numCqs, q + 1);
    }
  }
}
