/** The loop of an event thread over the objects, for an event queue shared by
    any number of Rpcs: what the code does in place stays within the reachable
    connections. */
module EventThreads {
  import opened RpcCore
  import opened Sequences
  import opened Connection
  import opened Lifetime
  import opened ConnectionTheorems
  import opened BigStep
  import opened Handling
  import opened EventLoop
  import opened Objects
  import opened ServiceObjects

  lemma {:induction false} MineAnnounced(sender: RpcObject, n: nat, rpc: RpcObject)
    ensures Mine(Announced(sender, n), rpc) == if rpc == sender then Announcements(n) else []
    decreases n
  {
    if n > 0 {
      MineAnnounced(sender, n - 1, rpc);
      assert Announced(sender, n)[1..] == Announced(sender, n - 1);
      assert [WriteNeeded] + Announcements(n - 1) == Announcements(n);
    }
  }

  /** Between events the Rpc object is what the connection says ... */
  ghost predicate Mirrors(service: Service, queue: EventQueue, rpc: RpcObject, c: Conn)
    reads service, rpc
  {
    && rpc.Valid() && rpc.activeRpcs == service.activeRpcs && rpc.eventQueue == queue && rpc.model == c.rpc
    && service.shuttingDown == c.stopping && c.cq == [] && c.prog == Halt && c.writers == map[]
  }

  /** ... and so are its share of the event queue and its place in active_rpcs_. */
  predicate Accounts(rpcs: set<RpcObject>, items: seq<QueuedEvent>, rpc: RpcObject, c: Conn) {
    (rpc in rpcs <==> c.active) && c.queue == Mine(items, rpc)
  }

  predicate AllAccount(rpcs: set<RpcObject>, items: seq<QueuedEvent>, conns: map<RpcObject, Conn>) {
    && (forall i :: 0 <= i < |items| ==> items[i].id in conns)
    && (forall rpc :: rpc in conns ==> Accounts(rpcs, items, rpc, conns[rpc]))
  }

  ghost predicate AllMirror(service: Service, queue: EventQueue, conns: map<RpcObject, Conn>)
    reads service, conns.Keys
  {
    forall rpc :: rpc in conns ==> Mirrors(service, queue, rpc, conns[rpc])
  }

  ghost predicate AllReachable(conns: map<RpcObject, Conn>) {
    forall rpc :: rpc in conns ==> Reachable(conns[rpc])
  }

  /** Every Rpc of the queue is a reachable connection. */
  ghost predicate Mirrored(service: Service, queue: EventQueue, conns: map<RpcObject, Conn>)
    reads service, service.activeRpcs, service.selector, queue, conns.Keys
  {
    && service.selector.Valid() && AllMirror(service, queue, conns) && AllReachable(conns)
    && AllAccount(service.activeRpcs.rpcs, queue.items, conns)
  }

  /** The first half of CompletionQueueRpcEvent::Handle. */
  method TakeOutcome(rpc: RpcObject, e: Event, ghost c: Conn) returns (ok: bool)
    requires rpc.Valid() && rpc.model == c.rpc && Enabled(c, Begin) && c.active && e == c.queue[0]
    modifies rpc
    ensures rpc.Valid() && rpc.eventQueue == old(rpc.eventQueue) && rpc.model == Begun(c).rpc && ok == HeadOk(c)
  {
    ActiveBegin(c);
    ok := true;
    if e != WriteNeeded { ok := rpc.TakeCompletion(e); }
  }

  /** A new listener of the service, on the queue that was selected for it. */
  ghost predicate IsListener(service: Service, rpc: RpcObject, kind: Kind)
    reads service, service.selector, rpc
  {
    && !service.shuttingDown && rpc.Valid() && rpc.activeRpcs == service.activeRpcs
    && rpc.model == RequestNextMethodInvocation(Fresh(kind))
    && service.selector.Valid() && rpc.eventQueue == service.selector.queues[service.selector.current]
  }

  /** The head of the queue was taken and handled: from `c`, `items` and `rpcs`
      to `c'`, `items'` and `rpcs'`, with `sent` announcements and maybe a new listener. */
  predicate Turned(rpc: RpcObject, c: Conn, c': Conn, items: seq<QueuedEvent>, items': seq<QueuedEvent>,
                   rpcs: set<RpcObject>, rpcs': set<RpcObject>, sent: nat, clone: Option<RpcObject>) {
    && c.queue != [] && c'.queue == c.queue[1..] + Announcements(sent)
    && items != [] && items' == items[1..] + Announced(rpc, sent)
    && rpcs' == (if c'.active then rpcs else rpcs - {rpc}) + AsSet(clone) && (c'.active ==> c.active)
    && c'.stopping == c.stopping && c'.rpc.oks == c.rpc.oks && c'.held == c.held
  }

  /** Service::HandleEvent, as far as the loop depends on it. */
  method HandleEvent(service: Service, rpc: RpcObject, e: Event, ok: bool, sends: seq<seq<SendItem>>)
    returns (clone: Option<RpcObject>)
    requires service.Serves(rpc) && Expected(rpc.model, e) && service.selector.Valid()
    modifies rpc, rpc.eventQueue, service.activeRpcs, service.selector
    ensures rpc.Valid() && rpc.eventQueue == old(rpc.eventQueue) && service.selector.Valid()
    ensures rpc.model == HandledRpc(old(rpc.model), e, ok, service.shuttingDown, sends)
    ensures rpc.eventQueue.items ==
      old(rpc.eventQueue.items) + Announced(rpc, Sent(rpc.kind, e, ok, service.shuttingDown, sends))
    ensures clone.Some? <==> e == NewConnection && ok && !service.shuttingDown
    ensures fresh(AsSet(clone)) && (clone.Some? ==> IsListener(service, clone.value, rpc.kind))
    ensures service.activeRpcs.rpcs ==
      (if StaysActive(rpc.model, e, ok, service.shuttingDown) then old(service.activeRpcs.rpcs)
       else old(service.activeRpcs.rpcs) - {rpc}) + AsSet(clone)
  {
    clone := service.HandleEvent(e, rpc, ok, sends);
  }

  /** The shares of a queue whose head was taken and to which `sent` events of
      the head's Rpc were added. */
  lemma SharesAfter(items: seq<QueuedEvent>, sent: nat, r: RpcObject)
    requires items != []
    ensures var rpc, items' := items[0].id, items[1..] + Announced(items[0].id, sent);
      if r == rpc then
        Mine(items, r) != [] && Mine(items, r)[0] == items[0].value &&
        Mine(items', r) == Mine(items, r)[1..] + Announcements(sent)
      else Mine(items', r) == Mine(items, r)
  {
    MineConcat(items[1..], Announced(items[0].id, sent), r);
    MineAnnounced(items[0].id, sent, r);
  }

  /** Handle of an event of an active Rpc; it was popped already from `items`. */
  method HandleActive(service: Service, queue: EventQueue, rpc: RpcObject, e: Event, sends: seq<seq<SendItem>>,
                      ghost c: Conn, ghost items: seq<QueuedEvent>)
    returns (clone: Option<RpcObject>, ghost c': Conn, ghost sent: nat)
    requires Mirrors(service, queue, rpc, c) && service.selector.Valid() && rpc in service.activeRpcs.rpcs
    requires Reachable(c) && Enabled(c, Begin) && c.active && e == c.queue[0] && items != [] && queue.items == items[1..]
    modifies rpc, queue, service.activeRpcs, service.selector
    ensures Mirrors(service, queue, rpc, c') && service.selector.Valid()
    ensures IsTurn(c, sends, c', clone.Some?)
    ensures fresh(AsSet(clone)) && (clone.Some? ==> IsListener(service, clone.value, c.rpc.kind))
    ensures Turned(rpc, c, c', items, queue.items, old(service.activeRpcs.rpcs), service.activeRpcs.rpcs, sent, clone)
  {
    c' := TurnOf(c, sends);
    Handles(c, sends, c');
    var ok := TakeOutcome(rpc, e, c);
    sent := Sent(c.rpc.kind, e, ok, c.stopping, sends);
    clone := HandleEvent(service, rpc, e, ok, sends);
  }

  lemma StaleTurn(rpc: RpcObject, c: Conn, sends: seq<seq<SendItem>>, items: seq<QueuedEvent>, rpcs: set<RpcObject>)
    requires Reachable(c) && Enabled(c, Begin) && !c.active && items != [] && rpc !in rpcs
    ensures c.queue[0] == WriteNeeded && Begun(c) == c.(queue := c.queue[1..])
    ensures IsTurn(c, sends, Begun(c), false)
    ensures Turned(rpc, c, Begun(c), items, items[1..], rpcs, rpcs, 0, None)
  {
    StaleBegin(c);
    assert items[1..] + Announced(rpc, 0) == items[1..] && c.queue[1..] + Announcements(0) == c.queue[1..];
  }

  /** Pops the head of the queue and handles it: InternalRpcEvent locks its weak
      pointer first, CompletionQueueRpcEvent clears its flag. */
  method HandleHead(service: Service, queue: EventQueue, rpc: RpcObject, sends: seq<seq<SendItem>>, ghost c: Conn)
    returns (clone: Option<RpcObject>, ghost c': Conn, ghost sent: nat)
    requires Mirrors(service, queue, rpc, c) && service.selector.Valid() && Reachable(c)
    requires queue.items != [] && queue.items[0].id == rpc && Accounts(service.activeRpcs.rpcs, queue.items, rpc, c)
    modifies rpc, queue, service.activeRpcs, service.selector
    ensures Mirrors(service, queue, rpc, c') && service.selector.Valid()
    ensures IsTurn(c, sends, c', clone.Some?)
    ensures fresh(AsSet(clone)) && (clone.Some? ==> IsListener(service, clone.value, c.rpc.kind))
    ensures Turned(rpc, c, c', old(queue.items), queue.items, old(service.activeRpcs.rpcs), service.activeRpcs.rpcs,
                   sent, clone)
  {
    ghost var items := queue.items;
    SharesAfter(items, 0, rpc);
    if !c.active { StaleTurn(rpc, c, sends, items, service.activeRpcs.rpcs); }
    var x := queue.Pop();
    assert queue.items == items[1..] && x == items[0];
    if x.value == WriteNeeded && rpc !in service.activeRpcs.rpcs {
      clone, c', sent := None, Begun(c), 0;
    } else {
      clone, c', sent := HandleActive(service, queue, rpc, x.value, sends, c, items);
    }
  }

  /** What that means for the Rpcs of the queue. */
  lemma AccountsAfter(conns: map<RpcObject, Conn>, rpc: RpcObject, c': Conn, items: seq<QueuedEvent>,
                      items': seq<QueuedEvent>, rpcs: set<RpcObject>, rpcs': set<RpcObject>, sent: nat,
                      clone: Option<RpcObject>)
    requires rpc in conns && items != [] && items[0].id == rpc && AllAccount(rpcs, items, conns)
    requires AsSet(clone) !! conns.Keys && Turned(rpc, conns[rpc], c', items, items', rpcs, rpcs', sent, clone)
    ensures AllAccount(rpcs', items', conns[rpc := c'])
  {
    forall r | r in conns ensures Accounts(rpcs', items', r, conns[rpc := c'][r]) {
      assert Accounts(rpcs, items, r, conns[r]);
      SharesAfter(items, sent, r);
    }
  }

  lemma JoinedAccounts(conns: map<RpcObject, Conn>, clone: RpcObject, kind: Kind, items: seq<QueuedEvent>,
                       rpcs: set<RpcObject>)
    requires AllAccount(rpcs, items, conns) && clone !in conns && clone in rpcs
    ensures AllAccount(rpcs, items, conns[clone := Listener(kind, false, false, false)])
  {
    MineNone(items, clone);
    var conns' := conns[clone := Listener(kind, false, false, false)];
    forall r | r in conns' ensures Accounts(rpcs, items, r, conns'[r]) {
      if r != clone { assert Accounts(rpcs, items, r, conns[r]); }
    }
  }

  /** One Rpc at a time. */
  lemma SplitOff(service: Service, queue: EventQueue, conns: map<RpcObject, Conn>, rpc: RpcObject)
    requires AllMirror(service, queue, conns) && rpc in conns
    ensures Mirrors(service, queue, rpc, conns[rpc]) && AllMirror(service, queue, conns - {rpc})
  {}

  lemma PutBack(service: Service, queue: EventQueue, conns: map<RpcObject, Conn>, rpc: RpcObject, c': Conn)
    requires AllMirror(service, queue, conns - {rpc}) && Mirrors(service, queue, rpc, c')
    ensures AllMirror(service, queue, conns[rpc := c'])
  {
    forall r | r in conns && r != rpc ensures Mirrors(service, queue, r, conns[r]) {
      assert r in conns - {rpc} && (conns - {rpc})[r] == conns[r];
    }
  }

  lemma AllReachableBut(conns: map<RpcObject, Conn>, rpc: RpcObject, c': Conn)
    requires AllReachable(conns) && Reachable(c')
    ensures AllReachable(conns[rpc := c'])
  {}

  lemma OneReachable(conns: map<RpcObject, Conn>, rpc: RpcObject)
    requires AllReachable(conns) && rpc in conns
    ensures Reachable(conns[rpc])
  {}

  lemma HeadShare(rpcs: set<RpcObject>, items: seq<QueuedEvent>, conns: map<RpcObject, Conn>)
    requires AllAccount(rpcs, items, conns) && items != []
    ensures items[0].id in conns && Accounts(rpcs, items, items[0].id, conns[items[0].id])
    ensures conns[items[0].id].queue != []
  {
    SharesAfter(items, 0, items[0].id);
  }

  /** HandleHead beside the other Rpcs of the queue. */
  method HandleAmong(service: Service, queue: EventQueue, rpc: RpcObject, sends: seq<seq<SendItem>>,
                     ghost conns: map<RpcObject, Conn>, ghost c: Conn)
    returns (clone: Option<RpcObject>, ghost c': Conn, ghost sent: nat)
    requires AllMirror(service, queue, conns) && service.selector.Valid() && rpc in conns && c == conns[rpc]
    requires Reachable(c) && queue.items != [] && queue.items[0].id == rpc
    requires Accounts(service.activeRpcs.rpcs, queue.items, rpc, c) && c.queue != []
    modifies rpc, queue, service.activeRpcs, service.selector
    ensures AllMirror(service, queue, conns[rpc := c']) && service.selector.Valid()
    ensures IsTurn(c, sends, c', clone.Some?)
    ensures fresh(AsSet(clone)) && (clone.Some? ==> IsListener(service, clone.value, c.rpc.kind))
    ensures Turned(rpc, c, c', old(queue.items), queue.items, old(service.activeRpcs.rpcs),
                   service.activeRpcs.rpcs, sent, clone)
  {
    SplitOff(service, queue, conns, rpc);
    clone, c', sent := HandleHead(service, queue, rpc, sends, c);
    PutBack(service, queue, conns, rpc, c');
  }

  lemma MirrorsMore(service: Service, queue: EventQueue, conns: map<RpcObject, Conn>, rpc: RpcObject, c: Conn)
    requires AllMirror(service, queue, conns) && Mirrors(service, queue, rpc, c)
    ensures AllMirror(service, queue, conns[rpc := c])
  {}

  /** The Rpcs of the queue are what `conns` says, reachable or not. */
  ghost predicate Matched(service: Service, queue: EventQueue, conns: map<RpcObject, Conn>)
    reads service, service.activeRpcs, service.selector, queue, conns.Keys
  {
    && service.selector.Valid() && AllMirror(service, queue, conns)
    && AllAccount(service.activeRpcs.rpcs, queue.items, conns)
  }

  lemma ListenerJoins(service: Service, queue: EventQueue, conns: map<RpcObject, Conn>, clone: RpcObject, kind: Kind)
    requires Matched(service, queue, conns) && clone !in conns && clone in service.activeRpcs.rpcs
    requires IsListener(service, clone, kind) && clone.eventQueue == queue
    ensures Matched(service, queue, conns[clone := Listener(kind, false, false, false)])
  {
    JoinedAccounts(conns, clone, kind, queue.items, service.activeRpcs.rpcs);
    MirrorsMore(service, queue, conns, clone, Listener(kind, false, false, false));
  }

  /** What handling the head of the queue does to the Rpcs it has so far. */
  method HandleOne(service: Service, queue: EventQueue, sends: seq<seq<SendItem>>, ghost conns: map<RpcObject, Conn>)
    returns (rpc: RpcObject, clone: Option<RpcObject>, ghost c': Conn, ghost sent: nat)
    requires Mirrored(service, queue, conns) && queue.items != []
    modifies conns.Keys, queue, service.activeRpcs, service.selector
    ensures rpc == old(queue.items[0].id) && rpc in conns && IsTurn(conns[rpc], sends, c', clone.Some?)
    ensures Turned(rpc, conns[rpc], c', old(queue.items), queue.items, old(service.activeRpcs.rpcs),
                   service.activeRpcs.rpcs, sent, clone)
    ensures fresh(AsSet(clone)) && (clone.Some? ==> IsListener(service, clone.value, conns[rpc].rpc.kind))
    ensures clone.Some? ==> clone.value !in conns && clone.value in service.activeRpcs.rpcs
    ensures Matched(service, queue, conns[rpc := c'])
  {
    rpc := queue.items[0].id;
    ghost var items, rpcs := queue.items, service.activeRpcs.rpcs;
    HeadShare(rpcs, items, conns);
    OneReachable(conns, rpc);
    clone, c', sent := HandleAmong(service, queue, rpc, sends, conns, conns[rpc]);
    assert AsSet(clone) !! conns.Keys;
    AccountsAfter(conns, rpc, c', items, queue.items, rpcs, service.activeRpcs.rpcs, sent, clone);
  }

  /** The Rpcs of the queue after `rpc` had its turn. */
  lemma NextRpcs(service: Service, queue: EventQueue, conns: map<RpcObject, Conn>, rpc: RpcObject, c': Conn,
                 joined: Option<RpcObject>, kind: Kind, conns': map<RpcObject, Conn>)
    requires Matched(service, queue, conns[rpc := c']) && AllReachable(conns)
    requires joined.Some? ==>
      && joined.value !in conns[rpc := c'] && joined.value in service.activeRpcs.rpcs
      && IsListener(service, joined.value, kind) && joined.value.eventQueue == queue
    requires conns' == Joined(conns[rpc := c'], joined, kind)
    ensures Matched(service, queue, conns') && (Reachable(c') ==> AllReachable(conns'))
  {
    if joined.Some? { ListenerJoins(service, queue, conns[rpc := c'], joined.value, kind); }
    if Reachable(c') { NextReachable(conns, rpc, c', joined, kind); }
  }

  lemma NextReachable(conns: map<RpcObject, Conn>, rpc: RpcObject, c': Conn, joined: Option<RpcObject>, kind: Kind)
    requires AllReachable(conns) && Reachable(c')
    ensures AllReachable(Joined(conns[rpc := c'], joined, kind))
  {
    AllReachableBut(conns, rpc, c');
    ListenerReachable(kind, false, false, false);
    if joined.Some? { AllReachableBut(conns[rpc := c'], joined.value, Listener(kind, false, false, false)); }
  }

  /** The loop body. It takes the head of the queue and adds what the handler
      announces; the Rpc the event belongs to is where one turn of its connection
      leads, a reachable connection unless an accepted call was refused or the Rpc
      was removed while its registering thread held it; the other Rpcs of the
      queue are left alone. A call that is served gets a replacement listener,
      which joins them if it was placed on this queue. */
  method HandleNext(service: Service, queue: EventQueue, sends: seq<seq<SendItem>>, ghost conns: map<RpcObject, Conn>)
    returns (rpc: RpcObject, clone: Option<RpcObject>, ghost c': Conn, ghost joined: Option<RpcObject>, ghost sent: nat,
             ghost conns': map<RpcObject, Conn>)
    requires Mirrored(service, queue, conns) && queue.items != []
    modifies conns.Keys, queue, service.activeRpcs, service.selector
    ensures rpc == old(queue.items[0].id) && rpc in conns && IsTurn(conns[rpc], sends, c', clone.Some?)
    ensures queue.items == old(queue.items)[1..] + Announced(rpc, sent)
    ensures Turned(rpc, conns[rpc], c', old(queue.items), queue.items, old(service.activeRpcs.rpcs),
                   service.activeRpcs.rpcs, sent, clone)
    ensures fresh(AsSet(clone)) && (clone.Some? ==> IsListener(service, clone.value, conns[rpc].rpc.kind))
    ensures joined == (if clone.Some? && clone.value.eventQueue == queue then clone else None)
    ensures conns' == Joined(conns[rpc := c'], joined, conns[rpc].rpc.kind)
    ensures Matched(service, queue, conns') && (Reachable(c') ==> AllReachable(conns'))
  {
    rpc, clone, c', sent := HandleOne(service, queue, sends, conns);
    joined := if clone.Some? && clone.value.eventQueue == queue then clone else None;
    conns' := Joined(conns[rpc := c'], joined, conns[rpc].rpc.kind);
    NextRpcs(service, queue, conns, rpc, c', joined, conns[rpc].rpc.kind, conns');
  }

  /** No call that gRPC accepted is waiting to be refused. */
  predicate NoRefusal(c: Conn) {
    c.stopping && NewConnection in c.queue ==> NewConnection !in c.rpc.oks
  }

  lemma TurnedFacts(rpc: RpcObject, c: Conn, c': Conn, items: seq<QueuedEvent>, items': seq<QueuedEvent>,
                    rpcs: set<RpcObject>, rpcs': set<RpcObject>, sent: nat, clone: Option<RpcObject>)
    requires Turned(rpc, c, c', items, items', rpcs, rpcs', sent, clone)
    ensures AsSet(clone) <= rpcs' <= rpcs + AsSet(clone) && c'.held == c.held
    ensures NoRefusal(c) ==> NoRefusal(c')
  {}

  /** Nothing stands in the way of removing the Rpcs, should it come to that. */
  predicate AllRemovable(conns: map<RpcObject, Conn>) {
    forall rpc :: rpc in conns ==> NoRefusal(conns[rpc]) && !conns[rpc].held
  }

  ghost predicate Sound(service: Service, queue: EventQueue, conns: map<RpcObject, Conn>)
    reads service, service.activeRpcs, service.selector, queue, conns.Keys
  {
    Mirrored(service, queue, conns) && AllRemovable(conns)
  }

  method TakeTurn(service: Service, queue: EventQueue, sends: seq<seq<SendItem>>, ghost conns: map<RpcObject, Conn>)
    returns (ghost conns': map<RpcObject, Conn>, ghost turn: Turn)
    requires Sound(service, queue, conns) && queue.items != []
    modifies conns.Keys, queue, service.activeRpcs, service.selector
    ensures Sound(service, queue, conns') && conns'.Keys == conns.Keys + AsSet(turn.joined) && fresh(AsSet(turn.joined))
    ensures IsStep(LoopState(conns, old(queue.items), old(service.activeRpcs.rpcs)), turn,
                   LoopState(conns', queue.items, service.activeRpcs.rpcs))
    ensures turn.sends == sends && (service.selector.queues == [queue] ==> turn.joined == turn.clone)
  {
    ghost var c', joined, sent, items, rpcs := *, *, *, queue.items, service.activeRpcs.rpcs;
    var rpc, clone;
    HeadIsUp(service, queue, conns, sends);
    rpc, clone, c', joined, sent, conns' := HandleNext(service, queue, sends, conns);
    turn := Turn(items[0], sends, sent, clone, joined);
    TurnIsStep(conns, c', turn, items, queue.items, rpcs, service.activeRpcs.rpcs);
    TurnedFacts(rpc, conns[rpc], c', items, queue.items, rpcs, service.activeRpcs.rpcs, sent, clone);
    StaysRemovable(conns, rpc, c', joined, conns[rpc].rpc.kind);
    if clone.Some? { OnlyQueue(service, queue, clone.value, conns[rpc].rpc.kind); }
  }

  lemma TurnIsStep(conns: map<RpcObject, Conn>, c': Conn, turn: Turn, items: seq<QueuedEvent>,
                   items': seq<QueuedEvent>, rpcs: set<RpcObject>, rpcs': set<RpcObject>)
    requires items != [] && turn.event == items[0] && turn.event.id in conns
    requires IsUp(conns[turn.event.id], turn.event.value, turn.sends)
    requires IsTurn(conns[turn.event.id], turn.sends, c', turn.clone.Some?)
    requires Turned(turn.event.id, conns[turn.event.id], c', items, items', rpcs, rpcs', turn.sent, turn.clone)
    requires turn.joined.Some? ==> turn.joined == turn.clone && Brings(conns, turn.event.id, turn.joined.value)
    ensures var conns' := Joined(conns[turn.event.id := c'], turn.joined, conns[turn.event.id].rpc.kind);
      IsStep(LoopState(conns, items, rpcs), turn, LoopState(conns', items', rpcs'))
  {}

  /** The Rpc the next event belongs to is waiting for it. */
  lemma HeadIsUp(service: Service, queue: EventQueue, conns: map<RpcObject, Conn>, sends: seq<seq<SendItem>>)
    requires Mirrored(service, queue, conns) && queue.items != []
    ensures queue.items[0].id in conns && IsUp(conns[queue.items[0].id], queue.items[0].value, sends)
  {
    var rpc := queue.items[0].id;
    HeadShare(service.activeRpcs.rpcs, queue.items, conns);
    SharesAfter(queue.items, 0, rpc);
    OneReachable(conns, rpc);
    SplitOff(service, queue, conns, rpc);
    TurnTakes(conns[rpc], sends);
  }

  lemma OnlyQueue(service: Service, queue: EventQueue, rpc: RpcObject, kind: Kind)
    requires IsListener(service, rpc, kind)
    ensures service.selector.queues == [queue] ==> rpc.eventQueue == queue
  {}

  lemma StaysRemovable(conns: map<RpcObject, Conn>, rpc: RpcObject, c': Conn, joined: Option<RpcObject>, kind: Kind)
    requires AllRemovable(conns) && rpc in conns
    ensures conns[rpc].queue != [] ==> !RefusesNext(conns[rpc])
    ensures NoRefusal(c') && !c'.held ==> AllRemovable(Joined(conns[rpc := c'], joined, kind))
    ensures Joined(conns[rpc := c'], joined, kind).Keys == conns.Keys + AsSet(joined)
  {}

  lemma AllFine(service: Service, queue: EventQueue, conns: map<RpcObject, Conn>)
    requires Mirrored(service, queue, conns)
    ensures forall rpc :: rpc in conns ==> rpc.model.faults == {}
  {
    forall rpc | rpc in conns ensures rpc.model.faults == {} {
      LifetimeSafety(conns[rpc]);
    }
  }

  /** One more turn of the loop. */
  method LoopOnce(service: Service, queue: EventQueue, script: seq<seq<seq<SendItem>>>, n: nat,
                  ghost conns: map<RpcObject, Conn>, ghost only: bool, ghost s: LoopState, ghost log: Log)
    returns (ghost conns': map<RpcObject, Conn>, ghost log': Log, ghost joined: Option<RpcObject>)
    requires Sound(service, queue, conns) && queue.items != []
    requires n < |script| && (only ==> service.selector.queues == [queue])
    requires IsLog(log, script, n, only, s, LoopState(conns, queue.items, service.activeRpcs.rpcs))
    modifies conns.Keys, queue, service.activeRpcs, service.selector
    ensures Sound(service, queue, conns') && conns'.Keys == conns.Keys + AsSet(joined) && fresh(AsSet(joined))
    ensures IsLog(log', script, n + 1, only, s, LoopState(conns', queue.items, service.activeRpcs.rpcs))
  {
    ghost var turn, before, after := *, LoopState(conns, queue.items, service.activeRpcs.rpcs), *;
    conns', turn := TakeTurn(service, queue, script[n], conns);
    after := LoopState(conns', queue.items, service.activeRpcs.rpcs);
    LogGoesOn(log, script, n, only, s, before, turn, after);
    joined, log' := turn.joined, Log(log.turns + [turn], log.states + [after]);
  }

  /** The loop, turn by turn. */
  method RunTurns(service: Service, queue: EventQueue, script: seq<seq<seq<SendItem>>>,
                  ghost conns: map<RpcObject, Conn>, ghost only: bool)
    returns (handled: nat, ghost conns': map<RpcObject, Conn>, ghost log: Log)
    requires Sound(service, queue, conns) && (only ==> service.selector.queues == [queue])
    modifies conns.Keys, queue, service.activeRpcs, service.selector
    ensures conns.Keys <= conns'.Keys && fresh(conns'.Keys - conns.Keys) && Sound(service, queue, conns')
    ensures IsLog(log, script, handled, only, LoopState(conns, old(queue.items), old(service.activeRpcs.rpcs)),
                  LoopState(conns', queue.items, service.activeRpcs.rpcs))
    ensures queue.items == [] || handled == |script|
  {
    ghost var s, joined := LoopState(conns, queue.items, service.activeRpcs.rpcs), None;
    handled, conns', log := 0, conns, Log([], [s]);
    LogBegins(script, only, s);
    while handled < |script| && queue.items != []
      invariant handled <= |script| && Sound(service, queue, conns')
      invariant conns.Keys <= conns'.Keys && fresh(conns'.Keys - conns.Keys)
      invariant IsLog(log, script, handled, only, s, LoopState(conns', queue.items, service.activeRpcs.rpcs))
    {
      conns', log, joined := LoopOnce(service, queue, script, handled, conns', only, s, log);
      handled := handled + 1;
    }
  }

  /** RunEventQueue: it ends when the queue is empty or after |script| events; the
      callbacks of the k-th event send script[k]. Exactly `handled` events are
      taken, in the order of the queue. Each Rpc ends up where one turn per event
      of its own leads, its completions having been handled in order with the
      outcomes that were stored, and it is a reachable connection without a
      fault. So are the listeners that the loop creates on this queue, one for each
      call served if there is a single event queue, in which case these and the
      ones that were there are all the Rpcs of the service. */
  method RunEventQueue(service: Service, queue: EventQueue, script: seq<seq<seq<SendItem>>>,
                       ghost conns: map<RpcObject, Conn>)
    returns (handled: nat, ghost conns': map<RpcObject, Conn>, ghost turns: seq<Turn>)
    requires Sound(service, queue, conns)
    modifies conns.Keys, queue, service.activeRpcs, service.selector
    ensures handled == |turns| <= |script| && (queue.items == [] || handled == |script|)
    ensures SendsOf(turns) == script[..handled]
    ensures Looped(LoopState(conns, old(queue.items), old(service.activeRpcs.rpcs)), turns,
                   LoopState(conns', queue.items, service.activeRpcs.rpcs))
    ensures conns.Keys <= conns'.Keys && fresh(conns'.Keys - conns.Keys) && Sound(service, queue, conns')
    ensures forall rpc :: rpc in conns' ==> rpc.model.faults == {}
    ensures service.selector.queues == [queue] ==> AllReplaced(turns)
  {
    ghost var log, only := *, service.selector.queues == [queue];
    handled, conns', log := RunTurns(service, queue, script, conns, only);
    turns := log.turns;
    LogIsLooped(log, script, handled, only, LoopState(conns, old(queue.items), old(service.activeRpcs.rpcs)),
                LoopState(conns', queue.items, service.activeRpcs.rpcs));
    AllFine(service, queue, conns');
  }

  // ---------------------------------------------------------------------
  // What happens to the queue meanwhile

  /** Events of `rpc` arrive at the end of the queue. */
  lemma SharesGrow(items: seq<QueuedEvent>, rpc: RpcObject, e: Event, r: RpcObject)
    ensures Mine(items + [Tagged(rpc, e)], r) == Mine(items, r) + (if r == rpc then [e] else [])
  {
    MineConcat(items, [Tagged(rpc, e)], r);
  }

  lemma AccountsGrown(rpcs: set<RpcObject>, items: seq<QueuedEvent>, conns: map<RpcObject, Conn>, rpc: RpcObject,
                      c': Conn, e: Event)
    requires AllAccount(rpcs, items, conns) && rpc in conns
    requires c'.active == conns[rpc].active && c'.queue == conns[rpc].queue + [e]
    ensures AllAccount(rpcs, items + [Tagged(rpc, e)], conns[rpc := c'])
  {
    forall r | r in conns ensures Accounts(rpcs, items + [Tagged(rpc, e)], r, conns[rpc := c'][r]) {
      assert Accounts(rpcs, items, r, conns[r]);
      SharesGrow(items, rpc, e, r);
    }
  }

  /** gRPC completes an operation and the completion queue's thread forwards it. */
  predicate HasArrived(c: Conn, e: Event, ok: bool, m: Message, c': Conn) {
    && c'.queue == c.queue + [e] && c'.active == c.active && c'.cq == []
    && c'.rpc == StoreOk(Post(c.rpc, e, ok, m), Completion(e, ok))
    && c'.prog == c.prog && c'.writers == c.writers && c'.stopping == c.stopping && c'.held == c.held
  }

  lemma Arrives(c: Conn, e: Event, ok: bool, m: Message)
    requires Reachable(c) && Enabled(c, Complete(e, ok, m)) && c.cq == []
    ensures var c' := Forwarded(Completed(c, e, ok, m)); Reachable(c') && e != WriteNeeded && HasArrived(c, e, ok, m, c')
  {
    ReachableFullInv(c);
    TokenIsActive(c, e);
    ArrivesOn(c, e, ok, m);
    ReachableStep(c, Complete(e, ok, m));
    ReachableStep(Completed(c, e, ok, m), Forward);
  }

  lemma ArrivesOn(c: Conn, e: Event, ok: bool, m: Message)
    requires c.active && c.cq == []
    ensures HasArrived(c, e, ok, m, Forwarded(Completed(c, e, ok, m)))
  {}

  lemma TokenIsActive(c: Conn, e: Event)
    requires Inv(c) && e in c.rpc.tokens
    ensures c.active && e != WriteNeeded
  {}

  /** What a completion or an announcement changes about the prospects of removal. */
  predicate Brought(c: Conn, c': Conn, e: Event, ok: bool) {
    && c'.stopping == c.stopping && c'.held == c.held && c'.queue == c.queue + [e]
    && (NewConnection in c'.rpc.oks ==> NewConnection in c.rpc.oks || (e == NewConnection && ok))
    && (e == NewConnection && !ok ==> NewConnection !in c'.rpc.oks)
  }

  lemma TakenBrings(c: Conn, e: Event, ok: bool, m: Message, c': Conn)
    requires HasArrived(c, e, ok, m, c')
    ensures Brought(c, c', e, ok)
  {}

  lemma BroughtRemovable(conns: map<RpcObject, Conn>, rpc: RpcObject, c': Conn, e: Event, ok: bool)
    requires AllRemovable(conns) && rpc in conns && Brought(conns[rpc], c', e, ok)
    requires !(e == NewConnection && ok && conns[rpc].stopping)
    ensures AllRemovable(conns[rpc := c'])
  {}

  /** What arrives at the Rpcs of the queue. */
  lemma Arrival(service: Service, queue: EventQueue, rpc: RpcObject, e: Event, ok: bool, m: Message,
                conns: map<RpcObject, Conn>) returns (c': Conn)
    requires Mirrored(service, queue, conns) && rpc in conns && Enabled(conns[rpc], Complete(e, ok, m))
    ensures c' == Forwarded(Completed(conns[rpc], e, ok, m)) && e != WriteNeeded && HasArrived(conns[rpc], e, ok, m, c')
    ensures AllReachable(conns[rpc := c'])
    ensures AllAccount(service.activeRpcs.rpcs, queue.items + [Tagged(rpc, e)], conns[rpc := c'])
    ensures AllRemovable(conns) && !(e == NewConnection && ok && conns[rpc].stopping) ==>
      AllRemovable(conns[rpc := c'])
  {
    c' := Forwarded(Completed(conns[rpc], e, ok, m));
    OneReachable(conns, rpc);
    SplitOff(service, queue, conns, rpc);
    Arrives(conns[rpc], e, ok, m);
    TakenBrings(conns[rpc], e, ok, m, c');
    AllReachableBut(conns, rpc, c');
    AccountsGrown(service.activeRpcs.rpcs, queue.items, conns, rpc, c', e);
    if AllRemovable(conns) && !(e == NewConnection && ok && conns[rpc].stopping) {
      BroughtRemovable(conns, rpc, c', e, ok);
    }
  }

  /** The Rpc object has the outcome of `e`, and the message if one came with it. */
  ghost predicate HasOutcome(rpc: RpcObject, e: Event, ok: bool, m: Message)
    reads rpc
  {
    && rpc.State(e).ok == ok
    && (ok && (e == Read || (e == NewConnection && !rpc.kind.StreamsRequests())) ==> rpc.request == m)
  }

  method DeliverOwn(service: Service, queue: EventQueue, rpc: RpcObject, e: Event, ok: bool, m: Message,
                    ghost c: Conn, ghost c': Conn)
    requires Mirrors(service, queue, rpc, c) && e != WriteNeeded && HasArrived(c, e, ok, m, c')
    modifies rpc, queue
    ensures Mirrors(service, queue, rpc, c') && HasOutcome(rpc, e, ok, m)
    ensures queue.items == old(queue.items) + [Tagged(rpc, e)]
  {
    rpc.Receive(e, ok, m);
    rpc.Complete(e, ok);
  }

  method DeliverAmong(service: Service, queue: EventQueue, rpc: RpcObject, e: Event, ok: bool, m: Message,
                      ghost conns: map<RpcObject, Conn>, ghost c': Conn)
    requires AllMirror(service, queue, conns) && rpc in conns && e != WriteNeeded && HasArrived(conns[rpc], e, ok, m, c')
    modifies rpc, queue
    ensures AllMirror(service, queue, conns[rpc := c']) && HasOutcome(rpc, e, ok, m)
    ensures queue.items == old(queue.items) + [Tagged(rpc, e)]
  {
    SplitOff(service, queue, conns, rpc);
    DeliverOwn(service, queue, rpc, e, ok, m, conns[rpc], c');
    PutBack(service, queue, conns, rpc, c');
  }

  /** A completion arrives while the loop is between events: it is queued last, and
      its outcome and message are in the Rpc. */
  method Deliver(service: Service, queue: EventQueue, rpc: RpcObject, e: Event, ok: bool, m: Message,
                 ghost conns: map<RpcObject, Conn>) returns (ghost c': Conn)
    requires Mirrored(service, queue, conns) && rpc in conns && Enabled(conns[rpc], Complete(e, ok, m))
    modifies rpc, queue
    ensures c' == Forwarded(Completed(conns[rpc], e, ok, m)) && HasOutcome(rpc, e, ok, m)
    ensures queue.items == old(queue.items) + [Tagged(rpc, e)]
    ensures Mirrored(service, queue, conns[rpc := c'])
    ensures AllRemovable(conns) && !(e == NewConnection && ok && conns[rpc].stopping) ==>
      AllRemovable(conns[rpc := c'])
  {
    c' := Arrival(service, queue, rpc, e, ok, m, conns);
    DeliverAmong(service, queue, rpc, e, ok, m, conns, c');
  }

  /** A whole Writer call between two events. */
  lemma WriterCall(c: Conn, item: SendItem)
    requires Reachable(c) && c.active && c.rpc.handler && c.writers == map[]
    ensures Reachable(c.(rpc := EnqueueMessage(c.rpc, item), queue := c.queue + [WriteNeeded]))
  {
    var c1 := c.(writers := map[0 := Locked(item)]);
    var c2 := c.(rpc := EnqueueMessage(c.rpc, item), writers := map[0 := Enqueued]);
    var c3 := c2.(queue := c.queue + [WriteNeeded], writers := map[0 := Pushed]);
    WriterSteps(c, item, c1, c2, c3);
    ReachableStep(c, WriterLock(0, item));
    ReachableStep(c1, WriterEnqueue(0));
    ReachableStep(c2, WriterPush(0));
    ReachableStep(c3, WriterReturn(0));
  }

  lemma WriterSteps(c: Conn, item: SendItem, c1: Conn, c2: Conn, c3: Conn)
    requires c.active && c.rpc.handler && c.writers == map[]
    requires c1 == c.(writers := map[0 := Locked(item)])
    requires c2 == c.(rpc := EnqueueMessage(c.rpc, item), writers := map[0 := Enqueued])
    requires c3 == c2.(queue := c.queue + [WriteNeeded], writers := map[0 := Pushed])
    ensures Next(c, WriterLock(0, item)) == c1 && Next(c1, WriterEnqueue(0)) == c2 && Next(c2, WriterPush(0)) == c3
    ensures Next(c3, WriterReturn(0)) == c.(rpc := EnqueueMessage(c.rpc, item), queue := c.queue + [WriteNeeded])
  {
    assert map[0 := Pushed] - {0} == map[];
  }

  /** A Writer passed on `item` and announced it, or found the Rpc gone. */
  predicate WriterSent(c: Conn, item: SendItem, ok: bool, c': Conn) {
    c' == if ok then c.(rpc := EnqueueMessage(c.rpc, item), queue := c.queue + [WriteNeeded]) else c
  }

  method SendOwn(service: Service, queue: EventQueue, writer: Writer, item: SendItem, ghost c: Conn)
    returns (ok: bool, ghost c': Conn)
    requires Mirrors(service, queue, writer.rpc, c) && Reachable(c) && c.rpc.handler
    requires writer.rpc in service.activeRpcs.rpcs <==> c.active
    modifies writer.rpc, queue
    ensures Mirrors(service, queue, writer.rpc, c') && Reachable(c') && c'.active == c.active && (ok <==> c.active)
    ensures WriterSent(c, item, ok, c') && writer.rpc.sendQueue == old(writer.rpc.sendQueue) + (if ok then [item] else [])
    ensures if ok then c'.queue == c.queue + [WriteNeeded] else c' == c
    ensures c'.stopping == c.stopping && c'.held == c.held && c'.rpc.oks == c.rpc.oks
    ensures queue.items == old(queue.items) + (if ok then [Tagged(writer.rpc, WriteNeeded)] else [])
  {
    c' := c;
    if c.active {
      WriterCall(c, item);
      c' := c.(rpc := EnqueueMessage(c.rpc, item), queue := c.queue + [WriteNeeded]);
    }
    ok := writer.Send(item, writer.rpc in service.activeRpcs.rpcs);
  }

  method SendAmong(service: Service, queue: EventQueue, writer: Writer, item: SendItem, ghost conns: map<RpcObject, Conn>)
    returns (ok: bool, ghost c': Conn)
    requires AllMirror(service, queue, conns) && writer.rpc in conns
    requires Reachable(conns[writer.rpc]) && conns[writer.rpc].rpc.handler
    requires writer.rpc in service.activeRpcs.rpcs <==> conns[writer.rpc].active
    modifies writer.rpc, queue
    ensures AllMirror(service, queue, conns[writer.rpc := c']) && Reachable(c') && (ok <==> conns[writer.rpc].active)
    ensures c'.active == conns[writer.rpc].active
    ensures if ok then c'.queue == conns[writer.rpc].queue + [WriteNeeded] else c' == conns[writer.rpc]
    ensures ok ==> Brought(conns[writer.rpc], c', WriteNeeded, true)
    ensures WriterSent(conns[writer.rpc], item, ok, c')
    ensures writer.rpc.sendQueue == old(writer.rpc.sendQueue) + (if ok then [item] else [])
    ensures queue.items == old(queue.items) + (if ok then [Tagged(writer.rpc, WriteNeeded)] else [])
  {
    SplitOff(service, queue, conns, writer.rpc);
    ok, c' := SendOwn(service, queue, writer, item, conns[writer.rpc]);
    PutBack(service, queue, conns, writer.rpc, c');
  }

  lemma AccountsSent(rpcs: set<RpcObject>, items: seq<QueuedEvent>, conns: map<RpcObject, Conn>, rpc: RpcObject,
                     c': Conn, ok: bool, items': seq<QueuedEvent>)
    requires AllAccount(rpcs, items, conns) && rpc in conns && c'.active == conns[rpc].active
    requires if ok then c'.queue == conns[rpc].queue + [WriteNeeded] else c' == conns[rpc]
    requires items' == items + (if ok then [Tagged(rpc, WriteNeeded)] else [])
    ensures AllAccount(rpcs, items', conns[rpc := c'])
  {
    if ok {
      AccountsGrown(rpcs, items, conns, rpc, c', WriteNeeded);
    } else {
      assert conns[rpc := c'] == conns && items' == items;
    }
  }

  /** Another thread sends through a Writer while the loop is between events: unless
      the Rpc is gone, the item is last in the send queue and announced. */
  method Send(service: Service, queue: EventQueue, writer: Writer, item: SendItem, ghost conns: map<RpcObject, Conn>)
    returns (ok: bool, ghost c': Conn)
    requires Mirrored(service, queue, conns) && writer.rpc in conns && conns[writer.rpc].rpc.handler
    modifies writer.rpc, queue
    ensures (ok <==> conns[writer.rpc].active) && WriterSent(conns[writer.rpc], item, ok, c')
    ensures writer.rpc.sendQueue == old(writer.rpc.sendQueue) + (if ok then [item] else [])
    ensures queue.items == old(queue.items) + (if ok then [Tagged(writer.rpc, WriteNeeded)] else [])
    ensures Mirrored(service, queue, conns[writer.rpc := c'])
    ensures AllRemovable(conns) ==> AllRemovable(conns[writer.rpc := c'])
  {
    OneReachable(conns, writer.rpc);
    assert Accounts(service.activeRpcs.rpcs, queue.items, writer.rpc, conns[writer.rpc]);
    ok, c' := SendAmong(service, queue, writer, item, conns);
    AllReachableBut(conns, writer.rpc, c');
    AccountsSent(service.activeRpcs.rpcs, old(queue.items), conns, writer.rpc, c', ok, queue.items);
    SentRemovable(conns, writer.rpc, c', ok);
  }

  lemma SentRemovable(conns: map<RpcObject, Conn>, rpc: RpcObject, c': Conn, ok: bool)
    requires rpc in conns && if ok then Brought(conns[rpc], c', WriteNeeded, true) else c' == conns[rpc]
    ensures AllRemovable(conns) ==> AllRemovable(conns[rpc := c'])
  {
    if AllRemovable(conns) && ok { BroughtRemovable(conns, rpc, c', WriteNeeded, true); }
  }
}
