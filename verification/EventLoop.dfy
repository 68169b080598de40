/** What the loop of an event thread does to the Rpcs that share its queue, on
    values: one event after the other, one turn of its Rpc for each. */
module EventLoop {
  import opened RpcCore
  import opened Sequences
  import opened Connection
  import opened Lifetime
  import opened LifetimeProofs
  import opened ConnectionTheorems
  import opened BigStep
  import opened Handling
  import opened Objects

  /** The next event is a call that gRPC accepted, and it is served. */
  predicate Accepts(c: Conn)
    requires c.queue != []
  {
    c.queue[0] == NewConnection && NewConnection in c.rpc.oks && !c.stopping
  }

  /** The event thread took its turn: it left `c'`, a reachable connection unless an
      accepted call was refused or the Rpc was removed while its registering
      thread held it, and created a new listener exactly if it served a call. */
  ghost predicate IsTurn(c: Conn, sends: seq<seq<SendItem>>, c': Conn, cloned: bool) {
    && Enabled(c, Begin) && c' == TurnOf(c, sends) && (cloned <==> Accepts(c))
    && (!RefusesNext(c) && LetGo(c') ==> Reachable(c'))
  }

  /** A stale WRITE_NEEDED is ignored. */
  lemma StaleBegin(c: Conn)
    requires Reachable(c) && Enabled(c, Begin) && !c.active
    ensures c.queue[0] == WriteNeeded && Reachable(Begun(c))
    ensures Begun(c) == c.(queue := c.queue[1..]) && forall sends :: TurnOf(c, sends) == Begun(c)
  {
    RetiredIsInert(c, Begin);
    ReachableFullInv(c);
    ReachableStep(c, Begin);
  }

  lemma ActiveBegin(c: Conn)
    requires Enabled(c, Begin) && c.active
    ensures Begun(c).prog != Halt && Begun(c).queue == c.queue[1..] && Begun(c).stopping == c.stopping
    ensures Begun(c).rpc == Dispatch(c.rpc, true, c.queue[0], c.stopping).rpc && Begun(c).rpc.kind == c.rpc.kind
    ensures c.queue[0] == WriteNeeded ==> Begun(c).rpc == c.rpc
    ensures Begun(c).cq == c.cq && Begun(c).writers == c.writers && Begun(c).held == c.held
  {}

  lemma HandledOks(r: Rpc, e: Event, ok: bool, stopping: bool, sends: seq<seq<SendItem>>)
    ensures HandledRpc(r, e, ok, stopping, sends).oks == r.oks
  {}

  /** What the connection makes of the event, in the objects' terms. */
  lemma Handles(c: Conn, sends: seq<seq<SendItem>>, c': Conn)
    requires Reachable(c) && Enabled(c, Begin) && c.active && c.writers == map[] && c' == TurnOf(c, sends)
    ensures Expected(Begun(c).rpc, c.queue[0])
    ensures IsTurn(c, sends, c', c.queue[0] == NewConnection && HeadOk(c) && !c.stopping)
    ensures c'.prog == Halt && c'.writers == map[] && c'.stopping == c.stopping && c'.cq == c.cq && c'.held == c.held
    ensures c'.rpc == HandledRpc(Begun(c).rpc, c.queue[0], HeadOk(c), c.stopping, sends) && c'.rpc.oks == c.rpc.oks
    ensures c'.active == StaysActive(c'.rpc, c.queue[0], HeadOk(c), c.stopping)
    ensures c'.queue == c.queue[1..] + Announcements(Sent(c.rpc.kind, c.queue[0], HeadOk(c), c.stopping, sends))
  {
    ActiveBegin(c);
    DispatchIsExpected(c);
    var steps := HandleEventIsRun(c, sends);
    HandledOks(Begun(c).rpc, c.queue[0], HeadOk(c), c.stopping, sends);
  }

  // ---------------------------------------------------------------------
  // One Rpc

  /** Several turns of the event thread for one Rpc. */
  function TurnsOf(c: Conn, script: seq<seq<seq<SendItem>>>): Conn
    decreases |script|
  {
    if script == [] then c
    else
      var before := TurnsOf(c, Init(script));
      if before.queue != [] then TurnOf(before, Last(script)) else before
  }

  lemma TurnsSnoc(c: Conn, script: seq<seq<seq<SendItem>>>, sends: seq<seq<SendItem>>)
    requires TurnsOf(c, script).queue != []
    ensures TurnsOf(c, script + [sends]) == TurnOf(TurnsOf(c, script), sends)
  {
    assert Init(script + [sends]) == script;
  }

  /** From `c` to `c'` exactly `events` were handled, the completions among them
      with the outcomes that were stored before. */
  predicate Took(c: Conn, c': Conn, events: seq<Event>) {
    && c'.rpc.oks == c.rpc.oks && c'.stopping == c.stopping
    && c'.rpc.handled == c.rpc.handled + Results(events, c.rpc.oks)
  }

  lemma TookMore(c: Conn, c': Conn, c'': Conn, events: seq<Event>, e: Event)
    requires Took(c, c', events) && Took(c', c'', [e])
    ensures Took(c, c'', events + [e])
  {
    ResultsAppend(events, e, c.rpc.oks);
    ResultsAppend([], e, c.rpc.oks);
    assert [] + [e] == [e];
  }

  lemma HandledKept(r: Rpc, e: Event, ok: bool, stopping: bool, sends: seq<seq<SendItem>>)
    ensures HandledRpc(r, e, ok, stopping, sends).handled == r.handled
  {}

  lemma DispatchHandles(r: Rpc, e: Event, stopping: bool)
    ensures Dispatch(r, true, e, stopping).rpc.handled == r.handled + Results([e], r.oks)
  {
    ResultsAppend([], e, r.oks);
    assert [] + [e] == [e];
  }

  /** One turn takes one event. */
  lemma TurnTakes(c: Conn, sends: seq<seq<SendItem>>)
    requires Reachable(c) && Enabled(c, Begin) && c.writers == map[]
    ensures Took(c, TurnOf(c, sends), [c.queue[0]])
  {
    if c.active { ActiveTurn(c, sends, TurnOf(c, sends)); } else { StaleTurnTakes(c, sends); }
  }

  lemma StaleTurnTakes(c: Conn, sends: seq<seq<SendItem>>)
    requires Reachable(c) && Enabled(c, Begin) && !c.active
    ensures Took(c, TurnOf(c, sends), [c.queue[0]])
  {
    StaleBegin(c);
    ResultsAppend([], WriteNeeded, c.rpc.oks);
    assert [] + [WriteNeeded] == [WriteNeeded];
  }

  lemma ActiveTurn(c: Conn, sends: seq<seq<SendItem>>, c': Conn)
    requires Reachable(c) && Enabled(c, Begin) && c.active && c.writers == map[] && c' == TurnOf(c, sends)
    ensures Took(c, c', [c.queue[0]])
  {
    ActiveBegin(c);
    Handles(c, sends, c');
    HandledKept(Begun(c).rpc, c.queue[0], HeadOk(c), c.stopping, sends);
    DispatchHandles(c.rpc, c.queue[0], c.stopping);
  }

  /** From `c` to `c'` the Rpc had its turns, in which `events` were handled. */
  predicate Followed(c: Conn, c': Conn, turns: seq<seq<seq<SendItem>>>, events: seq<Event>) {
    c' == TurnsOf(c, turns) && Took(c, c', events)
  }

  /** The Rpc waits for event `e`, and with these sends one turn takes just that. */
  predicate IsUp(c: Conn, e: Event, sends: seq<seq<SendItem>>) {
    c.queue != [] && c.queue[0] == e && Took(c, TurnOf(c, sends), [e])
  }

  lemma FollowedOn(c: Conn, c': Conn, turns: seq<seq<seq<SendItem>>>, events: seq<Event>, e: Event,
                   sends: seq<seq<SendItem>>)
    requires Followed(c, c', turns, events) && IsUp(c', e, sends)
    ensures Followed(c, TurnOf(c', sends), turns + [sends], events + [e])
  {
    TurnsSnoc(c, turns, sends);
    TookMore(c, c', TurnOf(c', sends), events, e);
  }

  // ---------------------------------------------------------------------
  // The Rpcs of a queue

  /** The replacement listener, if there is one. */
  function AsSet(clone: Option<RpcObject>): set<RpcObject> {
    if clone.Some? then {clone.value} else {}
  }

  /** A new listener joins the Rpcs of the queue. */
  function Joined(conns: map<RpcObject, Conn>, listener: Option<RpcObject>, kind: Kind): map<RpcObject, Conn> {
    if listener.Some? then conns[listener.value := Listener(kind, false, false, false)] else conns
  }

  /** The Rpcs of a queue, the queue, and active_rpcs_. */
  datatype LoopState = LoopState(conns: map<RpcObject, Conn>, items: seq<QueuedEvent>, rpcs: set<RpcObject>)

  /** A turn: the event that is taken, what its callbacks send, how many events they
      announce, the listener created if it is a call that is served, and that
      listener again if it comes to this queue. */
  datatype Turn = Turn(event: QueuedEvent, sends: seq<seq<SendItem>>, sent: nat, clone: Option<RpcObject>,
                       joined: Option<RpcObject>)

  /** The turn takes the head of the queue; a listener is created exactly if that is a
      call that is served. */
  predicate CanTurn(s: LoopState, turn: Turn) {
    && s.items != [] && turn.event == s.items[0] && turn.event.id in s.conns
    && IsUp(s.conns[turn.event.id], turn.event.value, turn.sends)
    && (turn.clone.Some? <==> Accepts(s.conns[turn.event.id]))
    && (turn.joined.Some? ==> turn.joined == turn.clone && Brings(s.conns, turn.event.id, turn.joined.value))
  }

  predicate Brings(conns: map<RpcObject, Conn>, rpc: RpcObject, listener: RpcObject) {
    rpc in conns && listener !in conns && listener.kind == conns[rpc].rpc.kind
  }

  function NextState(s: LoopState, turn: Turn): LoopState
    requires s.items != [] && turn.event.id in s.conns && s.conns[turn.event.id].queue != []
  {
    var rpc, c := turn.event.id, TurnOf(s.conns[turn.event.id], turn.sends);
    LoopState(Joined(s.conns[rpc := c], turn.joined, s.conns[rpc].rpc.kind),
          s.items[1..] + Announced(rpc, turn.sent),
          (if c.active then s.rpcs else s.rpcs - {rpc}) + AsSet(turn.clone))
  }

  predicate IsStep(s: LoopState, turn: Turn, s': LoopState) {
    CanTurn(s, turn) && s' == NextState(s, turn)
  }

  /** The turns of a loop and the states they lead through. */
  datatype Log = Log(turns: seq<Turn>, states: seq<LoopState>)

  predicate IsLoop(log: Log) {
    IsChain(IsStep, log.states, log.turns)
  }

  /** From `s` to `s'` in `n` turns, whose sends are given by the script; `only` says
      whether there is no other event queue for new listeners. */
  predicate IsLog(log: Log, script: seq<seq<seq<SendItem>>>, n: nat, only: bool, s: LoopState, s': LoopState) {
    && IsLoop(log) && log.states[0] == s && Last(log.states) == s'
    && |log.turns| == n <= |script| && SendsOf(log.turns) == script[..n] && (only ==> AllReplaced(log.turns))
  }

  function SendsOf(turns: seq<Turn>): seq<seq<seq<SendItem>>> {
    seq(|turns|, k requires 0 <= k < |turns| => turns[k].sends)
  }

  lemma LogBegins(script: seq<seq<seq<SendItem>>>, only: bool, s: LoopState)
    ensures IsLog(Log([], [s]), script, 0, only, s, s)
  {
    assert SendsOf([]) == script[..0];
  }

  lemma LogGoesOn(log: Log, script: seq<seq<seq<SendItem>>>, n: nat, only: bool, s: LoopState, s': LoopState, turn: Turn,
                  s'': LoopState)
    requires IsLog(log, script, n, only, s, s') && IsStep(s', turn, s'')
    requires n < |script| && turn.sends == script[n] && (only ==> turn.joined == turn.clone)
    ensures IsLog(Log(log.turns + [turn], log.states + [s'']), script, n + 1, only, s, s'')
  {
    ChainSnoc(IsStep, log.states, log.turns, turn, s'');
    assert SendsOf(log.turns + [turn]) == SendsOf(log.turns) + [turn.sends];
    assert script[..n + 1] == script[..n] + [script[n]];
  }

  function Shorter(log: Log): Log
    requires log.turns != [] && log.states != []
  {
    Log(Init(log.turns), Init(log.states))
  }

  lemma LoopInit(log: Log)
    requires IsLoop(log) && log.turns != []
    ensures IsLoop(Shorter(log)) && IsStep(Last(Shorter(log).states), Last(log.turns), Last(log.states))
    ensures log.turns == Shorter(log).turns + [Last(log.turns)] && Shorter(log).states[0] == log.states[0]
  {
    ChainInit(IsStep, log.states, log.turns);
  }

  // ---------------------------------------------------------------------
  // What the loop amounts to

  /** The events taken ... */
  function Taken(turns: seq<Turn>): seq<QueuedEvent> {
    seq(|turns|, k requires 0 <= k < |turns| => turns[k].event)
  }

  /** ... the sends of the Rpcs they belong to ... */
  function Scripted(turns: seq<Turn>): seq<Tagged<RpcObject, seq<seq<SendItem>>>> {
    seq(|turns|, k requires 0 <= k < |turns| => Tagged(turns[k].event.id, turns[k].sends))
  }

  /** ... and the events announced. */
  function AllAnnounced(turns: seq<Turn>): seq<QueuedEvent>
    decreases |turns|
  {
    if turns == [] then [] else AllAnnounced(Init(turns)) + Announced(Last(turns).event.id, Last(turns).sent)
  }

  /** Every Rpc had a turn for each of its events, with the sends of that event. */
  predicate AllFollowed(conns: map<RpcObject, Conn>, turns: seq<Turn>, conns': map<RpcObject, Conn>) {
    forall rpc :: rpc in conns ==>
      rpc in conns' && Followed(conns[rpc], conns'[rpc], Mine(Scripted(turns), rpc), Mine(Taken(turns), rpc))
  }

  /** The event is a call that gRPC accepted, and it is served. */
  predicate IsServedCall(conns: map<RpcObject, Conn>, x: QueuedEvent) {
    x.id in conns && x.value == NewConnection && NewConnection in conns[x.id].rpc.oks && !conns[x.id].stopping
  }

  /** A listener was created for each call that is served, and for nothing else. */
  predicate AllServed(conns: map<RpcObject, Conn>, turns: seq<Turn>) {
    forall k :: 0 <= k < |turns| ==> (turns[k].clone.Some? <==> IsServedCall(conns, turns[k].event))
  }

  /** The listeners created. */
  function Created(turns: seq<Turn>): set<RpcObject> {
    set k | 0 <= k < |turns| && turns[k].clone.Some? :: turns[k].clone.value
  }

  /** The other Rpcs of the queue are the listeners that came to it; they are still new. */
  predicate AllJoined(conns: map<RpcObject, Conn>, turns: seq<Turn>, conns': map<RpcObject, Conn>) {
    forall rpc :: rpc in conns' && rpc !in conns ==> IsNew(turns, rpc, conns'[rpc])
  }

  predicate IsNew(turns: seq<Turn>, rpc: RpcObject, c: Conn) {
    (exists k :: 0 <= k < |turns| && turns[k].joined == Some(rpc)) && c == Listener(rpc.kind, false, false, false)
  }

  /** All of these listeners came to the queue. */
  predicate AllReplaced(turns: seq<Turn>) {
    forall k :: 0 <= k < |turns| ==> turns[k].joined == turns[k].clone
  }

  lemma ScriptedAppend(turns: seq<Turn>, turn: Turn, rpc: RpcObject)
    ensures Mine(Scripted(turns + [turn]), rpc) ==
      Mine(Scripted(turns), rpc) + (if turn.event.id == rpc then [turn.sends] else [])
    ensures Mine(Taken(turns + [turn]), rpc) ==
      Mine(Taken(turns), rpc) + (if turn.event.id == rpc then [turn.event.value] else [])
  {
    assert Scripted(turns + [turn]) == Scripted(turns) + [Tagged(turn.event.id, turn.sends)];
    assert Taken(turns + [turn]) == Taken(turns) + [turn.event];
    MineAppend(Scripted(turns), Tagged(turn.event.id, turn.sends), rpc);
    MineAppend(Taken(turns), turn.event, rpc);
  }

  /** The Rpc of the next event, and the others. */
  lemma RpcFollowed(c: Conn, c': Conn, c'': Conn, turns: seq<Turn>, turn: Turn, rpc: RpcObject)
    requires Followed(c, c', Mine(Scripted(turns), rpc), Mine(Taken(turns), rpc))
    requires if rpc == turn.event.id then IsUp(c', turn.event.value, turn.sends) && c'' == TurnOf(c', turn.sends)
      else c'' == c'
    ensures Followed(c, c'', Mine(Scripted(turns + [turn]), rpc), Mine(Taken(turns + [turn]), rpc))
  {
    ScriptedAppend(turns, turn, rpc);
    var script, events := Mine(Scripted(turns), rpc), Mine(Taken(turns), rpc);
    if rpc == turn.event.id {
      FollowedOn(c, c', script, events, turn.event.value, turn.sends);
    } else {
      assert script + [] == script && events + [] == events;
    }
  }

  lemma AllFollowedOn(conns: map<RpcObject, Conn>, turns: seq<Turn>, s: LoopState, turn: Turn)
    requires AllFollowed(conns, turns, s.conns) && CanTurn(s, turn)
    ensures AllFollowed(conns, turns + [turn], NextState(s, turn).conns)
  {
    var conns' := NextState(s, turn).conns;
    forall rpc | rpc in conns
      ensures rpc in conns' &&
        Followed(conns[rpc], conns'[rpc], Mine(Scripted(turns + [turn]), rpc), Mine(Taken(turns + [turn]), rpc))
    {
      RpcFollowed(conns[rpc], s.conns[rpc], conns'[rpc], turns, turn, rpc);
    }
  }

  lemma InOrderOn(items: seq<QueuedEvent>, turns: seq<Turn>, items': seq<QueuedEvent>, turn: Turn)
    requires items + AllAnnounced(turns) == Taken(turns) + items' && items' != [] && items'[0] == turn.event
    ensures items + AllAnnounced(turns + [turn]) ==
      Taken(turns + [turn]) + (items'[1..] + Announced(turn.event.id, turn.sent))
  {
    var more := Announced(turn.event.id, turn.sent);
    assert Init(turns + [turn]) == turns && Taken(turns + [turn]) == Taken(turns) + [turn.event];
    assert items' == [turn.event] + items'[1..];
    assert items + (AllAnnounced(turns) + more) == (items + AllAnnounced(turns)) + more;
    assert (Taken(turns) + items') + more == Taken(turns) + [turn.event] + (items'[1..] + more);
  }

  lemma SameCall(conns: map<RpcObject, Conn>, turns: seq<Turn>, conns': map<RpcObject, Conn>, x: QueuedEvent)
    requires AllFollowed(conns, turns, conns') && x.id in conns
    requires x.id in conns' && conns'[x.id].queue != [] && conns'[x.id].queue[0] == x.value
    ensures Accepts(conns'[x.id]) <==> IsServedCall(conns, x)
  {
    assert Followed(conns[x.id], conns'[x.id], Mine(Scripted(turns), x.id), Mine(Taken(turns), x.id));
  }

  lemma IsNewStill(turns: seq<Turn>, turn: Turn, rpc: RpcObject, c: Conn)
    requires IsNew(turns, rpc, c) || (turn.joined == Some(rpc) && c == Listener(rpc.kind, false, false, false))
    ensures IsNew(turns + [turn], rpc, c)
  {
    var more := turns + [turn];
    if turn.joined == Some(rpc) {
      assert more[|turns|].joined == Some(rpc);
    } else {
      var k :| 0 <= k < |turns| && turns[k].joined == Some(rpc);
      assert more[k].joined == Some(rpc);
    }
  }

  lemma AllJoinedOn(conns: map<RpcObject, Conn>, turns: seq<Turn>, s: LoopState, turn: Turn)
    requires AllJoined(conns, turns, s.conns) && CanTurn(s, turn) && turn.event.id in conns
    ensures AllJoined(conns, turns + [turn], NextState(s, turn).conns)
  {
    var conns' := NextState(s, turn).conns;
    forall rpc | rpc in conns' && rpc !in conns ensures IsNew(turns + [turn], rpc, conns'[rpc]) {
      IsNewStill(turns, turn, rpc, conns'[rpc]);
    }
  }

  predicate Known(s: LoopState, s': LoopState) {
    forall i :: 0 <= i < |s'.items| ==> s'.items[i].id in s.conns
  }

  lemma KnownOn(s: LoopState, s': LoopState, turn: Turn)
    requires Known(s, s') && CanTurn(s', turn)
    ensures Known(s, NextState(s', turn))
  {}

  lemma {:induction false} LoopIsInOrder(log: Log)
    requires IsLoop(log) && Known(log.states[0], log.states[0])
    ensures log.states[0].items + AllAnnounced(log.turns) == Taken(log.turns) + Last(log.states).items
    ensures Known(log.states[0], Last(log.states))
    decreases |log.turns|
  {
    if log.turns == [] {
      assert log.states[0].items + [] == [] + log.states[0].items;
    } else {
      LoopInit(log);
      var before := Shorter(log);
      LoopIsInOrder(before);
      InOrderOn(log.states[0].items, before.turns, Last(before.states).items, Last(log.turns));
      KnownOn(log.states[0], Last(before.states), Last(log.turns));
    }
  }

  lemma {:induction false} LoopIsFollowed(log: Log)
    requires IsLoop(log)
    ensures AllFollowed(log.states[0].conns, log.turns, Last(log.states).conns)
    decreases |log.turns|
  {
    if log.turns == [] {
      NoTurns(log.states[0].conns);
    } else {
      LoopInit(log);
      var before := Shorter(log);
      LoopIsFollowed(before);
      AllFollowedOn(log.states[0].conns, before.turns, Last(before.states), Last(log.turns));
    }
  }

  lemma NoTurns(conns: map<RpcObject, Conn>)
    ensures AllFollowed(conns, [], conns)
  {
    assert Scripted([]) == [] && Taken([]) == [];
    forall rpc | rpc in conns ensures Followed(conns[rpc], conns[rpc], [], []) {
      assert Results([], conns[rpc].rpc.oks) == [];
    }
  }

  lemma {:induction false} LoopServes(log: Log)
    requires IsLoop(log) && Known(log.states[0], log.states[0])
    ensures AllServed(log.states[0].conns, log.turns)
    decreases |log.turns|
  {
    if log.turns != [] {
      LoopInit(log);
      var before := Shorter(log);
      LoopServes(before);
      LoopIsInOrder(before);
      LoopIsFollowed(before);
      ServedOrNot(log.states[0], before.turns, Last(before.states), Last(log.turns));
      ServedOn(log.states[0].conns, before.turns, Last(log.turns), log.turns);
    }
  }

  lemma ServedOn(conns: map<RpcObject, Conn>, turns: seq<Turn>, turn: Turn, turns': seq<Turn>)
    requires AllServed(conns, turns) && turns' == turns + [turn]
    requires turn.clone.Some? <==> IsServedCall(conns, turn.event)
    ensures AllServed(conns, turns')
  {}

  lemma ServedOrNot(s: LoopState, turns: seq<Turn>, s': LoopState, turn: Turn)
    requires Known(s, s') && AllFollowed(s.conns, turns, s'.conns) && CanTurn(s', turn)
    ensures turn.clone.Some? <==> IsServedCall(s.conns, turn.event)
  {
    SameCall(s.conns, turns, s'.conns, turn.event);
  }

  lemma {:induction false} LoopJoins(log: Log)
    requires IsLoop(log) && Known(log.states[0], log.states[0])
    ensures AllJoined(log.states[0].conns, log.turns, Last(log.states).conns)
    decreases |log.turns|
  {
    if log.turns != [] {
      LoopInit(log);
      var before := Shorter(log);
      LoopJoins(before);
      LoopIsInOrder(before);
      AllJoinedOn(log.states[0].conns, before.turns, Last(before.states), Last(log.turns));
    }
  }

  lemma {:induction false} LoopCreates(log: Log)
    requires IsLoop(log)
    ensures Last(log.states).rpcs <= log.states[0].rpcs + Created(log.turns)
    decreases |log.turns|
  {
    if log.turns != [] {
      LoopInit(log);
      LoopCreates(Shorter(log));
      CreatedOn(Shorter(log).turns, Last(log.turns));
    }
  }

  lemma CreatedOn(turns: seq<Turn>, turn: Turn)
    ensures Created(turns + [turn]) == Created(turns) + AsSet(turn.clone)
  {
    var turns' := turns + [turn];
    forall x | x in Created(turns) ensures x in Created(turns') {
      var k :| 0 <= k < |turns| && turns[k].clone == Some(x);
      assert turns'[k].clone == Some(x);
    }
    forall x | x in AsSet(turn.clone) ensures x in Created(turns') {
      assert turns'[|turns|].clone == Some(x);
    }
  }

  /** The events taken and those left are, in this order, the ones that were there
      and those announced since; each Rpc had its turns; a listener was created for
      each call that gRPC accepted, nothing else became active, and the listeners
      that came to the queue are still new. */
  predicate Looped(s: LoopState, turns: seq<Turn>, s': LoopState) {
    && s.items + AllAnnounced(turns) == Taken(turns) + s'.items
    && AllFollowed(s.conns, turns, s'.conns) && AllServed(s.conns, turns)
    && s'.rpcs <= s.rpcs + Created(turns) && AllJoined(s.conns, turns, s'.conns)
  }

  lemma LogIsLooped(log: Log, script: seq<seq<seq<SendItem>>>, n: nat, only: bool, s: LoopState, s': LoopState)
    requires IsLog(log, script, n, only, s, s') && Known(s, s)
    ensures |log.turns| == n <= |script| && SendsOf(log.turns) == script[..n] && (only ==> AllReplaced(log.turns))
    ensures Looped(s, log.turns, s')
  {
    LoopIsInOrder(log);
    LoopIsFollowed(log);
    LoopServes(log);
    LoopCreates(log);
    LoopJoins(log);
  }
}
