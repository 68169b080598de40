/** The classes of rpc.cc and service.cc as they are written: objects whose
    methods update flags, queues and containers in place. Each method is proved
    against the functions of `RpcCore`, each event handler against the run of
    the corresponding connection program. */
module Objects {
  import opened RpcCore
  import opened Sequences
  import opened BigStep

  type QueuedEvent = Tagged<RpcObject, Event>

  /** An event queue: a BlockingQueue without capacity limit. */
  class EventQueue {
    var items: seq<QueuedEvent>

    constructor ()
      ensures items == []
    {
      items := [];
    }

    method Push(x: QueuedEvent)
      modifies this
      ensures items == old(items) + [x]
    {
      items := items + [x];
    }

    method Pop() returns (x: QueuedEvent)
      requires items != []
      modifies this
      ensures old(items) == [x] + items
    {
      x, items := items[0], items[1..];
    }
  }

  /** ActiveRpcs: the map from addresses to shared pointers. */
  class ActiveRpcs {
    var rpcs: set<RpcObject>

    constructor ()
      ensures rpcs == {}
    {
      rpcs := {};
    }

    /** Reports whether the "RPC already active" check passes. */
    method Add(rpc: RpcObject) returns (ok: bool)
      modifies this
      ensures ok <==> rpc !in old(rpcs)
      ensures rpcs == old(rpcs) + {rpc}
    {
      ok := rpc !in rpcs;
      rpcs := rpcs + {rpc};
    }

    method Remove(rpc: RpcObject) returns (found: bool)
      modifies this
      ensures found <==> rpc in old(rpcs)
      ensures rpcs == old(rpcs) - {rpc}
    {
      found := rpc in rpcs;
      if found { rpcs := rpcs - {rpc}; }
    }

    /** GetWeakPtr; None where the source's check fails. */
    method GetWeakPtr(rpc: RpcObject) returns (r: Option<RpcObject>)
      ensures r == if rpc in rpcs then Some(rpc) else None
    {
      if rpc in rpcs { r := Some(rpc); } else { r := None; }
    }
  }

  /** Server::SelectNextEventQueueRoundRobin and the state it owns. */
  class QueueSelector {
    const queues: seq<EventQueue>
    var current: nat

    ghost predicate Valid()
      reads this
    {
      current < |queues|
    }

    constructor (queues: seq<EventQueue>)
      requires queues != []
      ensures Valid() && this.queues == queues && current == 0
    {
      this.queues := queues;
      current := 0;
    }

    method Select() returns (q: EventQueue)
      requires Valid()
      modifies this
      ensures Valid() && current == (old(current) + 1) % |queues| && q == queues[current]
    {
      current := (current + 1) % |queues|;
      q := queues[current];
    }
  }

  /** `n` WRITE_NEEDED events for `rpc`. */
  function Announced(rpc: RpcObject, n: nat): seq<QueuedEvent> {
    seq(n, _ => Tagged(rpc, WriteNeeded))
  }

  /** The mutable part of a CompletionQueueRpcEvent. */
  datatype EventState = EventState(ok: bool, pending: bool)

  const IDLE := EventState(false, false)

  class RpcObject {
    const kind: Kind
    const methodIndex: nat
    const cq: nat
    const activeRpcs: ActiveRpcs        // what weak_ptr_factory_ refers to
    var eventQueue: EventQueue

    var newConnectionEvent: EventState
    var readEvent: EventState
    var writeEvent: EventState
    var finishEvent: EventState
    var doneEvent: EventState

    var handler: bool                   // handler_ is set
    var request: Message
    var response: Option<Message>
    var sendQueue: seq<SendItem>
    var callbacks: seq<Callback>        // calls made on handler_, in order

    ghost var model: Rpc                // the value this object represents

    /** GetRpcEvent. */
    function State(e: Event): EventState
      reads this
    {
      match e
      case NewConnection => newConnectionEvent
      case Read => readEvent
      case WriteNeeded => IDLE
      case Write => writeEvent
      case Finish => finishEvent
      case Done => doneEvent
    }

    ghost predicate Valid()
      reads this
    {
      && model.kind == kind
      && (forall e :: e in model.pending <==> State(e).pending)
      && (forall e :: e in model.oks <==> State(e).ok)
      && model.handler == handler && model.request == request
      && model.response == response && model.sendQueue == sendQueue && model.callbacks == callbacks
    }

    constructor (methodIndex: nat, cq: nat, queue: EventQueue, kind: Kind, activeRpcs: ActiveRpcs)
      ensures Valid() && model == Fresh(kind)
      ensures this.methodIndex == methodIndex && this.cq == cq && eventQueue == queue && this.activeRpcs == activeRpcs
      ensures this.kind == kind
    {
      this.kind := kind;
      this.methodIndex := methodIndex;
      this.cq := cq;
      this.activeRpcs := activeRpcs;
      eventQueue := queue;
      newConnectionEvent, readEvent, writeEvent, finishEvent, doneEvent := IDLE, IDLE, IDLE, IDLE, IDLE;
      handler := false;
      request := 0;
      response := None;
      sendQueue := [];
      callbacks := [];
      model := Fresh(kind);
    }

    method SetEventQueue(queue: EventQueue)
      requires Valid()
      modifies this`eventQueue
      ensures Valid() && eventQueue == queue
    {
      eventQueue := queue;
    }

    method SetState(e: Event, state: EventState)
      requires e != WriteNeeded
      modifies this
      ensures State(e) == state && forall x :: x != e ==> State(x) == old(State(x))
      ensures unchanged(this`eventQueue) && unchanged(this`handler) && unchanged(this`request)
      ensures unchanged(this`response) && unchanged(this`sendQueue) && unchanged(this`callbacks)
      ensures unchanged(this`model)
    {
      match e {
        case NewConnection => newConnectionEvent := state;
        case Read => readEvent := state;
        case Write => writeEvent := state;
        case Finish => finishEvent := state;
        case Done => doneEvent := state;
      }
    }

    /** SetRpcEventState(event, true) followed by handing the tag to gRPC. */
    method Start(e: Event)
      requires Valid() && e != WriteNeeded
      modifies this
      ensures Valid() && eventQueue == old(eventQueue)
      ensures State(e).pending && callbacks == old(callbacks) && sendQueue == old(sendQueue)
      ensures model == Issue(old(model), e)
    {
      SetState(e, State(e).(pending := true));
      model := Issue(model, e);
    }

    /** gRPC completes an operation; it stores a message it read in request_. */
    method Receive(e: Event, ok: bool, m: Message)
      requires Valid()
      modifies this
      ensures Valid() && eventQueue == old(eventQueue)
      ensures request ==
        if ok && (e == Read || (e == NewConnection && !kind.StreamsRequests())) then m else old(request)
      ensures model == Post(old(model), e, ok, m)
    {
      if ok && (e == Read || (e == NewConnection && !kind.StreamsRequests())) { request := m; }
      model := Post(model, e, ok, m);
    }

    /** What RunCompletionQueue does for one tag. */
    method Complete(e: Event, ok: bool)
      requires Valid() && e != WriteNeeded
      modifies this, eventQueue
      ensures Valid() && eventQueue == old(eventQueue)
      ensures State(e) == EventState(ok, old(State(e)).pending)
      ensures model == StoreOk(old(model), Completion(e, ok))
      ensures eventQueue.items == old(eventQueue.items) + [Tagged(this, e)]
    {
      SetState(e, State(e).(ok := ok));
      model := StoreOk(model, Completion(e, ok));
      eventQueue.Push(Tagged(this, e));
    }

    /** The first half of CompletionQueueRpcEvent::Handle. */
    method TakeCompletion(e: Event) returns (ok: bool)
      requires Valid() && e != WriteNeeded
      modifies this
      ensures Valid() && eventQueue == old(eventQueue)
      ensures State(e) == EventState(ok, false) && ok == old(State(e)).ok
      ensures ok <==> e in old(model).oks
      ensures forall stopping :: model == Dispatch(old(model), true, e, stopping).rpc
    {
      ok := State(e).ok;
      SetState(e, State(e).(pending := false));
      model := model.(pending := model.pending - {e}, handled := model.handled + [Completion(e, ok)]);
    }

    method RequestNextMethodInvocation()
      requires Valid()
      modifies this
      ensures Valid() && eventQueue == old(eventQueue)
      ensures model == RpcCore.RequestNextMethodInvocation(old(model))
    {
      Start(Done);
      Start(NewConnection);
    }

    method IsAnyEventPending() returns (b: bool)
      requires Valid()
      ensures b <==> State(Done).pending || State(Read).pending || State(Write).pending || State(Finish).pending
      ensures b <==> RpcCore.IsAnyEventPending(model)
    {
      b := doneEvent.pending || readEvent.pending || writeEvent.pending || finishEvent.pending;
    }

    method EnqueueMessage(item: SendItem)
      requires Valid()
      modifies this
      ensures Valid() && eventQueue == old(eventQueue)
      ensures sendQueue == old(sendQueue) + [item] && callbacks == old(callbacks)
      ensures model == RpcCore.EnqueueMessage(old(model), item)
    {
      sendQueue := sendQueue + [item];
      model := RpcCore.EnqueueMessage(model, item);
    }

    /** Rpc::Write and Rpc::Finish: enqueue, then announce. `ok` is false where
        the weak pointer factory's check fails. */
    method Send(item: SendItem) returns (ok: bool)
      requires Valid()
      modifies this, eventQueue
      ensures Valid() && eventQueue == old(eventQueue)
      ensures ok <==> this in activeRpcs.rpcs
      ensures sendQueue == old(sendQueue) + [item] && callbacks == old(callbacks)
      ensures var enqueued := RpcCore.EnqueueMessage(old(model), item);
        model == if ok then enqueued else Raise(enqueued, WeakPtrCheck)
      ensures eventQueue.items == old(eventQueue.items) + (if ok then [Tagged(this, WriteNeeded)] else [])
    {
      EnqueueMessage(item);
      var self := activeRpcs.GetWeakPtr(this);
      ok := self.Some?;
      if ok {
        eventQueue.Push(Tagged(this, WriteNeeded));
      } else {
        model := Raise(model, WeakPtrCheck);
      }
    }

    method PerformFinish(item: SendItem)
      requires Valid() && (kind.StreamsResponses() ==> item.msg.None?)
      modifies this
      ensures Valid() && eventQueue == old(eventQueue)
      ensures finishEvent.pending && response == if kind.StreamsResponses() then old(response) else item.msg
      ensures model == RpcCore.PerformFinish(old(model), item)
    {
      finishEvent := finishEvent.(pending := true);
      if !kind.StreamsResponses() { response := item.msg; }
      model := RpcCore.PerformFinish(model, item);
    }

    method PerformWrite(item: SendItem)
      requires Valid() && item.msg.Some? && kind.StreamsResponses()
      modifies this
      ensures Valid() && eventQueue == old(eventQueue)
      ensures writeEvent.pending && response == item.msg
      ensures model == RpcCore.PerformWrite(old(model), item)
    {
      writeEvent := writeEvent.(pending := true);
      response := item.msg;
      model := RpcCore.PerformWrite(model, item);
    }

    /** The preconditions of PerformWrite and PerformFinish, which are checks
        in the source, hold at both calls. */
    method HandleSendQueue()
      requires Valid()
      modifies this
      ensures Valid() && eventQueue == old(eventQueue)
      ensures if old(sendQueue == [] || writeEvent.pending || finishEvent.pending) then sendQueue == old(sendQueue)
        else old(sendQueue) == [old(sendQueue)[0]] + sendQueue && (writeEvent.pending || finishEvent.pending)
      ensures model == RpcCore.HandleSendQueue(old(model))
    {
      if sendQueue == [] || writeEvent.pending || finishEvent.pending { return; }
      ghost var before := model;
      var item := sendQueue[0];
      sendQueue := sendQueue[1..];
      model := model.(sendQueue := model.sendQueue[1..]);
      if item.msg.None? || kind == NormalRpc || kind == ClientStreaming {
        PerformFinish(item);
      } else {
        PerformWrite(item);
      }
      assert model == RpcCore.HandleSendQueue(before);
    }

    // -------------------------------------------------------------------
    // Handler callbacks. `items` are the Send and Finish calls the handler
    // makes before it returns.

    method SendItems(items: seq<SendItem>)
      requires Valid() && this in activeRpcs.rpcs
      modifies this, eventQueue
      ensures Valid() && eventQueue == old(eventQueue)
      ensures sendQueue == old(sendQueue) + items && callbacks == old(callbacks)
      ensures model == EnqueueAll(old(model), items)
      ensures eventQueue.items == old(eventQueue.items) + Announced(this, |items|)
    {
      for i := 0 to |items|
        invariant Valid() && eventQueue == old(eventQueue)
        invariant sendQueue == old(sendQueue) + items[..i] && callbacks == old(callbacks)
        invariant model == EnqueueAll(old(model), items[..i])
        invariant eventQueue.items == old(eventQueue.items) + Announced(this, i)
      {
        var ok := Send(items[i]);
        assert items[..i + 1] == items[..i] + [items[i]];
      }
      assert items[..|items|] == items;
    }

    /** OnRequest, OnReadsDone or OnFinish. */
    method CallHandler(callback: Callback, items: seq<SendItem>)
      requires Valid() && handler && this in activeRpcs.rpcs
      modifies this, eventQueue
      ensures Valid() && eventQueue == old(eventQueue)
      ensures callbacks == old(callbacks) + [callback] && sendQueue == old(sendQueue) + items
      ensures model == CalledBack(old(model), callback, items)
      ensures eventQueue.items == old(eventQueue.items) + Announced(this, |items|)
    {
      callbacks := callbacks + [callback];
      model := Invoke(model, callback);
      SendItems(items);
    }

    /** The handler was given the request and told that there are no more. */
    predicate ServedUnary(before: seq<Callback>, request: Message, queue: seq<SendItem>, sends: seq<seq<SendItem>>)
      reads this
    {
      callbacks == before + [OnRequest(request), OnReadsDone] && sendQueue == queue + Head(sends) + Head(Tail(sends))
    }

    method RequestStreamingReadIfNeeded(sends: seq<seq<SendItem>>)
      requires Valid() && handler && this in activeRpcs.rpcs
      modifies this, eventQueue
      ensures Valid() && eventQueue == old(eventQueue)
      ensures if kind.StreamsRequests() then readEvent.pending && unchanged(this`callbacks) && unchanged(this`sendQueue)
        else ServedUnary(old(callbacks), old(request), old(sendQueue), sends)
      ensures model == ReadOrCalledBack(old(model), sends)
      ensures eventQueue.items == old(eventQueue.items) + Announced(this, SentWhileReading(kind, sends))
    {
      match kind {
        case BidiStreaming => Start(Read);
        case ClientStreaming => Start(Read);
        case NormalRpc => ServeUnaryRequest(sends);
        case ServerStreaming => ServeUnaryRequest(sends);
      }
    }

    method ServeUnaryRequest(sends: seq<seq<SendItem>>)
      requires Valid() && handler && this in activeRpcs.rpcs && !kind.StreamsRequests()
      modifies this, eventQueue
      ensures Valid() && eventQueue == old(eventQueue)
      ensures ServedUnary(old(callbacks), old(request), old(sendQueue), sends)
      ensures model == ReadOrCalledBack(old(model), sends)
      ensures eventQueue.items == old(eventQueue.items) + Announced(this, SentWhileReading(kind, sends))
    {
      CallHandler(OnRequest(request), Head(sends));
      CallHandler(OnReadsDone, Head(Tail(sends)));
    }

    /** Instantiates the handler, whose factory may already send, and reads. */
    method OnConnection(sends: seq<seq<SendItem>>)
      requires Valid() && !handler && this in activeRpcs.rpcs
      modifies this, eventQueue
      ensures Valid() && eventQueue == old(eventQueue)
      ensures handler
      ensures if kind.StreamsRequests() then readEvent.pending && sendQueue == old(sendQueue) + Head(sends)
        else ServedUnary(old(callbacks), old(request), old(sendQueue) + Head(sends), Tail(sends))
      ensures model == ConnectedRpc(old(model), sends)
      ensures eventQueue.items ==
        old(eventQueue.items) + Announced(this, |Head(sends)| + SentWhileReading(kind, Tail(sends)))
    {
      handler := true;
      model := model.(handler := true);
      SendItems(Head(sends));
      RequestStreamingReadIfNeeded(Tail(sends));
    }
  }
}
