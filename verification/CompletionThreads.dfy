/** The loop of a completion queue thread over the objects. */
module CompletionThreads {
  import opened RpcCore
  import opened Sequences
  import opened Objects

  /** What CompletionQueue::Next returns: an event of an Rpc and its outcome. */
  datatype Tag = Tag(rpc: RpcObject, event: Event, ok: bool)

  /** The Rpc after the outcomes of its tags were stored, in order. */
  function Stored(r: Rpc, rpc: RpcObject, tags: seq<Tag>): Rpc
    decreases |tags|
  {
    if tags == [] then r
    else
      var before := Stored(r, rpc, Init(tags));
      if Last(tags).rpc == rpc then StoreOk(before, Completion(Last(tags).event, Last(tags).ok)) else before
  }

  /** The events for event queue `q`, in order; queues[i] is where tags[i] goes. */
  function PushedTo(tags: seq<Tag>, queues: seq<EventQueue>, q: EventQueue): seq<QueuedEvent>
    requires |tags| <= |queues|
    decreases |tags|
  {
    if tags == [] then []
    else
      var n := |tags| - 1;
      PushedTo(Init(tags), queues, q) + (if queues[n] == q then [Tagged(Last(tags).rpc, Last(tags).event)] else [])
  }

  lemma StoredStep(r: Rpc, rpc: RpcObject, tags: seq<Tag>, n: nat)
    requires n < |tags|
    ensures Stored(r, rpc, tags[..n + 1]) ==
      if tags[n].rpc == rpc then StoreOk(Stored(r, rpc, tags[..n]), Completion(tags[n].event, tags[n].ok))
      else Stored(r, rpc, tags[..n])
  {
    assert Init(tags[..n + 1]) == tags[..n];
  }

  lemma PushedStep(tags: seq<Tag>, queues: seq<EventQueue>, q: EventQueue, n: nat)
    requires n < |tags| <= |queues|
    ensures PushedTo(tags[..n + 1], queues, q) ==
      PushedTo(tags[..n], queues, q) + (if queues[n] == q then [Tagged(tags[n].rpc, tags[n].event)] else [])
  {
    assert Init(tags[..n + 1]) == tags[..n];
  }

  /** The first n tags were forwarded, starting from `models` and `items`. */
  ghost predicate Handed(tags: seq<Tag>, queues: seq<EventQueue>, models: seq<Rpc>, items: seq<seq<QueuedEvent>>, n: nat)
    requires n <= |tags| == |queues| == |models| == |items|
    reads set i | 0 <= i < |tags| :: tags[i].rpc
    reads queues
  {
    forall i :: 0 <= i < |tags| ==>
      && tags[i].rpc.Valid() && tags[i].event != WriteNeeded && tags[i].rpc.eventQueue == queues[i]
      && tags[i].rpc.model == Stored(models[i], tags[i].rpc, tags[..n])
      && queues[i].items == items[i] + PushedTo(tags[..n], queues, queues[i])
  }

  method HandOver(tags: seq<Tag>, queues: seq<EventQueue>, n: nat,
                  ghost models: seq<Rpc>, ghost items: seq<seq<QueuedEvent>>)
    requires n < |tags| == |queues| == |models| == |items|
    requires Handed(tags, queues, models, items, n)
    modifies (set i | 0 <= i < |tags| :: tags[i].rpc), queues
    ensures Handed(tags, queues, models, items, n + 1)
  {
    var tag := tags[n];
    tag.rpc.Complete(tag.event, tag.ok);
    forall i | 0 <= i < |tags|
      ensures tags[i].rpc.Valid() && tags[i].rpc.eventQueue == queues[i]
      ensures tags[i].rpc.model == Stored(models[i], tags[i].rpc, tags[..n + 1])
      ensures queues[i].items == items[i] + PushedTo(tags[..n + 1], queues, queues[i])
    {
      StoredStep(models[i], tags[i].rpc, tags, n);
      PushedStep(tags, queues, queues[i], n);
    }
  }

  /** RunCompletionQueue: every tag is stored in its own Rpc and pushed to that
      Rpc's event queue, in the order gRPC returns them. */
  method RunCompletionQueue(tags: seq<Tag>, queues: seq<EventQueue>)
    requires |queues| == |tags|
    requires forall i :: 0 <= i < |tags| ==>
      tags[i].rpc.Valid() && tags[i].event != WriteNeeded && tags[i].rpc.eventQueue == queues[i]
    modifies (set i | 0 <= i < |tags| :: tags[i].rpc), queues
    ensures forall i :: 0 <= i < |tags| ==>
      && tags[i].rpc.Valid() && tags[i].rpc.eventQueue == queues[i]
      && tags[i].rpc.model == Stored(old(tags[i].rpc.model), tags[i].rpc, tags)
      && queues[i].items == old(queues[i].items) + PushedTo(tags, queues, queues[i])
  {
    ghost var models := seq(|tags|, i requires 0 <= i < |tags|
                                     reads set j | 0 <= j < |tags| :: tags[j].rpc => tags[i].rpc.model);
    ghost var items := seq(|tags|, i requires 0 <= i < |tags| reads queues => queues[i].items);
    for n := 0 to |tags|
      invariant Handed(tags, queues, models, items, n)
    {
      HandOver(tags, queues, n, models, items);
    }
    assert tags[..|tags|] == tags;
  }
}
