/** The memory of one `Rpc` object together with the operations gRPC still owes
    it, and the functions of rpc.cc and service.cc over that memory.

    Fields marked "history" are never read by the modelled code; they record
    what happened so that properties can be stated over whole runs. */
module RpcCore {

  datatype Option<+T> = None | Some(value: T)

  type Message = nat

  datatype Status = Status(code: nat) {
    predicate Ok() { code == 0 }
  }

  datatype Kind = NormalRpc | ClientStreaming | ServerStreaming | BidiStreaming {
    predicate StreamsRequests() { ClientStreaming? || BidiStreaming? }
    predicate StreamsResponses() { ServerStreaming? || BidiStreaming? }
  }

  datatype Event = NewConnection | Read | WriteNeeded | Write | Finish | Done

  /** A finished operation as gRPC reports it. */
  datatype Completion = Completion(event: Event, ok: bool)

  /** An entry of the send queue; `msg` is absent for a plain Finish. */
  datatype SendItem = SendItem(msg: Option<Message>, status: Status)

  /** A Write or Finish call made on the gRPC reader/writer object. */
  datatype Call = WriteCall(item: SendItem) | FinishCall(item: SendItem)

  datatype Callback = OnRequest(request: Message) | OnReadsDone | OnFinish

  /** What the process would die of, or the undefined behaviour it would enter. */
  datatype Fault =
    | UseAfterFree
    | WeakPtrCheck      // ActiveRpcs::GetWeakPtr does not find the Rpc
    | AlreadyActive     // ActiveRpcs::Add finds the Rpc
    | ReaderInterface   // no streaming reader for this kind
    | WriteCheck        // PerformWrite without message or on a unary response
    | FinishCheck       // PerformFinish with a message on a streaming response
    | NullHandler

  datatype Rpc = Rpc(
    kind: Kind,
    pending: set<Event>,          // events whose `pending` flag is set
    oks: set<Event>,              // events whose `ok` flag is set
    handler: bool,                // handler_ is instantiated
    request: Message,             // request_ buffer, filled by gRPC
    sendQueue: seq<SendItem>,
    response: Option<Message>,    // response_ buffer, read by gRPC
    // gRPC's side
    tokens: multiset<Event>,      // operations started and not yet completed
    started: bool,                // a call was accepted for this Rpc
    // history
    posted: seq<Completion>,      // completions gRPC reported, in order
    received: seq<Message>,       // messages gRPC stored into request_, in order
    handled: seq<Completion>,     // completions dispatched to Service::HandleEvent
    enqueued: seq<SendItem>,      // everything ever put in the send queue
    calls: seq<Call>,
    callbacks: seq<Callback>,
    faults: set<Fault>)

  /** A constructed and not yet registered Rpc (rpc.cc:55-81). */
  function Fresh(kind: Kind): Rpc {
    Rpc(kind, {}, {}, false, 0, [], None, multiset{}, false, [], [], [], [], [], [], {})
  }

  function Raise(r: Rpc, f: Fault): Rpc {
    r.(faults := r.faults + {f})
  }

  /** Sets the pending flag and hands the tag to gRPC. */
  function Issue(r: Rpc, e: Event): Rpc {
    r.(pending := r.pending + {e}, tokens := r.tokens + multiset{e})
  }

  function RequestNextMethodInvocation(r: Rpc): Rpc {
    Issue(Issue(r, Done), NewConnection)
  }

  function IssueRead(r: Rpc): Rpc {
    if r.kind.StreamsRequests() then Issue(r, Read) else Raise(r, ReaderInterface)
  }

  function EnqueueMessage(r: Rpc, item: SendItem): Rpc {
    r.(sendQueue := r.sendQueue + [item], enqueued := r.enqueued + [item])
  }

  /** A streaming response must not be finished with a message; a unary one
      leaves through response_. */
  function PerformFinish(r: Rpc, item: SendItem): Rpc {
    var streams := r.kind.StreamsResponses();
    r.(pending := r.pending + {Finish}, tokens := r.tokens + multiset{Finish},
       response := if streams then r.response else item.msg,
       calls := r.calls + [FinishCall(item)],
       faults := if streams && item.msg.Some? then r.faults + {FinishCheck} else r.faults)
  }

  function PerformWrite(r: Rpc, item: SendItem): Rpc {
    if item.msg.None? || !r.kind.StreamsResponses() then Raise(r, WriteCheck)
    else
      r.(pending := r.pending + {Write}, tokens := r.tokens + multiset{Write},
         response := item.msg, calls := r.calls + [WriteCall(item)])
  }

  function HandleSendQueue(r: Rpc): Rpc {
    if r.sendQueue == [] || Write in r.pending || Finish in r.pending then r
    else
      var item, popped := r.sendQueue[0], r.(sendQueue := r.sendQueue[1..]);
      if item.msg.None? || !r.kind.StreamsResponses() then PerformFinish(popped, item)
      else PerformWrite(popped, item)
  }

  /** NEW_CONNECTION is deliberately absent, as in rpc.cc:314-319. */
  predicate IsAnyEventPending(r: Rpc) {
    Done in r.pending || Read in r.pending || Write in r.pending || Finish in r.pending
  }

  /** gRPC completes operation `e`. An accepted call stores the request of a
      unary-request method; a successful read stores the message read. A call
      that never started takes its NotifyWhenDone registration with it. */
  function Post(r: Rpc, e: Event, ok: bool, m: Message): Rpc {
    var stores := ok && (e == Read || (e == NewConnection && !r.kind.StreamsRequests()));
    r.(tokens := r.tokens - (if e == NewConnection && !ok then multiset{e, Done} else multiset{e}),
       started := r.started || (e == NewConnection && ok),
       request := if stores then m else r.request,
       received := if stores then r.received + [m] else r.received,
       posted := r.posted + [Completion(e, ok)])
  }

  /** The completion queue thread stores the outcome in the event object. */
  function StoreOk(r: Rpc, c: Completion): Rpc {
    r.(oks := if c.ok then r.oks + {c.event} else r.oks - {c.event})
  }

  // ---------------------------------------------------------------------
  // Event handling as small-step programs

  datatype Action =
    | CreateHandler | CallOnRequest | CallOnReadsDone | CallOnFinish
    | CallbackReturn       // the handler's code is running
    | PushWriteNeeded      // the second half of a Send or Finish made by the handler
    | StartRead
    | SendNext             // Rpc::HandleSendQueue
    | RemoveIfNotPending | Remove
    | CloneRpc             // Rpc::Clone, on the origin's event queue
    | SelectQueue          // select an event queue and SetEventQueue
    | AddClone             // ActiveRpcs::Add
    | Register             // RequestNextMethodInvocation of the clone
    | DropClone            // the shared_ptr that ActiveRpcs::Add returned goes away
    | Release              // InternalRpcEvent::Handle drops its shared_ptr

  datatype Program = Halt | Then(action: Action, next: Program)

  /** Replacing the listener, one action at a time (service.cc:99-101). The
      shared_ptr that Add returns lives until the end of the statement. */
  const DROPPING := Then(DropClone, Halt)
  const REGISTERING := Then(Register, DROPPING)
  const ADDING := Then(AddClone, REGISTERING)
  const PLACING := Then(SelectQueue, ADDING)
  const CLONING := Then(CloneRpc, PLACING)

  /** A replacement listener is still to be registered. */
  predicate OwesClone(p: Program) {
    p.Then? && (p.action == Register || OwesClone(p.next))
  }

  /** Rpc::RequestStreamingReadIfNeeded followed by `next`. */
  function ReadIfNeeded(kind: Kind, next: Program): Program {
    if kind.StreamsRequests() then Then(StartRead, next)
    else Then(CallOnRequest, Then(CallOnReadsDone, next))
  }

  /** What Service::HandleEvent does for event `e` (service.cc:58-138); for a
      WRITE_NEEDED the event object holds a shared_ptr meanwhile. */
  function ProgramFor(kind: Kind, e: Event, ok: bool, stopping: bool): Program {
    match e
    case NewConnection =>
      if stopping then Then(Remove, Halt)
      else if !ok then Then(Remove, CLONING)
      else Then(CreateHandler, ReadIfNeeded(kind, CLONING))
    case Read =>
      if ok then Then(CallOnRequest, ReadIfNeeded(kind, Halt))
      else Then(CallOnReadsDone, Then(RemoveIfNotPending, Halt))
    case WriteNeeded => Then(SendNext, Then(RemoveIfNotPending, Then(Release, Halt)))
    case Write => Then(SendNext, Then(RemoveIfNotPending, Halt))
    case Finish => Then(CallOnFinish, Then(RemoveIfNotPending, Halt))
    case Done => Then(RemoveIfNotPending, Halt)
  }

  /** Result of popping one event: the new memory, the program to run, and
      whether the event thread holds a shared_ptr while running it. */
  datatype Dispatched = Dispatched(rpc: Rpc, prog: Program, pinned: bool)

  /** CompletionQueueRpcEvent::Handle and InternalRpcEvent::Handle (rpc.cc:42-53). */
  function Dispatch(r: Rpc, alive: bool, e: Event, stopping: bool): Dispatched {
    if e == WriteNeeded then
      if alive then Dispatched(r, ProgramFor(r.kind, e, true, stopping), true)
      else Dispatched(r, Halt, false)
    else if !alive then Dispatched(Raise(r, UseAfterFree), Halt, false)
    else
      var ok := e in r.oks;
      Dispatched(r.(pending := r.pending - {e}, handled := r.handled + [Completion(e, ok)]),
                 ProgramFor(r.kind, e, ok, stopping), false)
  }

  /** Result of one action: the new memory, membership in active_rpcs_, the
      rest of the program, and whether a WRITE_NEEDED was pushed. */
  datatype Outcome = Outcome(rpc: Rpc, active: bool, prog: Program, pushed: bool)

  function Invoke(r: Rpc, c: Callback): Rpc {
    if r.handler then r.(callbacks := r.callbacks + [c]) else Raise(r, NullHandler)
  }

  function Execute(r: Rpc, active: bool, alive: bool, p: Program): Outcome
    requires p.Then?
  {
    if !alive && p.action !in {SelectQueue, AddClone, Register, DropClone} then
      Outcome(Raise(r, UseAfterFree), active, Halt, false)
    else
      match p.action
      case CreateHandler => Outcome(r.(handler := true), active, Then(CallbackReturn, p.next), false)
      case CallOnRequest =>
        Outcome(Invoke(r, OnRequest(r.request)), active, Then(CallbackReturn, p.next), false)
      case CallOnReadsDone => Outcome(Invoke(r, OnReadsDone), active, Then(CallbackReturn, p.next), false)
      case CallOnFinish => Outcome(Invoke(r, OnFinish), active, Then(CallbackReturn, p.next), false)
      case CallbackReturn => Outcome(r, active, p.next, false)
      case PushWriteNeeded =>
        if active then Outcome(r, active, p.next, true)
        else Outcome(Raise(r, WeakPtrCheck), active, p.next, false)
      case StartRead => Outcome(IssueRead(r), active, p.next, false)
      case SendNext => Outcome(HandleSendQueue(r), active, p.next, false)
      case RemoveIfNotPending => Outcome(r, active && IsAnyEventPending(r), p.next, false)
      case Remove => Outcome(r, false, p.next, false)
      case _ => Outcome(r, active, p.next, false)
  }
}
