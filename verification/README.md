# A verified model of async_grpc

async_grpc is a small framework for asynchronous gRPC servers and clients. This
project models its concurrent core in Dafny and proves what that core
guarantees on every interleaving of its threads.

## How the model is organised

* **One `Rpc` object.** `RpcCore` holds the memory of an `Rpc` and the functions
  of rpc.cc and service.cc over it; a handler of an event is a small program of
  atomic actions. `Connection` lets gRPC, the completion queue thread, the event
  thread and any number of `Writer` calls take turns on it, one step at a time.
  Undefined behaviour and failed checks are recorded in `faults`. `Lifetime`,
  `Sending`, `Protocol` and `OneFinish` state the invariants and
  `ConnectionTheorems` what follows on every run; `Draining` is about progress.
  `Histories` ties what the Rpc records of its past to the steps of the run: what
  the senders passed, what gRPC reported and stored.
* **The server.** `System` has any number of services, methods, completion
  queues, event threads, Rpcs and Writer threads. Replacing a listener is five
  separate actions, as in service.cc:97-101: clone the Rpc, select an event queue
  for the clone, add it to active_rpcs_, register it with gRPC, let go of the
  shared_ptr that adding it returned; other threads may do anything in between,
  even serve the clone to its end. `Projection` and `Simulation` prove that what one Rpc
  sees of the server is a connection. `Cloning`, `Frames` and `CloningProofs` are
  about the new Rpc in the hands of the thread that creates it. So every theorem
  about connections holds of every Rpc of every server (`ServerTheorems`,
  `Shutdown`, `Listeners`, `Placement`, `Overtaking`). `EventOrder` follows the
  events through the queues of the server. `Budgets` and
  `ServerDraining` are about the end of all Rpcs during shutdown, `QueueShutdown`
  about operations on completion queues that were shut down.
* **The objects.** `Objects` and `ServiceObjects` are the classes with their
  fields and methods. Each method is proved against the functions above, and
  `BigStep` and `Handling` prove that handling an event is a run of the
  connection. `CompletionThreads` and `EventThreads` are the loops of the two
  kinds of threads over these objects; both serve queues that any number of Rpcs
  share. `EventLoop` says on values what the loop of an event thread amounts to. The event queue these objects use (`Objects.EventQueue`) is a class of
  its own: an unbounded queue that is pushed to and popped without waiting.
* **The queue under everything.** `Monitor` is `BlockingQueue` on top of `Mutex`
  with lock, condition variable, timeouts and spurious wake-ups as separate
  steps of any number of threads; `QueueCalls` says what each caller gets;
  `BlockingQueues` is the class, with the thread that calls as a parameter. A call that has to wait returns to its caller and is
  taken up again by its Resume method.
* **The clients and the rest.** `Retry`, `UnaryClient`, `AsyncClient`,
  `MethodName`; `Sequences` and `Arithmetic` are shared facts.

What gRPC contributes is part of the model: an operation completes at most once
and only after it was started; DONE is reported only for accepted calls; a
request for a call is reported as failed only after `grpc::Server::Shutdown`; one
thread drains each completion queue in order.

## What does not hold

Seven statements hold only conditionally. Each has a concrete failing run and a
condition that can be checked beforehand.

* Any thread may use a `Writer` at any time, even while the connection closes
  (README.md:173). A Writer that has locked its weak pointer
  when the event thread removes the Rpc dies in the check of
  `ActiveRpcs::GetWeakPtr` (`Counterexamples.WriterRaceAborts`).
* An Rpc is freed when it is removed from active_rpcs_. The thread that registers
  a replacement listener holds a shared_ptr until the end of that statement
  (service.cc:101). Another thread can serve the new Rpc to its end before that.
  Then a Writer call that begins after the removal still finds the Rpc alive and
  aborts (`Counterexamples.HeldRpcAborts`), and a WRITE_NEEDED that is still queued
  hands gRPC a tag that outlives the Rpc (`Removal.StaleWriteStrands`). The
  shared_ptrs of service.cc:46-50 do no harm, since no thread of the server runs
  yet (server.cc:186-203).
* Refusing a call during shutdown frees an Rpc whose DONE tag gRPC still holds,
  if gRPC had accepted the call (`Counterexamples.RefusedCallIsUnsafe`). Removal
  is safe for all continuations if and only if none of the three happens: no
  Writer call is in progress, the registering thread does not hold an Rpc that
  has a handler, and no accepted call is refused (`Removal.RemovalSafeIff`). That
  is what "admissible" means below; nothing else is assumed about the
  interleaving.
* A connection is finished once (README.md:76). `HandleSendQueue` does not look
  whether a Finish was already made, so a Writer used after the response makes a
  second one (`Counterexamples.LateWriterFinishesTwice`). On every run the order
  of calls is kept if and only if `HandleSendQueue` never finds something to send
  after a Finish whose completion was handled (`OneFinish.FinishLastIff`). Senders
  ensure that by announcing what they send before the completion of a Finish
  reaches the event queue (`ConnectionTheorems.TimelySendsFinishOnce`).
* Shutdown leaves no Rpc behind (rpc.h:190-192). The drain loop of an event
  thread ends on the first pop that times out, even if gRPC has yet to report
  operations of its Rpcs (`Shutdown.EarlyTimeoutAborts`). Of all runs on which
  every event thread leaves its loop, the destructor of active_rpcs_ passes on
  exactly those where no thread leaves while an Rpc of its queue is active and
  none is added to a queue whose thread has left (`Shutdown.ShutdownIff`).
* Rpcs are assigned to the event threads round-robin (README.md:143-144). That is
  so in the order of selection. Between `Clone` and the selection one thread can
  overtake another (`Overtaking.OvertakingRun`), and the order of creation is the
  order of selection if and only if none does (`Placement.CreationOrderIff`).

* No operation is started on a completion queue that was shut down. The server
  shuts them down while its event threads are at work (server.cc:227-235), so a
  listener can be registered too late (`QueueShutdown.LateRegistration`). Which
  steps start operations is exact (`QueueShutdown.StartsIff`); none does if the Rpcs
  of the queue have nothing left to send or to read (`QueueShutdown.SpentQueuesAreSafe`).

## Model

| member | source | states |
|---|---|---|
| `LifetimeProofs.StepKeeps` | async_grpc/service.cc:58-144 | Every admissible step of any thread keeps the lifetime invariant: pending flags count the tags in flight, completions stay in order, the running program fits the state of the Rpc, an Rpc outside active_rpcs_ has nothing in flight and nobody working for it |
| `ConnectionTheorems.FullStep` | async_grpc/service.cc:58-144 | Every admissible step keeps lifetime, send, no-stall, ledger and callback invariants together |
| `ConnectionTheorems.FullRun` | async_grpc/service.cc:58-144 | Every admissible run of any length keeps them |
| `ConnectionTheorems.LifetimeSafety` | async_grpc/rpc.cc:42-53 | On every admissible run: no use after free, failed check or missing handler; while a tag is with gRPC or in a queue, or a thread works for the Rpc, it is in active_rpcs_; the "unknown reason" branch, which would clone a freed Rpc, is unreachable |
| `ConnectionTheorems.FlagsMirrorTags` | async_grpc/rpc.cc:306-319 | A pending flag is set exactly when one tag of its event is in flight and clear exactly when none is |
| `ConnectionTheorems.HandledOnce` | async_grpc/rpc.cc:105-141 | NEW_CONNECTION and DONE are handled at most once each, exactly when their flag is clear |
| `ConnectionTheorems.NoLeak` | async_grpc/service.cc:140-144 | Between events every active Rpc has a tag on its way that will bring the event thread back to it |
| `ConnectionTheorems.RetiredIsInert` | async_grpc/rpc.cc:47-53 | After an admissible removal no step changes the Rpc or makes it active again: stale WRITE_NEEDED events are ignored, Writer calls find nothing to lock, and the thread that registered a refused Rpc may still let go of it |
| `ConnectionTheorems.WriteNeededNeverRemoves` | async_grpc/rpc.cc:47-53 | While the event thread holds the shared_ptr of a WRITE_NEEDED, operations are outstanding, so handling it never removes the Rpc and releasing the shared_ptr never frees it |
| `ConnectionTheorems.HandledInOrder` | async_grpc/server.cc:134-143 | Completions reach Service::HandleEvent in the order and with the outcome gRPC reported |
| `Sending.SendKeeps` | async_grpc/rpc.cc:162-194 | Any step of any thread keeps: calls made followed by the send queue grow at the end by exactly the item the step passes on, if any; each call has the right kind, Write and Finish are never outstanding together |
| `Histories.SendOrder` | async_grpc/rpc.cc:162-194 | On every run, admissible or not, what gRPC was handed and what is still queued is what was there before and then, in the order of their steps, the items the senders passed: of each Send or Finish of a handler its argument, of each Writer call that gets there the argument it began with; nothing is lost, duplicated or reordered |
| `Histories.SendersAreRecorded` | async_grpc/rpc.cc:265-268 | The items ever put in the send queue are those, on every run |
| `Histories.DeliveriesAreRecorded` | async_grpc/server.cc:134-143 | On every run the completions and messages the Rpc has seen are the ones gRPC reported and stored, in the order of its steps |
| `ConnectionTheorems.ListenerSends` | async_grpc/rpc.cc:162-194 | In particular over the whole life of an Rpc: items handed to gRPC followed by items still queued are the items sent, computed from the steps of the run |
| `ConnectionTheorems.ListenerReceives` | async_grpc/service.cc:93-136 | On every admissible run the handler was given the messages that gRPC stored, in that order, all of them but at most the last, and then at most the end of the stream; completions were handled in the order and with the outcomes gRPC reported |
| `ConnectionTheorems.ReadsOn` | async_grpc/service.cc:104-115 | Between events a served Rpc has a read outstanding exactly until its handler was told that the stream is over, and OnFinish was called once for each Finish that is done |
| `Sending.ResponseStable` | async_grpc/rpc.cc:270-304 | While gRPC may read response_, no step overwrites it or makes another call |
| `Sending.StallKeeps` | async_grpc/service.cc:117-126 | Every step keeps: a nonempty send queue is attended to |
| `ConnectionTheorems.NoStall` | async_grpc/service.cc:117-126 | Before the Finish, a nonempty send queue of an active Rpc always has a pending Write, a queued WRITE_NEEDED or a thread about to look at or announce it |
| `ConnectionTheorems.CallbackProtocol` | async_grpc/service.cc:93-136 | The handler exists before it is called; it sees the received messages in order and once each, then OnReadsDone at most once and no message later; for unary requests OnRequest and OnReadsDone come first of all; OnFinish comes at most once per Finish call |
| `OneFinish.FinishLastIff` | async_grpc/rpc.cc:174-194 | On every run of every kind of method, admissible or not, the calls are Writes followed by at most one Finish if and only if no SendNext finds a nonempty queue after a Finish whose flag is clear again |
| `OneFinish.LateSendBreaks` | async_grpc/rpc.cc:174-194 | A step breaks the order of calls if and only if it is such a late send |
| `ConnectionTheorems.TimelySendsFinishOnce` | async_grpc/rpc.cc:162-194 | If every WRITE_NEEDED is pushed before the completion of a Finish reaches the event queue, by handlers or Writers on any threads, there is at most one Finish and nothing after it; a unary response leads to at most one call |
| `ConnectionTheorems.OneFinishOnly` | async_grpc/rpc.cc:270-293 | In particular if all sends come from the handler before OnConnection returns, in any mix of Send and Finish |
| `Removal.RemovalSafeIff` | async_grpc/service.cc:140-144 | Removing an Rpc is safe on all continuations if and only if no Writer call is in progress, no accepted call is being refused, and the thread that registered it does not hold it beyond its service |
| `Removal.RefusalStrandsDone` | async_grpc/service.cc:80-86 | Refusing an accepted call always has a continuation that touches the freed Rpc |
| `Removal.SecondWriterStrands` | async_grpc/rpc_handler.h:44-68 | Even a Writer call that is about to return keeps the Rpc lockable, so another thread can run into the failing check |
| `Removal.HolderStrands` | async_grpc/service.cc:101 | As long as the registering thread holds a removed Rpc that was served, some continuation runs into the failing check |
| `Removal.StaleWriteStrands` | async_grpc/rpc.cc:47-53 | Without any Writer call, for every kind of method: a WRITE_NEEDED handled after the removal starts an operation whose tag arrives when the Rpc is freed |
| `Counterexamples.WriterRaceAborts` | async_grpc/rpc_handler.h:44-50 | A run in which a Writer call that overlaps the end of the connection aborts the process |
| `Counterexamples.RefusedCallIsUnsafe` | async_grpc/service.cc:80-86 | A run in which a call refused during shutdown leads to a use after free |
| `Counterexamples.HeldRpcAborts` | async_grpc/service.cc:101 | A run in which an Rpc is served to its end and removed while it is still being registered, with no Writer call in progress and no call refused, and a later Writer call aborts the process |
| `Counterexamples.LateWriterFinishesTwice` | async_grpc/rpc.cc:174-194 | A run in which a unary call is finished twice |
| `Draining.DrainStep` | async_grpc/server.cc:161-165 | Once nobody sends and no message arrives, every step of gRPC or of the server's threads uses up work, and taking an event uses up the event budget |
| `Draining.DrainBound` | async_grpc/server.cc:161-165 | A drain of any length stays within both budgets |
| `Draining.DrainProgress` | async_grpc/server.cc:161-165 | While the Rpc is active some step is possible |
| `Draining.DrainRemoves` | async_grpc/service.cc:140-144 | However steps are chosen, draining ends with the removal of the Rpc, after at most twice the send queue, plus the queued WRITE_NEEDEDs, plus the pending operations in events |
| `Budgets.Spends` | async_grpc/service.cc:58-138 | Every step of a connection that accepts no call and reads no message uses up some of a budget computed from its queues, operations and program; registering a replacement leaves enough for the new Rpc |
| `BigStep.RunProgramIsRun` | async_grpc/service.cc:58-138 | Handling an event in one go is one of the runs of the connection |
| `BigStep.HandledIsRun` | async_grpc/service.cc:58-138 | The closed form of an event's effect, used by the objects, is what its action program does |
| `Handling.DispatchIsExpected` | async_grpc/rpc.cc:42-53 | On every admissible run every event that is dispatched finds an active Rpc in the state its handler relies on |
| `Handling.HandleEventIsRun` | async_grpc/service.cc:58-77 | From any reachable connection, popping and handling the next event, whatever the handler sends, is a run that begins with taking the event, leads where the objects' contracts say, and stays reachable unless an accepted call is refused or the Rpc is removed while its registering thread holds it |
| `Handling.RunProgramReachable` | async_grpc/service.cc:58-138 | Running a handler to its end leads from reachable to reachable connections, unless it does one of these two things |
| `CompletionThreads.RunCompletionQueue` | async_grpc/server.cc:134-143 | For any mix of Rpcs and queues, every outcome is stored in its own Rpc and every event pushed to that Rpc's event queue, in the order gRPC returns the tags |
| `EventThreads.HandleNext` | async_grpc/rpc.cc:42-53 | With an event queue shared by any number of Rpcs: the head of the queue is taken and what the handler announces is added at its end; the Rpc of the event is where one turn of its connection leads (pop, then the program of the event to its end), a reachable connection unless an accepted call is refused or a held Rpc is removed; all others are left alone; a new listener is created exactly for an accepted call while serving, and joins the queue if it was placed there; a stale WRITE_NEEDED is ignored |
| `EventThreads.RunEventQueue` | async_grpc/server.cc:152-166 | Over any number of events of any mix of Rpcs, whatever their handlers send: exactly the given number of events is taken, or all; those taken and those left are, in this order, the ones that were there and the ones announced since; each Rpc ends where one turn per event of its own leads, its completions handled in order with the stored outcomes; each accepted call brought one new listener, and nothing else became active; no Rpc runs into a fault and all are reachable connections again |
| `EventLoop.LogIsLooped` | async_grpc/server.cc:152-166 | Turn by turn on values: the order of the events, the turns of each Rpc, the completions handled and the listeners created follow from single turns |
| `EventLoop.TurnTakes` | async_grpc/rpc.cc:42-53 | One turn hands over exactly one event, with the outcome that was stored for it, and changes no stored outcome |
| `EventThreads.Deliver` | async_grpc/server.cc:134-143 | A completion that arrives between events is queued last, its outcome and its message are in the Rpc, and all the loop relies on is kept, unless an accepted call arrives while stopping |
| `EventThreads.Send` | async_grpc/rpc_handler.h:44-68 | A whole Writer call between events succeeds exactly if the Rpc is active; then its item is last in the send queue and announced last in the event queue; otherwise nothing changes |
| `Simulation.SimLocal` | async_grpc/server.cc:134-166 | Every step of a thread of the server is one step of the connection it works on and leaves the other connections alone, except for the new Rpc it adds or registers |
| `Simulation.SimClone` | async_grpc/rpc.cc:83-87 | Cloning adds an Rpc that gRPC has not heard of and nothing refers to, and is an ordinary step for everybody else |
| `Simulation.SimRegister` | async_grpc/service.cc:101 | Registering turns the new Rpc into one with DONE and NEW_CONNECTION outstanding that its thread still holds, and changes nobody else |
| `Simulation.SimDrop` | async_grpc/service.cc:101 | The end of the statement is a step of its own for the new Rpc, wherever that is by then, and for the thread |
| `Simulation.SimGlobal` | async_grpc/server.cc:214-225 | A shutdown step is at most one shutdown step of each connection |
| `CloningProofs.CloneStep` | async_grpc/service.cc:97-101 | Every step of any thread, admissible or not, keeps: a thread has a new Rpc in hand exactly between cloning and registering it and holds it exactly until it lets go, no two threads have or hold the same, it belongs to the method and completion queue of the Rpc it replaces, and nobody else can have touched it before it is registered |
| `CloningProofs.CloneRun` | async_grpc/service.cc:97-101 | So does every run of every server |
| `ServerTheorems.StartedInv` | async_grpc/service.cc:40-54 | After Server::Start every Rpc sees exactly a new listener of its method, and all of them are routed to existing queues |
| `ServerTheorems.RegisteredReachable` | async_grpc/service.cc:97-101 | The Rpc a thread registers is then seen as a new listener that is still held, a reachable connection |
| `ServerTheorems.SysStepKeeps` | async_grpc/server.cc:134-166 | Every admissible server step leaves every Rpc, old or new, in a reachable connection or untouched in the hands of the thread that creates it |
| `ServerTheorems.SysRunKeeps` | async_grpc/server.cc:134-166 | So does every admissible run |
| `Shutdown.ServerSafe` | async_grpc/rpc.h:190-207 | No Rpc of the server has a fault, the "RPC already active" check included; tags, completion queue entries, event queue entries other than WRITE_NEEDED, running programs and Writer calls all refer to Rpcs in active_rpcs_ |
| `Shutdown.EveryRunIsSafe` | async_grpc/server.cc:134-204 | This holds on every admissible run of every server, whatever its methods, queues and threads |
| `Shutdown.SerialExecution` | README.md:129-130 | On every run of every server, admissible or not, no two threads run code of the same Rpc, and its code runs only on the thread of its own event queue |
| `Shutdown.RouteIsFixed` | README.md:129 | On any run an Rpc keeps its event queue for good once it was selected, and its completion queue and method |
| `Shutdown.QueueComesFirst` | async_grpc/service.cc:97-101 | On every run of every server, before the event queue of an Rpc is set there is no tag, completion, event, thread or Writer call of it anywhere |
| `Shutdown.CleanShutdownIff` | async_grpc/rpc.cc:352-357 | When gRPC is done and the threads are idle, "RPCs still in flight" is avoided if and only if no tag was left in an event queue |
| `Shutdown.EarlyTimeoutAborts` | async_grpc/server.cc:161-165 | A run of two steps in which the only event thread times out before gRPC is done and active_rpcs_ is left with an Rpc |
| `Shutdown.ShutdownIff` | async_grpc/server.cc:152-166 | On every run of every server, admissible or not, after which all event threads have left their loops, active_rpcs_ is empty if and only if no thread left while an Rpc of its queue was active and no Rpc was added to a queue whose thread had left |
| `Shutdown.StrandStep` | async_grpc/server.cc:161-165 | Once an active Rpc is left without its thread, every step leaves it so; a step leaves one behind exactly if it does one of these two things |
| `EventOrder.EventsInOrder` | async_grpc/server.cc:152-166 | On every run of every server, admissible or not, the events that the thread of a queue has taken and those still queued are, in this order, those that were there and those put there since by completion queue threads, handlers and Writers |
| `EventOrder.LeavesDrained` | async_grpc/server.cc:161-165 | A thread leaves its loop only during shutdown, between events, and after it has taken every event that had arrived in its queue by then |
| `EventOrder.NothingTakenLater` | async_grpc/server.cc:161-165 | After that, what arrives stays in the queue, on every run |
| `ServerDraining.WindStep` | async_grpc/server.cc:152-166 | During shutdown every admissible step of gRPC or of any thread, including those that create and register Rpcs, uses up some of the budgets of all Rpcs together |
| `ServerDraining.ServerDrains` | async_grpc/server.cc:214-235 | Once the gRPC server is shut down and nobody sends, every run is bounded by that sum, and one that cannot go on has emptied active_rpcs_, unless the thread of an event queue left an active Rpc behind |
| `QueueShutdown.StartsIff` | async_grpc/rpc.cc:105-194 | A step hands gRPC an operation of an Rpc if and only if it registers the Rpc, or it is an action of the Rpc's own thread that starts a read or finds something to send and nothing outstanding |
| `QueueShutdown.LateRegistration` | async_grpc/server.cc:227-231 | A run in which a listener is registered on a completion queue that was shut down |
| `QueueShutdown.SpentQueuesAreSafe` | async_grpc/server.cc:227-231 | If the Rpcs of the queues that were shut down have nothing left to send, to read or to replace, no run of the shutdown starts an operation on these queues |
| `Listeners.HoldsStep` | async_grpc/service.cc:79-102 | No step takes on the listener role of a method and completion queue; while the service is served only registering the replacement gives it up |
| `Listeners.PairStep` | async_grpc/service.cc:97-101 | A server step keeps: at most one Rpc holds the role, exactly one while the service is served |
| `Listeners.ListenerConservation` | README.md:152-154 | This holds for every method and completion queue on every admissible run of every server |
| `Listeners.OneTagWaits` | README.md:154 | Unless a thread is about to replace the listener of the pair, exactly one NEW_CONNECTION tag of a served method and completion queue is in flight, and it belongs to an active Rpc, whatever all other threads are doing |
| `Placement.PickAt` | async_grpc/server.cc:145-150 | Of any selections in a row, made by any callers, the i-th returns the id i + 1 places further on, in range |
| `Placement.RoundRobinFair` | async_grpc/server.cc:145-150 | Any window of k selections picks each of n queues k / n times, rounded down or up, and exactly so often if n divides k |
| `Placement.RoundRobinRun` | async_grpc/server.cc:145-150 | On every run the i-th selection went to one Rpc, which has event queue i + 1 modulo their number, and exactly the Rpcs whose queue is set were selected for, once each |
| `Placement.BalancedLoad` | README.md:143-144 | So the Rpcs of any consecutive selections are spread evenly over the event threads |
| `Placement.CreationOrderIff` | async_grpc/service.cc:97-101 | On every run Rpcs get their event queues in the order of their creation if and only if no thread selects for an Rpc while an older one still waits for its selection |
| `Overtaking.OvertakingRun` | async_grpc/service.cc:97-101 | A run with two event threads in which the younger of two Rpcs is selected for first |
| `Monitor.StepKeeps` | async_grpc/common/mutex.h:65-88 | Every step of any thread keeps the lock discipline, the contents, the capacity and that no wake-up is lost |
| `Monitor.QueueIsCorrect` | async_grpc/common/blocking_queue.h:35-126 | On every interleaving of any callers: values come out in the order they went in, nothing is lost or duplicated, the capacity holds, critical sections exclude each other, a timed call gives up only if its predicate is false then, no thread sleeps on a true predicate without a notification coming |
| `Monitor.InternalRunBound` | async_grpc/common/mutex.h:69-72 | Without new calls, time-outs or spurious wake-ups only boundedly many steps happen, although every call wakes all sleepers |
| `Monitor.CanMove` | async_grpc/common/mutex.h:75-77 | As long as a thread inside a call is awake, some thread can move |
| `Monitor.ComesToRest` | async_grpc/common/blocking_queue.h:35-126 | Every execution comes to rest, and a thread still asleep then waits for something that is really missing; Pops never sleep beside Pushes or WaitUntilEmpty |
| `QueueCalls.FirstInFirstOut` | async_grpc/common/blocking_queue.h:49-88 | On every interleaving, values popped followed by values in the queue are the arguments of the Push calls, in the order in which these did their work |
| `QueueCalls.CallEnds` | async_grpc/common/blocking_queue.h:35-126 | On every interleaving a call ends only by doing what it was made for (a Push appends its argument when there is room, a Pop takes the oldest value, WaitUntilEmpty finds the queue empty, Peek and Size change nothing), or because it had a timeout that is over while there is nothing it can do |
| `QueueCalls.TimeoutEndsWaiting` | async_grpc/common/mutex.h:81-88 | Once the time of a call is over it does not wait again, whatever all threads do |
| `BlockingQueues.CallIsRun` | async_grpc/common/blocking_queue.h:49-88 | The beginning of a call, up to its end or its first wait, is a run of the monitor, whoever else is asleep or on the way in: it does its work and wakes all sleepers, or falls asleep without the lock |
| `BlockingQueues.WakeIsRun` | async_grpc/common/mutex.h:69-88 | So is what a caller does when it is awake again, for whatever reason: work and leave, give up if its time is over, or sleep again |
| `BlockingQueues.BlockingQueue.constructor` | async_grpc/common/blocking_queue.h:46 | A new queue is the empty monitor |
| `BlockingQueues.BlockingQueue.Push` | async_grpc/common/blocking_queue.h:49-53 | Appends if there is room; otherwise the caller waits in the monitor |
| `BlockingQueues.BlockingQueue.ResumePush` | async_grpc/common/mutex.h:75-77 | A waiting caller that is awake appends if there is room by now; otherwise it goes on waiting |
| `BlockingQueues.BlockingQueue.PushWithTimeout` | async_grpc/common/blocking_queue.h:56-65 | Appends and returns true if there is room; otherwise the caller waits |
| `BlockingQueues.BlockingQueue.ResumePushWithTimeout` | async_grpc/common/mutex.h:81-88 | Returns true and appends if there is room by now, false exactly if there is none when its time is over; otherwise the caller goes on waiting |
| `BlockingQueues.BlockingQueue.Pop` | async_grpc/common/blocking_queue.h:68-75 | Removes and returns the oldest value; on an empty queue the caller waits |
| `BlockingQueues.BlockingQueue.ResumePop` | async_grpc/common/mutex.h:75-77 | A waiting caller that is awake removes and returns the oldest value if there is one by now; otherwise it goes on waiting |
| `BlockingQueues.BlockingQueue.PopWithTimeout` | async_grpc/common/blocking_queue.h:78-88 | Removes and returns the oldest value; on an empty queue the caller waits |
| `BlockingQueues.BlockingQueue.ResumePopWithTimeout` | async_grpc/common/mutex.h:81-88 | Removes and returns the oldest value if there is one by now, nothing exactly if there is none when its time is over; otherwise the caller goes on waiting |
| `BlockingQueues.BlockingQueue.WaitUntilEmpty` | async_grpc/common/blocking_queue.h:109-112 | Returns if the queue is empty; otherwise the caller waits; the contents are left alone |
| `BlockingQueues.BlockingQueue.ResumeWaitUntilEmpty` | async_grpc/common/mutex.h:75-77 | A waiting caller that is awake returns if the queue is empty by now; otherwise it goes on waiting |
| `Objects.ActiveRpcs.Add` | async_grpc/rpc.cc:359-365 | Adds the Rpc; the check passes exactly if it was not there |
| `Objects.ActiveRpcs.Remove` | async_grpc/rpc.cc:367-375 | Removes the Rpc and tells whether it was there |
| `Objects.ActiveRpcs.GetWeakPtr` | async_grpc/rpc.cc:381-386 | Finds exactly the active Rpcs |
| `Objects.QueueSelector.Select` | async_grpc/server.cc:145-150 | Moves on by one queue, cyclically, and returns it |
| `Objects.RpcObject.constructor` | async_grpc/rpc.cc:55-81 | No flag set, nothing queued, no handler |
| `Objects.RpcObject.Start` | async_grpc/rpc.cc:306-310 | Sets the flag of an operation handed to gRPC and no other |
| `Objects.RpcObject.Receive` | async_grpc/rpc.cc:143-160 | gRPC completes an operation: the tag is gone, and an accepted unary request or a message read is in request_, which is otherwise left alone |
| `Objects.RpcObject.Complete` | async_grpc/server.cc:138-142 | Stores the outcome in the event and queues it on the Rpc's own event queue |
| `Objects.RpcObject.TakeCompletion` | async_grpc/rpc.cc:42-45 | Clears the flag and passes on the stored outcome, as a dispatch of the connection does |
| `Objects.RpcObject.RequestNextMethodInvocation` | async_grpc/rpc.cc:105-141 | The Rpc becomes a listener with DONE and NEW_CONNECTION outstanding |
| `Objects.RpcObject.IsAnyEventPending` | async_grpc/rpc.cc:314-319 | True exactly if DONE, READ, WRITE or FINISH is outstanding |
| `Objects.RpcObject.Send` | async_grpc/rpc.cc:162-172 | Puts the item last in the send queue, then announces it exactly if the Rpc is still active; otherwise the check fails |
| `Objects.RpcObject.PerformFinish` | async_grpc/rpc.cc:270-293 | Makes the Finish call; only a unary response goes through response_ |
| `Objects.RpcObject.PerformWrite` | async_grpc/rpc.cc:295-304 | Makes the Write call with the message in response_ |
| `Objects.RpcObject.HandleSendQueue` | async_grpc/rpc.cc:174-194 | Does what HandleSendQueue of the connection does: nothing if the queue is empty or a Write or Finish is outstanding, else it takes the oldest item and starts one of the two, meeting the checks of PerformWrite and PerformFinish |
| `Objects.RpcObject.CallHandler` | async_grpc/rpc.cc:99-103 | Invokes the callback; what the handler sends meanwhile is at the end of the send queue in the order of its calls, and announced once each |
| `Objects.RpcObject.RequestStreamingReadIfNeeded` | async_grpc/rpc.cc:143-160 | Starts a read for streaming requests, else delivers the request and the end of requests at once, each followed by what the handler sends |
| `Objects.RpcObject.OnConnection` | async_grpc/rpc.cc:89-97 | Instantiates the handler before anything is delivered to it |
| `ServiceObjects.Writer.Send` | async_grpc/rpc_handler.h:44-68 | Returns true exactly if some shared_ptr to the Rpc is left, and then the item is last in the send queue and, if the Rpc is active, announced, else the check fails; otherwise nothing changes |
| `ServiceObjects.Service.RemoveIfNotPending` | async_grpc/service.cc:140-144 | Removes the Rpc exactly if nothing is outstanding, and no other |
| `ServiceObjects.Service.AddListener` | async_grpc/service.cc:97-101 | Adds one fresh listener for the same method and completion queue on the next event queue |
| `ServiceObjects.Service.HandleNewConnection` | async_grpc/service.cc:79-102 | While serving, serves an accepted call and replaces the listener; while stopping, drops the Rpc and creates nothing; a failed call while serving drops the Rpc and then clones a freed object |
| `ServiceObjects.Service.HandleRead` | async_grpc/service.cc:104-115 | A message is delivered and the next read started; the end of the stream is reported and ends the Rpc if nothing else is outstanding |
| `ServiceObjects.Service.HandleWrite` | async_grpc/service.cc:117-126 | Sends the next item, then removes the Rpc if nothing is outstanding |
| `ServiceObjects.Service.HandleFinish` | async_grpc/service.cc:128-136 | Reports OnFinish, then removes the Rpc if nothing is outstanding |
| `ServiceObjects.Service.HandleEvent` | async_grpc/service.cc:58-77 | What it does to the Rpc, its event queue, active_rpcs_ and the selector is the closed form that `Handling.HandleEventIsRun` ties to the connection |
| `ServiceObjects.Service.ServeMethod` | async_grpc/service.cc:45-51 | One fresh active listener per completion queue, on consecutive event queues |
| `ServiceObjects.Service.StartServing` | async_grpc/service.cc:40-54 | One such row per method, all of them active, no other Rpc touched, the selector moved on by one place per Rpc |
| `ServiceObjects.Service.RowIsStarted` | async_grpc/service.cc:40-54 | Row by row, for services started one after the other, these objects are the Rpcs with which the server model starts |
| `Retry.LastAttemptDecides` | async_grpc/retry.cc:94-114 | The last attempt made succeeds if and only if some attempt succeeds and a retry was allowed after each one before it |
| `Retry.LimitedAttempts` | async_grpc/retry.cc:37-41 | With limited backoff at most max(1, max_attempts) attempts are made, and exactly so many if all fail |
| `Retry.LimitedSucceedsIff` | async_grpc/retry.cc:69-75 | With limited backoff a call succeeds if and only if one of the allowed attempts does |
| `Retry.TotalBackoff` | async_grpc/retry.cc:54-64 | An operation that always fails waits min(b^(n-1) - 1)/(b - 1) in all over its n attempts, or min(n - 1) for b = 1 |
| `Retry.BackoffDelays` | async_grpc/retry.cc:54-64 | The k-th delay of a limited backoff is min * b^k, for any minimum, factor, number of attempts and failures (README.md:202-209 shows 100, 200, 400 and 800 ms) |
| `Retry.UnrecoverableIff` | async_grpc/retry.cc:82-87 | With unrecoverable codes a call succeeds if and only if a success comes before the first such failure |
| `Retry.ConstantDelays` | async_grpc/retry.cc:66-68 | With a constant delay every delay is that one and n of them take n times as long, for any codes and failures |
| `Retry.UnlimitedGoesOnIff` | async_grpc/retry.cc:43-52 | It goes on after n attempts if and only if all of them failed with codes that are not unrecoverable; without such codes it goes on as long as they fail |
| `UnaryClient.RetryWithStrategy` | async_grpc/retry.cc:89-117 | Watched for any number of attempts: still retrying exactly if none of them is the last; otherwise true if and only if success is reachable, after exactly the attempts up to the first stop and the delays the strategy asks for in between; with a reset function no context is used twice |
| `UnaryClient.UnaryCall.Attempt` | async_grpc/client.h:102-113 | Uses the current context and leaves status and response of this attempt |
| `UnaryClient.UnaryCall.Reset` | async_grpc/client.h:93-100 | A new context with the shared deadline |
| `UnaryClient.UnaryClient.Write` | async_grpc/client.h:70-88 | Likewise; without a timeout no context has a deadline, with one all attempts share the deadline now + timeout, each has a fresh context of its own, status and response are those of the last attempt, and the result says whether it succeeded |
| `AsyncClient.StreamingReports` | async_grpc/async_client.h:134-202 | On every run at most one operation is outstanding; the callback gets the messages in order and then at most one closing report, exactly one once nothing is outstanding; without a callback nothing is reported |
| `AsyncClient.ClosingStatus` | async_grpc/async_client.h:159-202 | The closing report says OK exactly if writing the request and finishing the call both succeeded, and INTERNAL, code 13, otherwise |
| `AsyncClient.StreamingClient.WriteAsync` | async_grpc/async_client.h:134-141 | Starts one more operation, the write of a request |
| `AsyncClient.StreamingClient.HandleWriteEvent` | async_grpc/async_client.h:159-174 | Goes on to read, or reports code 13 once and finishes the call |
| `AsyncClient.StreamingClient.HandleReadEvent` | async_grpc/async_client.h:176-187 | Reports the message with OK and reads on, or finishes the call |
| `AsyncClient.StreamingClient.HandleFinishEvent` | async_grpc/async_client.h:189-202 | Reports the end unless it was reported, with OK or code 13, and nothing ever after |
| `AsyncClient.StreamingClient.Handle` | async_grpc/async_client.h:143-157 | Every tag in use has a case of the switch |
| `AsyncClient.StreamingClient.Serve` | async_grpc/completion_queue_pool.cc:44-52 | Over a whole life of the client the callback has seen the replies and the closing report, computed from the completions alone; once nothing is outstanding its last report is OK exactly if the first and the last completion succeeded, and code 13 otherwise |
| `AsyncClient.UnaryAsyncClient.HandleFinishEvent` | async_grpc/async_client.h:92-96 | One report, with the response exactly if the status is OK |
| `MethodName.Getline` | async_grpc/server.cc:87-89 | Extracts up to the next slash or the end and continues after it |
| `MethodName.ParseMethodFullName` | async_grpc/server.cc:82-92 | Computes the parse that the lemmas below characterise |
| `MethodName.AcceptedIff` | async_grpc/server.cc:82-92 | A name parses to (service, method) if and only if both are nonempty and slash-free and the name is "/service/method", possibly followed by a slash and anything |
| `MethodName.RoundTrip` | async_grpc/server.cc:82-92 | Parsing "/service/method" gives back its parts |
| `MethodName.RejectedIff` | async_grpc/server.cc:84-90 | Exactly which names throw, fail the first check or fail the last one |

## Left out

- libgrpc, protobuf and the reader and writer objects: calls on them are recorded, not executed.
- Synchronous streaming clients (client.h): thin wrappers around gRPC calls.
- CompletionQueuePool, the thread wrappers, ExecutionContext, type traits, the test server: plumbing that would only add easy members.
- Tracing: Writer::Finish also looks up the handler's span; the model ends with the announcement.
- QueueShutdown.SpentQueuesAreSafe: is one direction; whether an Rpc with something left to send gets to send it depends on what else waits in its queue.
- EventThreads.RunEventQueue: handles a given number of events, since the loop of the source need not end, of the Rpcs of one service, and starts where no accepted call waits to be refused and no Rpc is held; `EventThreads.HandleNext` has these cases. New listeners on other event queues belong to the loops of those queues.
- EventThreads.Deliver: the completion is forwarded before the next event is handled; other interleavings are steps of the server on values (`System`).
- EventThreads.Send: likewise a Writer call that does not overlap an event.
- CompletionThreads.RunCompletionQueue: runs over the tags gRPC returns until it shuts down.
- Reuse of addresses: an Rpc keeps its index for good, a later Rpc never has the address of a freed one.
- Clocks and floating point: durations are reals, a timeout may happen whenever a thread waits.
- Integer widths: counters such as failed_attemps are unbounded.
- UnaryClient.RetryWithStrategy: is watched for a number of attempts, since with an unlimited strategy and an operation that never succeeds the loop of the source runs forever.
- UnaryClient.UnaryClient.Write: likewise.
- Retry strategies are asked after one failure or more, as the loop does; direct calls with zero or a negative count are not modelled.
- ServiceObjects.Service.HandleEvent: requires an active Rpc in the state its handler relies on; `Handling.DispatchIsExpected` proves that dispatch provides it.
- Objects.RpcObject.PerformFinish: requires what the source checks; its only caller meets it.
- Objects.RpcObject.PerformWrite: likewise.
- Draining.DrainRemoves: is about one connection without further sends that its registering thread has let go of; that gRPC completes its operations in time is not claimed.
- ServerDraining.ServerDrains: starts where no Writer call is in progress and no accepted call waits to be refused; that gRPC completes its operations in time is not claimed either.
- ServiceObjects.Service.HandleNewConnection: for a failed call while serving, which `ConnectionTheorems.LifetimeSafety` excludes, it assumes that nobody else holds the Rpc.
