/** Handling one event without interference: the action programs of a
    connection run to completion, with the sends of each handler callback
    given in advance. */
module BigStep {
  import opened RpcCore
  import opened Connection

  predicate InCallback(p: Program) {
    p.Then? && p.action == CallbackReturn
  }

  /** The handler makes its Send and Finish calls one after the other. */
  function SendAll(c: Conn, items: seq<SendItem>): Conn
    decreases |items|
  {
    if items == [] || !InCallback(c.prog) then c
    else SendAll(Next(HandlerSent(c, items[0]), Act), items[1..])
  }

  function Head(sends: seq<seq<SendItem>>): seq<SendItem> {
    if sends == [] then [] else sends[0]
  }

  function Tail(sends: seq<seq<SendItem>>): seq<seq<SendItem>> {
    if sends == [] then [] else sends[1..]
  }

  function Length(p: Program): nat {
    match p
    case Halt => 0
    case Then(a, q) =>
      (if a in {CreateHandler, CallOnRequest, CallOnReadsDone, CallOnFinish} then 2 else 1) + Length(q)
  }

  /** Runs the program to its end; the k-th callback sends sends[k]. */
  function RunProgram(c: Conn, sends: seq<seq<SendItem>>): Conn
    decreases Length(c.prog)
  {
    if c.prog == Halt || (InCallback(c.prog) && !c.active) then c
    else if InCallback(c.prog) then
      SendAllEffect(c, Head(sends));
      RunProgram(Acted(SendAll(c, Head(sends))), Tail(sends))
    else
      RunProgram(Acted(c), sends)
  }

  /** What a burst of sends amounts to. */
  function EnqueueAll(r: Rpc, items: seq<SendItem>): Rpc {
    r.(sendQueue := r.sendQueue + items, enqueued := r.enqueued + items)
  }

  function Announcements(n: nat): seq<Event> {
    seq(n, _ => WriteNeeded)
  }

  lemma SendOne(c: Conn, item: SendItem)
    requires c.active && InCallback(c.prog)
    ensures Next(HandlerSent(c, item), Act) ==
      c.(rpc := EnqueueMessage(c.rpc, item), queue := c.queue + [WriteNeeded])
  {}

  lemma EnqueueMore(r: Rpc, items: seq<SendItem>)
    requires items != []
    ensures EnqueueAll(EnqueueMessage(r, items[0]), items[1..]) == EnqueueAll(r, items)
  {
    assert r.sendQueue + [items[0]] + items[1..] == r.sendQueue + items;
    assert r.enqueued + [items[0]] + items[1..] == r.enqueued + items;
  }

  lemma {:induction false} SendAllEffect(c: Conn, items: seq<SendItem>)
    requires c.active && InCallback(c.prog)
    ensures SendAll(c, items) == c.(rpc := EnqueueAll(c.rpc, items), queue := c.queue + Announcements(|items|))
    decreases |items|
  {
    if items == [] {
      assert c.rpc.sendQueue + items == c.rpc.sendQueue && c.rpc.enqueued + items == c.rpc.enqueued;
      assert c.queue + Announcements(0) == c.queue;
    } else {
      SendOne(c, items[0]);
      SendAllEffect(Next(HandlerSent(c, items[0]), Act), items[1..]);
      EnqueueMore(c.rpc, items);
      assert c.queue + [WriteNeeded] + Announcements(|items| - 1) == c.queue + Announcements(|items|);
    }
  }

  /** A run that goes on after a burst of sends can be started before it. */
  lemma {:induction false} SendAllIsRun(c: Conn, items: seq<SendItem>, rest: seq<Step>) returns (steps: seq<Step>)
    requires c.active && InCallback(c.prog) && IsRun(SendAll(c, items), rest)
    ensures IsRun(c, steps) && Run(c, steps) == Run(SendAll(c, items), rest)
    decreases |items|
  {
    if items == [] {
      steps := rest;
    } else {
      var send := HandlerSend(items[0]);
      var c1 := Next(c, send);
      var more := SendAllIsRun(Next(c1, Act), items[1..], rest);
      RunCons(c1, Act, more);
      RunCons(c, send, [Act] + more);
      steps := [send] + ([Act] + more);
    }
  }

  /** Handling an event in one go is one of the runs of the connection, so
      everything proved of runs holds of it. */
  lemma {:induction false} RunProgramIsRun(c: Conn, sends: seq<seq<SendItem>>) returns (steps: seq<Step>)
    ensures IsRun(c, steps) && Run(c, steps) == RunProgram(c, sends)
    decreases Length(c.prog)
  {
    if c.prog == Halt || (InCallback(c.prog) && !c.active) {
      steps := [];
    } else if InCallback(c.prog) {
      SendAllEffect(c, Head(sends));
      var d := SendAll(c, Head(sends));
      var rest := RunProgramIsRun(Acted(d), Tail(sends));
      RunCons(d, Act, rest);
      steps := SendAllIsRun(c, Head(sends), [Act] + rest);
    } else {
      var rest := RunProgramIsRun(Acted(c), sends);
      RunCons(c, Act, rest);
      steps := [Act] + rest;
    }
  }

  // ---------------------------------------------------------------------
  // What handling an event amounts to

  /** A callback with the sends the handler makes before it returns. */
  function CalledBack(r: Rpc, callback: Callback, items: seq<SendItem>): Rpc {
    EnqueueAll(Invoke(r, callback), items)
  }

  /** RequestStreamingReadIfNeeded. */
  function ReadOrCalledBack(r: Rpc, sends: seq<seq<SendItem>>): Rpc {
    if r.kind.StreamsRequests() then IssueRead(r)
    else CalledBack(CalledBack(r, OnRequest(r.request), Head(sends)), OnReadsDone, Head(Tail(sends)))
  }

  function SentWhileReading(kind: Kind, sends: seq<seq<SendItem>>): nat {
    if kind.StreamsRequests() then 0 else |Head(sends)| + |Head(Tail(sends))|
  }

  /** OnConnection. */
  function ConnectedRpc(r: Rpc, sends: seq<seq<SendItem>>): Rpc {
    ReadOrCalledBack(EnqueueAll(r.(handler := true), Head(sends)), Tail(sends))
  }

  /** The memory after Service::HandleEvent. */
  function HandledRpc(r: Rpc, e: Event, ok: bool, stopping: bool, sends: seq<seq<SendItem>>): Rpc {
    match e
    case NewConnection =>
      if stopping then r else if ok then ConnectedRpc(r, sends) else Raise(r, UseAfterFree)
    case Read =>
      if ok then ReadOrCalledBack(CalledBack(r, OnRequest(r.request), Head(sends)), Tail(sends))
      else CalledBack(r, OnReadsDone, Head(sends))
    case WriteNeeded => HandleSendQueue(r)
    case Write => HandleSendQueue(r)
    case Finish => CalledBack(r, OnFinish, Head(sends))
    case Done => r
  }

  /** How many WRITE_NEEDED events were pushed meanwhile. */
  function Sent(kind: Kind, e: Event, ok: bool, stopping: bool, sends: seq<seq<SendItem>>): nat {
    match e
    case NewConnection => if stopping || !ok then 0 else |Head(sends)| + SentWhileReading(kind, Tail(sends))
    case Read => |Head(sends)|
    case Finish => |Head(sends)|
    case _ => 0
  }

  /** Whether the Rpc is still in active_rpcs_ afterwards. */
  predicate StaysActive(r: Rpc, e: Event, ok: bool, stopping: bool) {
    match e
    case NewConnection => ok && !stopping
    case Read => ok || IsAnyEventPending(r)
    case _ => IsAnyEventPending(r)
  }

  /** What the handlers rely on: NEW_CONNECTION comes before there is a handler,
      the other events after, and reads concern streaming requests. */
  predicate Expected(r: Rpc, e: Event) {
    (e == NewConnection <==> !r.handler) && (e == Read ==> r.kind.StreamsRequests())
  }

  /** The memory after the action that starts a callback. */
  function Invoked(r: Rpc, a: Action): Rpc
    requires a in {CreateHandler, CallOnRequest, CallOnReadsDone, CallOnFinish}
  {
    match a
    case CreateHandler => r.(handler := true)
    case CallOnRequest => Invoke(r, OnRequest(r.request))
    case CallOnReadsDone => Invoke(r, OnReadsDone)
    case CallOnFinish => Invoke(r, OnFinish)
  }

  lemma CallbackStarts(c: Conn)
    requires c.active && c.prog.Then? && c.prog.next.Then?
    requires c.prog.action in {CreateHandler, CallOnRequest, CallOnReadsDone, CallOnFinish}
    ensures Acted(c) == c.(rpc := Invoked(c.rpc, c.prog.action), prog := Then(CallbackReturn, c.prog.next))
  {}

  lemma ReturnRuns(c: Conn, sends: seq<seq<SendItem>>)
    requires c.active && InCallback(c.prog) && c.prog.next.Then?
    ensures RunProgram(c, sends) ==
      RunProgram(c.(rpc := EnqueueAll(c.rpc, Head(sends)), prog := c.prog.next,
                    queue := c.queue + Announcements(|Head(sends)|)), Tail(sends))
  {
    SendAllEffect(c, Head(sends));
    var d := SendAll(c, Head(sends));
    assert Acted(d) == d.(prog := c.prog.next);
  }

  lemma CallbackRuns(c: Conn, sends: seq<seq<SendItem>>)
    requires c.active && c.prog.Then? && c.prog.next.Then?
    requires c.prog.action in {CreateHandler, CallOnRequest, CallOnReadsDone, CallOnFinish}
    ensures RunProgram(c, sends) ==
      RunProgram(c.(rpc := EnqueueAll(Invoked(c.rpc, c.prog.action), Head(sends)), prog := c.prog.next,
                    queue := c.queue + Announcements(|Head(sends)|)), Tail(sends))
  {
    CallbackStarts(c);
    RunStep(c, sends);
    ReturnRuns(Acted(c), sends);
  }

  lemma AnnounceMore(q: seq<Event>, m: nat, n: nat)
    ensures q + Announcements(m) + Announcements(n) == q + Announcements(m + n)
  {}

  /** `d` is what handling event `e` makes of connection `c`. */
  predicate IsHandled(c: Conn, e: Event, ok: bool, sends: seq<seq<SendItem>>, d: Conn) {
    var r := HandledRpc(c.rpc, e, ok, c.stopping, sends);
    && d.rpc == r && d.active == StaysActive(r, e, ok, c.stopping) && d.prog == Halt
    && d.queue == c.queue + Announcements(Sent(c.rpc.kind, e, ok, c.stopping, sends))
    && d.cq == c.cq && d.writers == c.writers && d.held == c.held && d.stopping == c.stopping && d.down == c.down
  }

  /** The end of an event: removal if nothing is pending, then release. */
  lemma RemovalRuns(c: Conn, sends: seq<seq<SendItem>>)
    requires c.active && (c.prog == Then(RemoveIfNotPending, Halt) ||
                          (c.prog == Then(RemoveIfNotPending, Then(Release, Halt)) && c.pinned))
    ensures RunProgram(c, sends) == c.(active := IsAnyEventPending(c.rpc), prog := Halt, pinned := false)
  {
    var d := Acted(c);
    assert d == c.(active := IsAnyEventPending(c.rpc), prog := c.prog.next, pinned := c.pinned && c.prog.next.Then?);
    RunStep(c, sends);
    if d.prog.Then? {
      assert Acted(d) == d.(prog := Halt, pinned := false);
      RunStep(d, sends);
    }
  }

  lemma RunStep(c: Conn, sends: seq<seq<SendItem>>)
    requires c.prog.Then? && !InCallback(c.prog)
    ensures RunProgram(c, sends) == RunProgram(Acted(c), sends)
    ensures Acted(c).prog == Halt ==> RunProgram(c, sends) == Acted(c)
  {}

  lemma CallThenRemove(c: Conn, e: Event, sends: seq<seq<SendItem>>)
    requires c.active && Expected(c.rpc, e) && (e == Read || e == Finish)
    requires c.prog == ProgramFor(c.rpc.kind, e, false, c.stopping)
    ensures IsHandled(c, e, false, sends, RunProgram(c, sends))
  {
    var callback := if e == Read then OnReadsDone else OnFinish;
    var r := Invoke(c.rpc, callback);
    CallbackRuns(c, sends);
    var d := c.(rpc := EnqueueAll(r, Head(sends)), prog := Then(RemoveIfNotPending, Halt),
                queue := c.queue + Announcements(|Head(sends)|));
    RemovalRuns(d, Tail(sends));
  }

  lemma SendThenRemove(c: Conn, e: Event, sends: seq<seq<SendItem>>)
    requires c.active && (e == Write || e == WriteNeeded) && (e == WriteNeeded ==> c.pinned)
    requires c.prog == ProgramFor(c.rpc.kind, e, true, c.stopping)
    ensures IsHandled(c, e, true, sends, RunProgram(c, sends))
  {
    var d := c.(rpc := HandleSendQueue(c.rpc), prog := c.prog.next);
    assert Acted(c) == d;
    RemovalRuns(d, sends);
    assert c.queue + Announcements(0) == c.queue;
  }

  lemma DoneRuns(c: Conn, sends: seq<seq<SendItem>>)
    requires c.active && c.prog == ProgramFor(c.rpc.kind, Done, true, c.stopping)
    ensures IsHandled(c, Done, true, sends, RunProgram(c, sends))
  {
    RemovalRuns(c, sends);
    assert c.queue + Announcements(0) == c.queue;
  }

  lemma ReadOkRuns(c: Conn, sends: seq<seq<SendItem>>)
    requires c.active && Expected(c.rpc, Read)
    requires c.prog == ProgramFor(c.rpc.kind, Read, true, c.stopping)
    ensures IsHandled(c, Read, true, sends, RunProgram(c, sends))
  {
    var r := Invoke(c.rpc, OnRequest(c.rpc.request));
    CallbackRuns(c, sends);
    var d := c.(rpc := EnqueueAll(r, Head(sends)), prog := Then(StartRead, Halt),
                queue := c.queue + Announcements(|Head(sends)|));
    StartReadRuns(d, Tail(sends));
  }

  lemma StartReadRuns(c: Conn, sends: seq<seq<SendItem>>)
    requires c.active && c.prog.Then? && c.prog.action == StartRead
    requires c.prog.next == Halt || c.prog.next == CLONING
    ensures RunProgram(c, sends) == c.(rpc := IssueRead(c.rpc), prog := Halt, pinned := false)
  {
    var d := Acted(c);
    assert d == c.(rpc := IssueRead(c.rpc), prog := c.prog.next, pinned := c.pinned && c.prog.next.Then?);
    if d.prog.Then? { CloneRuns(d, sends); }
  }

  /** The actions of cloning leave the old Rpc alone. */
  lemma CloneActionRuns(c: Conn, sends: seq<seq<SendItem>>)
    requires c.active && c.prog.Then? && c.prog.action in {CloneRpc, SelectQueue, AddClone, Register, DropClone}
    ensures RunProgram(c, sends) == RunProgram(c.(prog := c.prog.next, pinned := c.pinned && c.prog.next.Then?), sends)
  {
    assert Acted(c) == c.(prog := c.prog.next, pinned := c.pinned && c.prog.next.Then?);
    RunStep(c, sends);
  }

  lemma CloneRuns(c: Conn, sends: seq<seq<SendItem>>)
    requires c.active && c.prog == CLONING
    ensures RunProgram(c, sends) == c.(prog := Halt, pinned := false)
  {
    CloneActionRuns(c, sends);
    CloneActionRuns(c.(prog := PLACING), sends);
    CloneActionRuns(c.(prog := ADDING), sends);
    CloneActionRuns(c.(prog := REGISTERING), sends);
    CloneActionRuns(c.(prog := DROPPING), sends);
  }

  lemma ServeRuns(c: Conn, sends: seq<seq<SendItem>>)
    requires c.active && !c.rpc.kind.StreamsRequests()
    requires c.prog == ReadIfNeeded(c.rpc.kind, CLONING)
    ensures RunProgram(c, sends) ==
      c.(rpc := ReadOrCalledBack(c.rpc, sends), prog := Halt, pinned := false,
         queue := c.queue + Announcements(SentWhileReading(c.rpc.kind, sends)))
  {
    var r := Invoke(c.rpc, OnRequest(c.rpc.request));
    CallbackRuns(c, sends);
    var d := c.(rpc := EnqueueAll(r, Head(sends)), prog := c.prog.next,
                queue := c.queue + Announcements(|Head(sends)|));
    var r' := Invoke(d.rpc, OnReadsDone);
    CallbackRuns(d, Tail(sends));
    AnnounceMore(c.queue, |Head(sends)|, |Head(Tail(sends))|);
    var f := d.(rpc := EnqueueAll(r', Head(Tail(sends))), prog := CLONING,
                queue := d.queue + Announcements(|Head(Tail(sends))|));
    CloneRuns(f, Tail(Tail(sends)));
  }

  lemma ConnectRuns(c: Conn, sends: seq<seq<SendItem>>)
    requires c.active && !c.stopping && Expected(c.rpc, NewConnection)
    requires c.prog == ProgramFor(c.rpc.kind, NewConnection, true, c.stopping)
    ensures IsHandled(c, NewConnection, true, sends, RunProgram(c, sends))
  {
    var r := c.rpc.(handler := true);
    CallbackRuns(c, sends);
    ReadRuns(c.(rpc := EnqueueAll(r, Head(sends)), prog := c.prog.next,
                queue := c.queue + Announcements(|Head(sends)|)), Tail(sends));
    AnnounceMore(c.queue, |Head(sends)|, SentWhileReading(c.rpc.kind, Tail(sends)));
  }

  lemma ReadRuns(c: Conn, sends: seq<seq<SendItem>>)
    requires c.active && c.prog == ReadIfNeeded(c.rpc.kind, CLONING)
    ensures RunProgram(c, sends) ==
      c.(rpc := ReadOrCalledBack(c.rpc, sends), prog := Halt, pinned := false,
         queue := c.queue + Announcements(SentWhileReading(c.rpc.kind, sends)))
  {
    if c.rpc.kind.StreamsRequests() {
      StartReadRuns(c, sends);
      assert c.queue + Announcements(0) == c.queue;
    } else {
      ServeRuns(c, sends);
    }
  }

  lemma RefuseRuns(c: Conn, ok: bool, sends: seq<seq<SendItem>>)
    requires c.active && c.stopping && c.prog == ProgramFor(c.rpc.kind, NewConnection, ok, c.stopping)
    ensures IsHandled(c, NewConnection, ok, sends, RunProgram(c, sends))
  {
    assert c.queue + Announcements(0) == c.queue;
  }

  /** The "unknown reason" branch removes the Rpc and then clones it. */
  lemma FailureRuns(c: Conn, sends: seq<seq<SendItem>>)
    requires c.active && !c.stopping && c.writers == map[] && !c.pinned && !c.held
    requires c.prog == ProgramFor(c.rpc.kind, NewConnection, false, c.stopping)
    ensures IsHandled(c, NewConnection, false, sends, RunProgram(c, sends))
  {
    var d := Acted(c);
    assert d == c.(active := false, prog := CLONING);
    assert Acted(d) == d.(rpc := Raise(c.rpc, UseAfterFree), prog := Halt);
    RunStep(c, sends);
    RunStep(d, sends);
    assert c.queue + Announcements(0) == c.queue;
  }

  /** The closed form is what the action program of the event does. */
  lemma HandledIsRun(c: Conn, e: Event, ok: bool, sends: seq<seq<SendItem>>)
    requires c.active && Expected(c.rpc, e) && (c.pinned <==> e == WriteNeeded)
    requires e == NewConnection && !ok && !c.stopping ==> c.writers == map[] && !c.held
    requires c.prog == ProgramFor(c.rpc.kind, e, ok, c.stopping)
    ensures IsHandled(c, e, ok, sends, RunProgram(c, sends))
  {
    match e
    case NewConnection =>
      if c.stopping { RefuseRuns(c, ok, sends); }
      else if ok { ConnectRuns(c, sends); }
      else { FailureRuns(c, sends); }
    case Read => if ok { ReadOkRuns(c, sends); } else { CallThenRemove(c, Read, sends); }
    case WriteNeeded => SendThenRemove(c, e, sends);
    case Write => SendThenRemove(c, e, sends);
    case Finish => CallThenRemove(c, Finish, sends);
    case Done => DoneRuns(c, sends);
  }
}
