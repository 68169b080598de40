/** The asynchronous clients: event handlers that report to a callback. */
module AsyncClient {
  import opened RpcCore
  import opened Sequences

  const INTERNAL := 13

  datatype Op = WriteOp | ReadOp | FinishOp

  /** One invocation of the user's callback. */
  datatype Report = Report(status: Status, response: Option<Message>)

  /** gRPC completes an operation; `msg` is what a successful read stored. */
  datatype Delivery = Delivery(op: Op, ok: bool, msg: Message)

  datatype State = State(
    callback: bool,             // callback_ is set
    response: Message,
    finishStatus: Status,
    outstanding: multiset<Op>,  // operations gRPC has not completed yet
    reports: seq<Report>)       // history

  // ---------------------------------------------------------------------
  // The server-streaming client, on values

  function Begun(callback: bool): State {
    State(callback, 0, Status(0), multiset{WriteOp}, [])
  }

  function StartOp(s: State, op: Op): State {
    s.(outstanding := s.outstanding + multiset{op})
  }

  function Store(s: State, d: Delivery): State {
    s.(outstanding := s.outstanding - multiset{d.op},
       response := if d.op == ReadOp && d.ok then d.msg else s.response)
  }

  function Tell(s: State, r: Report): State {
    if s.callback then s.(reports := s.reports + [r]) else s
  }

  function HandleWrite(s: State, ok: bool): State {
    if ok then StartOp(s, ReadOp)
    else
      var told := Tell(s, Report(Status(INTERNAL), None));
      StartOp(told.(callback := false, finishStatus := Status(INTERNAL)), FinishOp)
  }

  function HandleRead(s: State, ok: bool): State {
    if ok then StartOp(Tell(s, Report(Status(0), Some(s.response))), ReadOp)
    else StartOp(s.(finishStatus := Status(0)), FinishOp)
  }

  function HandleFinish(s: State, ok: bool): State {
    Tell(s, Report(Status(if ok then 0 else INTERNAL), None)).(callback := false)
  }

  function HandleEvent(s: State, op: Op, ok: bool): State {
    match op
    case WriteOp => HandleWrite(s, ok)
    case ReadOp => HandleRead(s, ok)
    case FinishOp => HandleFinish(s, ok)
  }

  function Next(s: State, d: Delivery): State {
    HandleEvent(Store(s, d), d.op, d.ok)
  }

  function Run(s: State, ds: seq<Delivery>): State
    decreases |ds|
  {
    if ds == [] then s else Next(Run(s, Init(ds)), Last(ds))
  }

  /** gRPC completes only what is outstanding. */
  predicate IsRun(s: State, ds: seq<Delivery>) {
    forall i :: 0 <= i < |ds| ==> Offered(s, ds, i)
  }

  predicate Offered(s: State, ds: seq<Delivery>, i: nat)
    requires i < |ds|
  {
    ds[i].op in Run(s, ds[..i]).outstanding
  }

  // ---------------------------------------------------------------------
  // What the callback sees, from the completions alone

  /** One report per message read, in order. */
  function Replies(ds: seq<Delivery>): seq<Report>
    decreases |ds|
  {
    if ds == [] then []
    else
      Replies(Init(ds)) +
      (if Last(ds).op == ReadOp && Last(ds).ok then [Report(Status(0), Some(Last(ds).msg))] else [])
  }

  /** The closing report: at once if the request could not be written, and
      otherwise when the call is finished. */
  function Closing(ds: seq<Delivery>): (rs: seq<Report>)
    ensures |rs| <= 1 && forall r :: r in rs ==> r.response == None
  {
    if ds == [] then []
    else if !ds[0].ok && ds[0].op == WriteOp then [Report(Status(INTERNAL), None)]
    else if Ended(ds) then [Report(Status(if Last(ds).ok then 0 else INTERNAL), None)]
    else []
  }

  predicate Ended(ds: seq<Delivery>) {
    ds != [] && Last(ds).op == FinishOp
  }

  function Awaited(ds: seq<Delivery>): multiset<Op> {
    if ds == [] then multiset{WriteOp}
    else if Ended(ds) then multiset{}
    else if !Last(ds).ok then multiset{FinishOp}
    else multiset{ReadOp}
  }

  predicate Inv(given: bool, ds: seq<Delivery>, s: State) {
    && s.reports == (if given then Replies(ds) + Closing(ds) else [])
    && s.callback == (given && Closing(ds) == [])
    && s.outstanding == Awaited(ds)
    && (ds != [] ==> ds[0].op == WriteOp)
    && (ds != [] && !ds[0].ok ==> Replies(ds) == [] && (Ended(ds) || !Last(ds).ok))
  }

  lemma WriteKeeps(given: bool, ds: seq<Delivery>, s: State)
    requires |ds| == 1 && Last(ds).op == WriteOp && Inv(given, Init(ds), s) && s.outstanding == multiset{WriteOp}
    ensures Inv(given, ds, Next(s, Last(ds)))
  {
    assert Replies(Init(ds)) == [];
    assert s.outstanding - multiset{WriteOp} == multiset{};
  }

  lemma ReadKeeps(given: bool, ds: seq<Delivery>, s: State)
    requires |ds| > 1 && Last(ds).op == ReadOp && Inv(given, Init(ds), s) && s.outstanding == multiset{ReadOp}
    ensures Inv(given, ds, Next(s, Last(ds)))
  {
    assert s.outstanding - multiset{ReadOp} == multiset{};
    assert Init(ds)[0] == ds[0];
  }

  lemma FinishKeeps(given: bool, ds: seq<Delivery>, s: State)
    requires |ds| > 1 && Last(ds).op == FinishOp && Inv(given, Init(ds), s) && s.outstanding == multiset{FinishOp}
    ensures Inv(given, ds, Next(s, Last(ds)))
  {
    assert s.outstanding - multiset{FinishOp} == multiset{};
    assert Init(ds)[0] == ds[0];
  }

  lemma StepKeeps(given: bool, ds: seq<Delivery>, s: State)
    requires ds != [] && Inv(given, Init(ds), s) && Last(ds).op in s.outstanding
    ensures Inv(given, ds, Next(s, Last(ds)))
  {
    match Last(ds).op {
      case WriteOp => WriteKeeps(given, ds, s);
      case ReadOp => ReadKeeps(given, ds, s);
      case FinishOp => FinishKeeps(given, ds, s);
    }
  }

  lemma RunInit(s: State, ds: seq<Delivery>)
    requires IsRun(s, ds) && ds != []
    ensures IsRun(s, Init(ds)) && Last(ds).op in Run(s, Init(ds)).outstanding
  {
    forall i | 0 <= i < |Init(ds)| ensures Offered(s, Init(ds), i) {
      assert Offered(s, ds, i) && Init(ds)[..i] == ds[..i];
    }
    assert Offered(s, ds, |ds| - 1);
  }

  lemma {:induction false} RunKeeps(given: bool, ds: seq<Delivery>)
    requires IsRun(Begun(given), ds)
    ensures Inv(given, ds, Run(Begun(given), ds))
    decreases |ds|
  {
    if ds != [] {
      RunInit(Begun(given), ds);
      RunKeeps(given, Init(ds));
      StepKeeps(given, ds, Run(Begun(given), Init(ds)));
    }
  }

  /** On every run at most one operation is outstanding; the callback gets the
      messages in order and then at most one closing report; once nothing is
      outstanding it got exactly one. Without a callback nothing is reported. */
  lemma {:induction false} StreamingReports(given: bool, ds: seq<Delivery>)
    requires IsRun(Begun(given), ds)
    ensures var s := Run(Begun(given), ds);
      && |s.outstanding| <= 1
      && s.reports == (if given then Replies(ds) + Closing(ds) else [])
      && (s.outstanding == multiset{} ==> |Closing(ds)| == 1)
  {
    RunKeeps(given, ds);
  }

  /** The closing report says OK exactly when writing the request and finishing
      the call both succeeded, and INTERNAL, which is 13, otherwise; the server's
      own status plays no part in it. */
  lemma {:induction false} ClosingStatus(given: bool, ds: seq<Delivery>)
    requires IsRun(Begun(given), ds) && Run(Begun(given), ds).outstanding == multiset{}
    ensures |ds| >= 2 && |Closing(ds)| == 1 && Closing(ds)[0].response == None
    ensures Closing(ds)[0].status.Ok() <==> ds[0].ok && Last(ds).ok
    ensures Closing(ds)[0].status.code == if ds[0].ok && Last(ds).ok then 0 else 13
  {
    RunKeeps(given, ds);
  }

  /** It is what the callback sees last. */
  lemma LastReport(ds: seq<Delivery>)
    requires IsRun(Begun(true), ds) && Run(Begun(true), ds).outstanding == multiset{}
    ensures |ds| >= 2 && Replies(ds) + Closing(ds) != []
    ensures Last(Replies(ds) + Closing(ds)) == Report(Status(if ds[0].ok && Last(ds).ok then 0 else 13), None)
  {
    ClosingStatus(true, ds);
  }

  lemma RunAt(s: State, ds: seq<Delivery>, i: nat)
    requires i < |ds|
    ensures Run(s, ds[..i + 1]) == Next(Run(s, ds[..i]), ds[i])
  {
    var p := ds[..i + 1];
    assert Init(p) == ds[..i] && Last(p) == ds[i];
  }

  // ---------------------------------------------------------------------
  // The objects

  /** AsyncClient<..., SERVER_STREAMING>. */
  class StreamingClient {
    var callback: bool
    var response: Message
    var finishStatus: Status
    var outstanding: multiset<Op>
    var reports: seq<Report>

    ghost function Value(): State
      reads this
    {
      State(callback, response, finishStatus, outstanding, reports)
    }

    constructor (callback: bool)
      ensures Value() == State(callback, 0, Status(0), multiset{}, [])
    {
      this.callback, response, finishStatus, outstanding, reports := callback, 0, Status(0), multiset{}, [];
    }

    method WriteAsync()
      modifies this
      ensures Value() == StartOp(old(Value()), WriteOp)
    {
      outstanding := outstanding + multiset{WriteOp};
    }

    /** gRPC's side of a completion. */
    method Complete(d: Delivery)
      requires d.op in outstanding
      modifies this
      ensures Value() == Store(old(Value()), d)
    {
      outstanding := outstanding - multiset{d.op};
      if d.op == ReadOp && d.ok { response := d.msg; }
    }

    /** Invokes callback_ if it is set. */
    method Call(status: Status, withResponse: bool)
      modifies this
      ensures Value() == Tell(old(Value()), Report(status, if withResponse then Some(old(response)) else None))
    {
      if callback {
        reports := reports + [Report(status, if withResponse then Some(response) else None)];
      }
    }

    method HandleWriteEvent(ok: bool)
      modifies this
      ensures Value() == HandleWrite(old(Value()), ok)
      ensures reports == old(reports) + (if !ok && old(callback) then [Report(Status(13), None)] else [])
      ensures callback == (old(callback) && ok) && (!ok ==> finishStatus == Status(13))
      ensures outstanding == old(outstanding) + multiset{if ok then ReadOp else FinishOp}
    {
      if !ok {
        var status := Status(INTERNAL);
        if callback {
          Call(status, false);
          callback := false;
        }
        finishStatus := status;
        outstanding := outstanding + multiset{FinishOp};
        return;
      }
      outstanding := outstanding + multiset{ReadOp};
    }

    method HandleReadEvent(ok: bool)
      modifies this
      ensures Value() == HandleRead(old(Value()), ok)
      ensures reports == old(reports) + (if ok && old(callback) then [Report(Status(0), Some(response))] else [])
      ensures callback == old(callback) && response == old(response) && (!ok ==> finishStatus == Status(0))
      ensures outstanding == old(outstanding) + multiset{if ok then ReadOp else FinishOp}
    {
      if ok {
        if callback { Call(Status(0), true); }
        outstanding := outstanding + multiset{ReadOp};
      } else {
        finishStatus := Status(0);
        outstanding := outstanding + multiset{FinishOp};
      }
    }

    method HandleFinishEvent(ok: bool)
      modifies this
      ensures Value() == HandleFinish(old(Value()), ok)
      ensures reports == old(reports) + (if old(callback) then [Report(Status(if ok then 0 else 13), None)] else [])
      ensures !callback && outstanding == old(outstanding)
    {
      if callback {
        Call(if ok then Status(0) else Status(INTERNAL), false);
        callback := false;
      }
    }

    /** The switch of HandleEvent has a case for every tag in use. */
    method Handle(op: Op, ok: bool)
      modifies this
      ensures Value() == HandleEvent(old(Value()), op, ok)
    {
      match op {
        case WriteOp => HandleWriteEvent(ok);
        case ReadOp => HandleReadEvent(ok);
        case FinishOp => HandleFinishEvent(ok);
      }
    }

    method Deliver(d: Delivery)
      requires d.op in outstanding
      modifies this
      ensures Value() == Next(old(Value()), d)
    {
      Complete(d);
      Handle(d.op, d.ok);
    }

    /** A whole life of the client: one request, then the completion queue's
        thread hands over what gRPC completes. */
    method Serve(ds: seq<Delivery>)
      requires Value() == State(callback, 0, Status(0), multiset{}, []) && IsRun(Begun(callback), ds)
      modifies this
      ensures Value() == Run(Begun(old(callback)), ds)
      ensures reports == if old(callback) then Replies(ds) + Closing(ds) else []
      ensures outstanding == multiset{} && old(callback) ==>
        reports != [] && |ds| >= 2 && Last(reports) == Report(Status(if ds[0].ok && Last(ds).ok then 0 else 13), None)
    {
      ghost var start := Begun(callback);
      WriteAsync();
      for i := 0 to |ds|
        invariant Value() == Run(start, ds[..i])
      {
        RunAt(start, ds, i);
        assert Offered(start, ds, i);
        Deliver(ds[i]);
      }
      assert ds[..|ds|] == ds;
      StreamingReports(start.callback, ds);
      if outstanding == multiset{} && start.callback { LastReport(ds); }
    }
  }

  /** AsyncClient<..., NORMAL_RPC>: one Finish operation, one report. */
  class UnaryAsyncClient {
    const callback: bool
    var response: Message
    var status: Status
    var reports: seq<Report>

    constructor (callback: bool)
      ensures this.callback == callback && reports == []
    {
      this.callback, response, status, reports := callback, 0, Status(0), [];
    }

    /** gRPC fills in status and response, then the FINISH tag arrives, with
        any outcome. */
    method HandleFinishEvent(ok: bool, newStatus: Status, newResponse: Message)
      modifies this
      ensures status == newStatus && response == newResponse
      ensures reports == old(reports) +
        if callback then [Report(newStatus, if newStatus.Ok() then Some(newResponse) else None)] else []
    {
      status, response := newStatus, newResponse;
      if callback {
        reports := reports + [Report(status, if status.Ok() then Some(response) else None)];
      }
    }
  }
}
