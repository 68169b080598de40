/** The blocking unary client: its retry loop and the contexts it uses. */
module UnaryClient {
  import opened RpcCore
  import opened Retry

  /** A grpc::ClientContext, good for one call. */
  class Context {
    const deadline: Option<Duration>

    constructor (deadline: Option<Duration>)
      ensures this.deadline == deadline
    {
      this.deadline := deadline;
    }
  }

  /** The two closures that Client::Write hands to RetryWithStrategy, with the
      state they share. `script` and `replies` are the status and the response
      gRPC leaves behind after attempt 0, 1, 2, ... */
  class UnaryCall {
    const deadline: Option<Duration>
    const script: Script
    const replies: nat -> Message
    var context: Context
    var status: Status
    var response: Message
    var used: seq<Context>           // the context of each attempt made so far

    constructor (context: Context, script: Script, replies: nat -> Message, response: Message)
      ensures this.context == context && deadline == context.deadline && this.script == script
      ensures this.replies == replies && this.response == response && used == []
    {
      this.context, deadline, this.script, this.replies := context, context.deadline, script, replies;
      this.response, status, used := response, Status(0), [];
    }

    /** Every attempt so far had a context of its own with the shared
        deadline, and the next one will too. */
    ghost predicate FreshContexts()
      reads this
    {
      && (forall i :: 0 <= i < |used| ==> used[i].deadline == deadline && used[i] != context)
      && (forall i, j :: 0 <= i < j < |used| ==> used[i] != used[j])
      && context.deadline == deadline
    }

    /** WriteImpl. */
    method Attempt()
      modifies this
      ensures used == old(used) + [context] && context == old(context)
      ensures status == script(|old(used)|) && response == replies(|old(used)|)
    {
      status, response := script(|used|), replies(|used|);
      used := used + [context];
    }

    /** ResetContext. */
    method Reset()
      modifies this
      ensures fresh(context) && context.deadline == deadline
      ensures used == old(used) && status == old(status) && response == old(response)
    {
      context := new Context(deadline);
    }
  }

  /** Attempts 0 to n were made, the last one decides, and the thread slept
      for the strategy's delays in between. */
  ghost predicate EndedAfter(strategy: Option<RetryStrategy>, script: Script, n: nat, attempts: nat, ok: bool,
                        slept: seq<Duration>) {
    && FirstStop(strategy, script, n) && attempts == n + 1 && ok == script(n).Ok()
    && slept == Delays(strategy, script, n)
  }

  lemma StopsHere(strategy: Option<RetryStrategy>, script: Script, n: nat, budget: nat)
    requires GoesOn(strategy, script, n) && Stops(strategy, script, n) && n < budget
    ensures !GoesOn(strategy, script, budget) && FirstStop(strategy, script, n)
    ensures script(n).Ok() <==> Succeeds(strategy, script)
  {
    LastAttemptDecides(strategy, script, n);
  }

  lemma GoesFurther(strategy: Option<RetryStrategy>, script: Script, n: nat, delay: Duration)
    requires GoesOn(strategy, script, n) && !script(n).Ok() && strategy.Some?
    requires strategy.value(n + 1, script(n)) == Some(delay)
    ensures GoesOn(strategy, script, n + 1)
    ensures Delays(strategy, script, n + 1) == Delays(strategy, script, n) + [delay]
  {}

  /** RetryWithStrategy, watched for up to `budget` attempts, since it need not
      end: the result is None while it is still retrying. `resets` says whether a
      reset function was given. */
  method RetryWithStrategy(strategy: Option<RetryStrategy>, op: UnaryCall, resets: bool, budget: nat)
    returns (result: Option<bool>, slept: seq<Duration>)
    requires op.used == []
    modifies op
    ensures result == None <==> GoesOn(strategy, op.script, budget)
    ensures result == None ==> |op.used| == budget
    ensures result.Some? ==> (result.value <==> Succeeds(strategy, op.script))
    ensures result.Some? ==> |op.used| > 0 && EndedAfter(strategy, op.script, |op.used| - 1, |op.used|, result.value, slept)
    ensures |op.used| > 0 ==> op.status == op.script(|op.used| - 1) && op.response == op.replies(|op.used| - 1)
    ensures resets && old(op.context.deadline == op.deadline) ==>
      && (forall i :: 0 <= i < |op.used| ==> op.used[i].deadline == op.deadline)
      && (forall i, j :: 0 <= i < j < |op.used| ==> op.used[i] != op.used[j])
    ensures forall i :: 0 <= i < |op.used| ==> op.used[i] == old(op.context) || (resets && fresh(op.used[i]))
  {
    var failedAttempts := 0;
    slept := [];
    while failedAttempts < budget
      invariant |op.used| == failedAttempts <= budget && |slept| == failedAttempts
      invariant GoesOn(strategy, op.script, failedAttempts) && slept == Delays(strategy, op.script, failedAttempts)
      invariant failedAttempts > 0 ==>
        op.status == op.script(failedAttempts - 1) && op.response == op.replies(failedAttempts - 1)
      invariant resets && old(op.context.deadline == op.deadline) ==> op.FreshContexts()
      invariant op.context == old(op.context) || (resets && fresh(op.context))
      invariant forall i :: 0 <= i < |op.used| ==> op.used[i] == old(op.context) || (resets && fresh(op.used[i]))
    {
      ghost var i := failedAttempts;
      op.Attempt();
      if op.status.Ok() {
        StopsHere(strategy, op.script, i, budget);
        return Some(true), slept;
      }
      if strategy.None? {
        StopsHere(strategy, op.script, i, budget);
        return Some(false), slept;
      }
      failedAttempts := failedAttempts + 1;
      var delay := strategy.value(failedAttempts, op.status);
      if delay.None? {
        StopsHere(strategy, op.script, i, budget);
        return Some(false), slept;
      }
      GoesFurther(strategy, op.script, i, delay.value);
      slept := slept + [delay.value];
      if resets { op.Reset(); }
    }
    result := None;
  }

  /** Client<..., NORMAL_RPC>. */
  class UnaryClient {
    const timeout: Option<Duration>
    const strategy: Option<RetryStrategy>
    var context: Context
    var response: Message

    constructor (timeout: Option<Duration>, strategy: Option<RetryStrategy>)
      ensures this.timeout == timeout && this.strategy == strategy && fresh(context)
    {
      this.timeout, this.strategy := timeout, strategy;
      context := new Context(None);
      response := 0;
    }

    /** Write, started at time `now` and watched for up to `budget` attempts: all
        attempts share one deadline and none reuses a context; the status and
        the response are those of the last one. */
    method Write(now: Duration, script: Script, replies: nat -> Message, budget: nat)
      returns (result: Option<bool>, status: Status, used: seq<Context>, slept: seq<Duration>)
      modifies this
      ensures result == None <==> GoesOn(strategy, script, budget)
      ensures result == None ==> |used| == budget
      ensures result.Some? ==> (result.value <==> Succeeds(strategy, script)) && (result.value <==> status.Ok())
      ensures result.Some? ==> |used| > 0 && EndedAfter(strategy, script, |used| - 1, |used|, result.value, slept)
      ensures |used| > 0 ==> status == script(|used| - 1) && response == replies(|used| - 1)
      ensures forall i :: 0 <= i < |used| ==> fresh(used[i])
      ensures timeout.None? ==> forall i :: 0 <= i < |used| ==> used[i].deadline == None
      ensures timeout.Some? ==> forall i :: 0 <= i < |used| ==> used[i].deadline == Some(now + timeout.value)
      ensures forall i, j :: 0 <= i < j < |used| ==> used[i] != used[j]
    {
      context := new Context(if timeout.Some? then Some(now + timeout.value) else None);
      var op := new UnaryCall(context, script, replies, response);
      result, slept := RetryWithStrategy(strategy, op, true, budget);
      context, response := op.context, op.response;
      status, used := op.status, op.used;
    }
  }
}
