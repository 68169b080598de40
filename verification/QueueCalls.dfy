/** What the callers of a `BlockingQueue` get, told from the calls they make: on
    every interleaving a call ends only by doing what it was called for, when that
    is possible, or by giving up when its time is over and it is not. */
module QueueCalls {
  import opened RpcCore
  import opened Sequences
  import opened Monitor

  lemma {:induction false} UpToLast<T>(m: Mon<T>, steps: seq<Step<T>>)
    requires IsRun(m, steps) && steps != []
    ensures IsRun(m, Init(steps)) && Enabled(Run(m, Init(steps)), Last(steps))
    ensures Run(m, steps) == Next(Run(m, Init(steps)), Last(steps))
    decreases |steps|
  {
    if |steps| > 1 {
      UpToLast(Next(m, steps[0]), steps[1..]);
      assert Init(steps)[1..] == Init(steps[1..]);
    }
  }

  /** The latest call of thread `t`. */
  function Asked<T>(steps: seq<Step<T>>, t: nat): Option<Step<T>>
    decreases |steps|
  {
    if steps == [] then None
    else if Last(steps).Call? && Last(steps).t == t then Some(Last(steps))
    else Asked(Init(steps), t)
  }

  /** Its time has run out since. */
  predicate Expired<T>(steps: seq<Step<T>>, t: nat)
    decreases |steps|
  {
    && steps != [] && !(Last(steps).Call? && Last(steps).t == t)
    && (Last(steps) == Expire(t) || Expired(Init(steps), t))
  }

  /** The thread is inside a call with these arguments, which it has not forgotten;
      it acts as if its time were over only if it is. */
  ghost predicate InCall<T>(pc: Pc<T>, op: Op<T>, timed: bool, over: bool) {
    match pc
    case Entering(o, d) => o == op && d == timed
    case Sleeping(o, d) => o == op && d == timed
    case Checking(o, d, expired) => o == op && d == timed && (expired ==> timed && over)
    case Waking(o, d, expired) => o == op && d == timed && (expired ==> timed && over)
    case Working(o) => o == op
    case Leaving => true
    case Notifying => true
  }

  lemma InCallStep<T>(m: Mon<T>, s: Step<T>, t: nat, op: Op<T>, timed: bool, over: bool)
    requires Enabled(m, s) && t in Next(m, s).threads
    ensures if s.Call? && s.t == t then InCall(Next(m, s).threads[t], s.op, s.timed, false)
      else
        && t in m.threads
        && (InCall(m.threads[t], op, timed, over) ==>
              InCall(Next(m, s).threads[t], op, timed, over || s == Expire(t)))
  {}

  /** Whoever is inside a call is inside the one it made last. */
  lemma {:induction false} CallIsServed<T>(capacity: nat, steps: seq<Step<T>>, t: nat)
    requires IsRun(Empty<T>(capacity), steps) && t in Run(Empty<T>(capacity), steps).threads
    ensures var call := Asked(steps, t);
      call.Some? && call.value.Call? && call.value.t == t &&
      InCall(Run(Empty<T>(capacity), steps).threads[t], call.value.op, call.value.timed, Expired(steps, t))
    decreases |steps|
  {
    var m := Empty<T>(capacity);
    if steps != [] {
      UpToLast(m, steps);
      var before := Run(m, Init(steps));
      InCallStep(before, Last(steps), t, ObserveOp, false, false);
      if !(Last(steps).Call? && Last(steps).t == t) {
        CallIsServed(capacity, Init(steps), t);
        var call := Asked(steps, t).value;
        InCallStep(before, Last(steps), t, call.op, call.timed, Expired(Init(steps), t));
      }
    }
  }

  // ---------------------------------------------------------------------
  // Values

  /** The values that were pushed, in the order in which their Push calls did their work. */
  function PushedBy<T>(steps: seq<Step<T>>): seq<T>
    decreases |steps|
  {
    if steps == [] then []
    else
      PushedBy(Init(steps)) +
      match Last(steps)
      case Work(t) => ValueOf(Asked(Init(steps), t))
      case _ => []
  }

  function ValueOf<T>(call: Option<Step<T>>): seq<T> {
    if call.Some? && call.value.Call? && call.value.op.PushOp? then [call.value.op.value] else []
  }

  lemma WorkPushes<T>(m: Mon<T>, s: Step<T>)
    requires Enabled(m, s)
    ensures Next(m, s).pushed ==
      m.pushed + (if s.Work? && m.threads[s.t].op.PushOp? then [m.threads[s.t].op.value] else [])
  {}

  /** On every interleaving, what was popped and what is in the queue are the values
      the callers of Push passed, in the order in which these did their work. */
  lemma {:induction false} FirstInFirstOut<T>(capacity: nat, steps: seq<Step<T>>)
    requires IsRun(Empty<T>(capacity), steps)
    ensures var m := Run(Empty<T>(capacity), steps); m.popped + m.deque == PushedBy(steps)
  {
    QueueIsCorrect(capacity, steps);
    PushesAreRecorded(capacity, steps);
  }

  lemma {:induction false} PushesAreRecorded<T>(capacity: nat, steps: seq<Step<T>>)
    requires IsRun(Empty<T>(capacity), steps)
    ensures Run(Empty<T>(capacity), steps).pushed == PushedBy(steps)
    decreases |steps|
  {
    if steps != [] {
      UpToLast(Empty<T>(capacity), steps);
      PushesAreRecorded(capacity, Init(steps));
      WorkPushes(Run(Empty<T>(capacity), Init(steps)), Last(steps));
      if Last(steps).Work? { CallIsServed(capacity, Init(steps), Last(steps).t); }
    }
  }

  // ---------------------------------------------------------------------
  // The end of a call

  /** What a call does to the contents `q`, leaving `q'`. */
  ghost predicate Does<T>(op: Op<T>, capacity: nat, q: seq<T>, q': seq<T>) {
    match op
    case PushOp(v) => (capacity == 0 || |q| < capacity) && q' == q + [v]
    case PopOp => q != [] && q' == q[1..]
    case WaitUntilEmptyOp => q == [] && q' == []
    case ObserveOp => q' == q
  }

  /** There is nothing it could do. */
  predicate Cannot<T>(op: Op<T>, capacity: nat, q: seq<T>) {
    match op
    case PushOp(_) => capacity != 0 && |q| == capacity
    case PopOp => q == []
    case WaitUntilEmptyOp => q != []
    case ObserveOp => false
  }

  /** The thread has done what its call is for, or has given up. */
  predicate IsOver<T>(m: Mon<T>, t: nat) {
    t in m.threads && (m.threads[t].Leaving? || m.threads[t].Notifying?)
  }

  /** On every interleaving, the step that ends a call does what the call was made
      for and nothing else, and a Pop returns the oldest value; or the call had a
      timeout, that is over, and there is still nothing it could do. */
  lemma CallEnds<T>(capacity: nat, steps: seq<Step<T>>, s: Step<T>, t: nat)
    requires IsRun(Empty<T>(capacity), steps) && Enabled(Run(Empty<T>(capacity), steps), s)
    requires t in Run(Empty<T>(capacity), steps).threads && !IsOver(Run(Empty<T>(capacity), steps), t)
    requires IsOver(Next(Run(Empty<T>(capacity), steps), s), t)
    ensures var call := Asked(steps, t);
      && call.Some? && call.value.Call?
      && var m := Run(Empty<T>(capacity), steps);
      var op, m' := call.value.op, Next(m, s);
      if s == Work(t)
      then
        && Does(op, capacity, m.deque, m'.deque)
        && m'.popped == m.popped + (if op == PopOp then [m.deque[0]] else [])
      else s == Check(t) && call.value.timed && Expired(steps, t) && Cannot(op, capacity, m.deque) && m'.deque == m.deque
  {
    CallIsServed(capacity, steps, t);
    EmptyInv<T>(capacity);
    RunKeeps(Empty<T>(capacity), steps);
    var call := Asked(steps, t).value;
    EndStep(Run(Empty<T>(capacity), steps), s, t, call.op, call.timed, Expired(steps, t));
  }

  lemma EndStep<T>(m: Mon<T>, s: Step<T>, t: nat, op: Op<T>, timed: bool, over: bool)
    requires Inv(m) && Enabled(m, s) && t in m.threads && !IsOver(m, t) && IsOver(Next(m, s), t)
    requires InCall(m.threads[t], op, timed, over)
    ensures var m' := Next(m, s);
      if s == Work(t)
      then
        && Does(op, m.capacity, m.deque, m'.deque)
        && m'.popped == m.popped + (if op == PopOp then [m.deque[0]] else [])
      else s == Check(t) && timed && over && Cannot(op, m.capacity, m.deque) && m'.deque == m.deque
  {}

  // ---------------------------------------------------------------------
  // Timeouts

  /** The thread's time is over, or it does not need it any more. */
  predicate NeverSleeps<T>(pc: Pc<T>) {
    || ((pc.Waking? || pc.Checking?) && pc.expired)
    || pc.Working? || pc.Leaving? || pc.Notifying?
  }

  lemma NeverSleepsStep<T>(m: Mon<T>, s: Step<T>, t: nat)
    requires Enabled(m, s) && t in m.threads && NeverSleeps(m.threads[t]) && s != NotifyAll(t)
    ensures t in Next(m, s).threads && NeverSleeps(Next(m, s).threads[t])
  {}

  /** Once the time of a call is over, the call does not wait again: whatever all
      threads do, until it returns its thread is awake and on its way to the end. */
  lemma TimeoutEndsWaiting<T>(m: Mon<T>, t: nat, steps: seq<Step<T>>)
    requires Enabled(m, Expire(t)) && IsRun(Next(m, Expire(t)), steps) && NotifyAll(t) !in steps
    ensures var m' := Run(Next(m, Expire(t)), steps); t in m'.threads && NeverSleeps(m'.threads[t])
  {
    StaysAwake(Next(m, Expire(t)), t, steps);
  }

  lemma {:induction false} StaysAwake<T>(m: Mon<T>, t: nat, steps: seq<Step<T>>)
    requires IsRun(m, steps) && NotifyAll(t) !in steps && t in m.threads && NeverSleeps(m.threads[t])
    ensures t in Run(m, steps).threads && NeverSleeps(Run(m, steps).threads[t])
    decreases |steps|
  {
    if steps != [] {
      NeverSleepsStep(m, steps[0], t);
      StaysAwake(Next(m, steps[0]), t, steps[1..]);
    }
  }
}
