/** `BlockingQueue` as an object. Every stretch of a call between waits, whatever
    other threads are asleep or on their way into the queue, is proved to be a run
    of the monitor, so the methods below and the theorems about the monitor speak
    of the same queue. */
module BlockingQueues {
  import opened RpcCore
  import opened Monitor

  /** A timed call gave up. */
  function GaveUp<T>(m: Mon<T>, op: Op<T>): Mon<T> {
    m.(timeouts := m.timeouts + [Timeout(op, m.deque)])
  }

  /** The call is over and everybody was notified. */
  function Left<T>(m: Mon<T>): Mon<T> {
    m.(threads := Woken(m.threads))
  }

  function Without<T>(m: Mon<T>, t: nat): Mon<T> {
    m.(threads := m.threads - {t})
  }

  /** What a caller leaves behind when it has evaluated its predicate: it does its
      work and leaves, gives up and leaves, or falls asleep. */
  function Decided<T>(m: Mon<T>, t: nat, op: Op<T>, timed: bool, expired: bool): Mon<T> {
    if Ready(m, op) then Left(Effect(m, op))
    else if expired then Left(GaveUp(m, op))
    else Move(m, t, Sleeping(op, timed))
  }

  /** Prepends a step to a run. */
  lemma Peel<T>(m: Mon<T>, s: Step<T>, rest: seq<Step<T>>) returns (steps: seq<Step<T>>)
    requires Enabled(m, s) && IsRun(Next(m, s), rest)
    ensures IsRun(m, steps) && Run(m, steps) == Run(Next(m, s), rest)
  {
    steps := [s] + rest;
    assert steps[1..] == rest;
  }

  /** The end of every call: unlock, then notify_all. */
  lemma Leave<T>(m: Mon<T>, n: Mon<T>, t: nat) returns (steps: seq<Step<T>>)
    requires n.lock == None && t !in n.threads && m == Move(n, t, Leaving).(lock := Some(t))
    ensures IsRun(m, steps) && Run(m, steps) == Left(n)
  {
    var unlocked := Next(m, Unlock(t));
    assert Next(unlocked, NotifyAll(t)).threads == Woken(n.threads);
    assert Next(unlocked, NotifyAll(t)) == Left(n);
    steps := Peel(unlocked, NotifyAll(t), []);
    steps := Peel(m, Unlock(t), steps);
  }

  /** The caller has the lock and evaluates its predicate. */
  function Checked<T>(m: Mon<T>, t: nat, op: Op<T>, timed: bool, expired: bool): Mon<T> {
    Move(m, t, Checking(op, timed, expired)).(lock := Some(t))
  }

  lemma Serves<T>(m: Mon<T>, t: nat, op: Op<T>, timed: bool, expired: bool) returns (steps: seq<Step<T>>)
    requires m.lock == None && t !in m.threads && Ready(m, op)
    ensures var c := Checked(m, t, op, timed, expired); IsRun(c, steps) && Run(c, steps) == Left(Effect(m, op))
  {
    var checked := Checked(m, t, op, timed, expired);
    var working := Next(checked, Check(t));
    var done := Next(working, Work(t));
    assert done == Move(Effect(m, op), t, Leaving).(lock := Some(t));
    steps := Leave(done, Effect(m, op), t);
    steps := Peel(working, Work(t), steps);
    steps := Peel(checked, Check(t), steps);
  }

  /** From the lock to the end of the call or to the next wait. */
  lemma Decides<T>(m: Mon<T>, t: nat, op: Op<T>, timed: bool, expired: bool) returns (steps: seq<Step<T>>)
    requires m.lock == None && t !in m.threads
    ensures var c := Checked(m, t, op, timed, expired);
      IsRun(c, steps) && Run(c, steps) == Decided(m, t, op, timed, expired)
  {
    var checked := Checked(m, t, op, timed, expired);
    if Ready(m, op) {
      steps := Serves(m, t, op, timed, expired);
    } else if expired {
      var done := Next(checked, Check(t));
      assert done == Move(GaveUp(m, op), t, Leaving).(lock := Some(t));
      steps := Leave(done, GaveUp(m, op), t);
      steps := Peel(checked, Check(t), steps);
    } else {
      assert Next(checked, Check(t)) == Move(m, t, Sleeping(op, timed));
      steps := Peel(checked, Check(t), []);
    }
  }

  /** The beginning of a call, up to its end or its first wait. */
  lemma CallIsRun<T>(m: Mon<T>, t: nat, op: Op<T>, timed: bool) returns (steps: seq<Step<T>>)
    requires m.lock == None && t !in m.threads
    ensures IsRun(m, steps) && Run(m, steps) == Decided(m, t, op, timed, false)
  {
    var called := Next(m, Call(t, op, timed));
    assert Next(called, Acquire(t)) == Checked(m, t, op, timed, false);
    steps := Decides(m, t, op, timed, false);
    steps := Peel(called, Acquire(t), steps);
    steps := Peel(m, Call(t, op, timed), steps);
  }

  /** A thread that was asleep and is awake again, because it was notified, for no
      reason, or because its time is over: up to the end of its call or the next wait. */
  lemma WakeIsRun<T>(m: Mon<T>, t: nat) returns (steps: seq<Step<T>>)
    requires m.lock == None && t in m.threads && m.threads[t].Waking?
    ensures var pc := m.threads[t];
      IsRun(m, steps) && Run(m, steps) == Decided(Without(m, t), t, pc.op, pc.timed, pc.expired)
  {
    var pc := m.threads[t];
    assert Next(m, Acquire(t)) == Checked(Without(m, t), t, pc.op, pc.timed, pc.expired);
    steps := Decides(Without(m, t), t, pc.op, pc.timed, pc.expired);
    steps := Peel(m, Acquire(t), steps);
  }

  class BlockingQueue<T> {
    const capacity: nat            // 0 is kInfiniteQueueSize
    var deque: seq<T>
    ghost var monitor: Mon<T>      // the state this object represents

    ghost predicate Valid()
      reads this
    {
      Inv(monitor) && monitor.lock == None && monitor.capacity == capacity && monitor.deque == deque
    }

    /** Thread `t` waits in a call of `op` and is awake. */
    ghost predicate Awake(t: nat, op: Op<T>, timed: bool, expired: bool)
      reads this
    {
      t in monitor.threads && monitor.threads[t] == Waking(op, timed, expired)
    }

    constructor (capacity: nat)
      ensures Valid() && monitor == Empty(capacity) && this.capacity == capacity
    {
      this.capacity, deque, monitor := capacity, [], Empty(capacity);
    }

    predicate NotFullCondition()
      reads this
    {
      capacity == 0 || |deque| < capacity
    }

    /** Push by thread `t`: on a full queue it falls asleep ... */
    method Push(ghost t: nat, value: T) returns (done: bool)
      requires Valid() && t !in monitor.threads
      modifies this
      ensures Valid() && (done <==> capacity == 0 || |old(deque)| < capacity)
      ensures deque == if done then old(deque) + [value] else old(deque)
      ensures monitor == Decided(old(monitor), t, PushOp(value), false, false)
    {
      Begin(t, PushOp(value), false);
      done := NotFullCondition();
      if done { deque := deque + [value]; }
    }

    /** ... and looks again whenever it is awake. */
    method ResumePush(ghost t: nat, value: T) returns (done: bool)
      requires Valid() && Awake(t, PushOp(value), false, false)
      modifies this
      ensures Valid() && (done <==> capacity == 0 || |old(deque)| < capacity)
      ensures deque == if done then old(deque) + [value] else old(deque)
      ensures monitor == Decided(Without(old(monitor), t), t, PushOp(value), false, false)
    {
      Resume(t);
      done := NotFullCondition();
      if done { deque := deque + [value]; }
    }

    /** PushWithTimeout: None while the caller waits. */
    method PushWithTimeout(ghost t: nat, value: T) returns (result: Option<bool>)
      requires Valid() && t !in monitor.threads
      modifies this
      ensures Valid()
      ensures result == if capacity == 0 || |old(deque)| < capacity then Some(true) else None
      ensures deque == if result == Some(true) then old(deque) + [value] else old(deque)
      ensures monitor == Decided(old(monitor), t, PushOp(value), true, false)
    {
      Begin(t, PushOp(value), true);
      if !NotFullCondition() { return None; }
      deque := deque + [value];
      result := Some(true);
    }

    /** It returns false exactly if there is still no room when its time is over. */
    method ResumePushWithTimeout(ghost t: nat, value: T, expired: bool) returns (result: Option<bool>)
      requires Valid() && Awake(t, PushOp(value), true, expired)
      modifies this
      ensures Valid()
      ensures result ==
        if capacity == 0 || |old(deque)| < capacity then Some(true) else if expired then Some(false) else None
      ensures deque == if result == Some(true) then old(deque) + [value] else old(deque)
      ensures monitor == Decided(Without(old(monitor), t), t, PushOp(value), true, expired)
    {
      Resume(t);
      if !NotFullCondition() { return if expired then Some(false) else None; }
      deque := deque + [value];
      result := Some(true);
    }

    /** Pop by thread `t`: on an empty queue it falls asleep ... */
    method Pop(ghost t: nat) returns (value: Option<T>)
      requires Valid() && t !in monitor.threads
      modifies this
      ensures Valid() && (value == None <==> old(deque) == [])
      ensures old(deque) == (if value.Some? then [value.value] else []) + deque
      ensures monitor == Decided(old(monitor), t, PopOp, false, false)
    {
      Begin(t, PopOp, false);
      value := TakeHead();
    }

    /** ... and looks again whenever it is awake. */
    method ResumePop(ghost t: nat) returns (value: Option<T>)
      requires Valid() && Awake(t, PopOp, false, false)
      modifies this
      ensures Valid() && (value == None <==> old(deque) == [])
      ensures old(deque) == (if value.Some? then [value.value] else []) + deque
      ensures monitor == Decided(Without(old(monitor), t), t, PopOp, false, false)
    {
      Resume(t);
      value := TakeHead();
    }

    /** PopWithTimeout: the outer None while the caller waits. */
    method PopWithTimeout(ghost t: nat) returns (result: Option<Option<T>>)
      requires Valid() && t !in monitor.threads
      modifies this
      ensures Valid() && (result == None <==> old(deque) == []) && result != Some(None)
      ensures old(deque) == (if result.Some? then [result.value.value] else []) + deque
      ensures monitor == Decided(old(monitor), t, PopOp, true, false)
    {
      Begin(t, PopOp, true);
      var value := TakeHead();
      result := if value.Some? then Some(value) else None;
    }

    /** It returns nothing exactly if the queue is still empty when its time is over. */
    method ResumePopWithTimeout(ghost t: nat, expired: bool) returns (result: Option<Option<T>>)
      requires Valid() && Awake(t, PopOp, true, expired)
      modifies this
      ensures Valid() && (result == None <==> old(deque) == [] && !expired)
      ensures result == Some(None) <==> old(deque) == [] && expired
      ensures old(deque) == (if result.Some? && result.value.Some? then [result.value.value] else []) + deque
      ensures monitor == Decided(Without(old(monitor), t), t, PopOp, true, expired)
    {
      Resume(t);
      var value := TakeHead();
      result := if value.Some? || expired then Some(value) else None;
    }

    /** WaitUntilEmpty: returns on an empty queue; otherwise the caller falls asleep ... */
    method WaitUntilEmpty(ghost t: nat) returns (done: bool)
      requires Valid() && t !in monitor.threads
      modifies this
      ensures Valid() && (done <==> deque == []) && deque == old(deque)
      ensures monitor == Decided(old(monitor), t, WaitUntilEmptyOp, false, false)
    {
      Begin(t, WaitUntilEmptyOp, false);
      done := |deque| == 0;
    }

    /** ... and looks again whenever it is awake. */
    method ResumeWaitUntilEmpty(ghost t: nat) returns (done: bool)
      requires Valid() && Awake(t, WaitUntilEmptyOp, false, false)
      modifies this
      ensures Valid() && (done <==> deque == []) && deque == old(deque)
      ensures monitor == Decided(Without(old(monitor), t), t, WaitUntilEmptyOp, false, false)
    {
      Resume(t);
      done := |deque| == 0;
    }

    method TakeHead() returns (value: Option<T>)
      modifies this`deque
      ensures value == if old(deque) == [] then None else Some(old(deque)[0])
      ensures deque == if old(deque) == [] then [] else old(deque)[1..]
    {
      if |deque| == 0 { return None; }
      value, deque := Some(deque[0]), deque[1..];
    }

    /** The monitor goes through the beginning of a call ... */
    ghost method Begin(t: nat, op: Op<T>, timed: bool)
      requires Valid() && t !in monitor.threads
      modifies this`monitor
      ensures monitor == Decided(old(monitor), t, op, timed, false) && Inv(monitor) && monitor.lock == None
    {
      var steps := CallIsRun(monitor, t, op, timed);
      RunKeeps(monitor, steps);
      monitor := Decided(monitor, t, op, timed, false);
    }

    /** ... or through what follows a wait. */
    ghost method Resume(t: nat)
      requires Valid() && t in monitor.threads && monitor.threads[t].Waking?
      modifies this`monitor
      ensures var pc := old(monitor.threads[t]);
        monitor == Decided(Without(old(monitor), t), t, pc.op, pc.timed, pc.expired)
      ensures Inv(monitor) && monitor.lock == None
    {
      var pc := monitor.threads[t];
      var steps := WakeIsRun(monitor, t);
      RunKeeps(monitor, steps);
      monitor := Decided(Without(monitor, t), t, pc.op, pc.timed, pc.expired);
    }
  }
}
