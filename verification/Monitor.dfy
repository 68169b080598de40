/** `BlockingQueue` on top of `Mutex`, as a monitor used by any number of
    threads: lock, condition variable, timeouts and spurious wake-ups are
    separate steps. */
module Monitor {
  import opened RpcCore

  datatype Op<T> =
    | PushOp(value: T)
    | PopOp
    | WaitUntilEmptyOp
    | ObserveOp              // Peek and Size

  /** Where a thread is inside a call. */
  datatype Pc<T> =
    | Entering(op: Op<T>, timed: bool)                 // before Locker's constructor
    | Checking(op: Op<T>, timed: bool, expired: bool)  // holds the lock, evaluates the predicate
    | Sleeping(op: Op<T>, timed: bool)                 // in condition_.wait, lock released
    | Waking(op: Op<T>, timed: bool, expired: bool)    // wants the lock back
    | Working(op: Op<T>)                               // holds the lock, predicate was true
    | Leaving                                          // holds the lock, before unlock
    | Notifying                                        // unlocked, before notify_all
  {
    predicate Holding() { Checking? || Working? || Leaving? }
  }

  datatype Mon<T> = Mon(
    capacity: nat,                // 0 means unbounded
    deque: seq<T>,
    lock: Option<nat>,
    threads: map<nat, Pc<T>>,     // threads inside a call
    pushed: seq<T>,               // history: values pushed, in order
    popped: seq<T>,               // history: values returned, in order
    timeouts: seq<Timeout<T>>)    // history: timed calls that gave up

  /** A timed call that gave up, and the contents it last saw. */
  datatype Timeout<T> = Timeout(op: Op<T>, contents: seq<T>)

  predicate NotFull<T>(m: Mon<T>) {
    m.capacity == 0 || |m.deque| < m.capacity
  }

  /** The predicate the call waits for. */
  predicate Ready<T>(m: Mon<T>, op: Op<T>) {
    match op
    case PushOp(_) => NotFull(m)
    case PopOp => m.deque != []
    case WaitUntilEmptyOp => m.deque == []
    case ObserveOp => true
  }

  datatype Step<T> =
    | Call(t: nat, op: Op<T>, timed: bool)
    | Acquire(t: nat)
    | Check(t: nat)
    | Work(t: nat)
    | Unlock(t: nat)
    | NotifyAll(t: nat)
    | Spurious(t: nat)
    | Expire(t: nat)

  predicate Enabled<T>(m: Mon<T>, s: Step<T>) {
    match s
    case Call(t, _, _) => t !in m.threads
    case Acquire(t) => t in m.threads && (m.threads[t].Entering? || m.threads[t].Waking?) && m.lock == None
    case Check(t) => t in m.threads && m.threads[t].Checking?
    case Work(t) => t in m.threads && m.threads[t].Working? && (m.threads[t].op == PopOp ==> m.deque != [])
    case Unlock(t) => t in m.threads && m.threads[t].Leaving?
    case NotifyAll(t) => t in m.threads && m.threads[t].Notifying?
    case Spurious(t) => t in m.threads && m.threads[t].Sleeping?
    case Expire(t) => t in m.threads && m.threads[t].Sleeping? && m.threads[t].timed
  }

  function Move<T>(m: Mon<T>, t: nat, pc: Pc<T>): Mon<T> {
    m.(threads := m.threads[t := pc])
  }

  /** The critical section of a call whose predicate holds. */
  function Effect<T>(m: Mon<T>, op: Op<T>): Mon<T>
    requires op == PopOp ==> m.deque != []
  {
    match op
    case PushOp(v) => m.(deque := m.deque + [v], pushed := m.pushed + [v])
    case PopOp => m.(deque := m.deque[1..], popped := m.popped + [m.deque[0]])
    case _ => m
  }

  /** notify_all: every sleeping thread has to get the lock back. */
  function Woken<T>(threads: map<nat, Pc<T>>): map<nat, Pc<T>> {
    map u | u in threads ::
      if threads[u].Sleeping? then Waking(threads[u].op, threads[u].timed, false) else threads[u]
  }

  function Next<T>(m: Mon<T>, s: Step<T>): Mon<T>
    requires Enabled(m, s)
  {
    match s
    case Call(t, op, timed) => Move(m, t, Entering(op, timed))
    case Acquire(t) =>
      var pc := m.threads[t];
      Move(m, t, Checking(pc.op, pc.timed, pc.Waking? && pc.expired)).(lock := Some(t))
    case Check(t) =>
      var pc := m.threads[t];
      if Ready(m, pc.op) then Move(m, t, Working(pc.op))
      else if pc.expired then Move(m, t, Leaving).(timeouts := m.timeouts + [Timeout(pc.op, m.deque)])
      else Move(m, t, Sleeping(pc.op, pc.timed)).(lock := None)
    case Work(t) => Move(Effect(m, m.threads[t].op), t, Leaving)
    case Unlock(t) => Move(m, t, Notifying).(lock := None)
    case NotifyAll(t) => m.(threads := Woken(m.threads) - {t})
    case Spurious(t) => Move(m, t, Waking(m.threads[t].op, m.threads[t].timed, false))
    case Expire(t) => Move(m, t, Waking(m.threads[t].op, m.threads[t].timed, true))
  }

  function Empty<T>(capacity: nat): Mon<T> {
    Mon(capacity, [], None, map[], [], [], [])
  }

  // ---------------------------------------------------------------------
  // Safety

  /** A thread that is bound to call notify_all. */
  predicate WillNotify<T>(m: Mon<T>, u: nat) {
    u in m.threads && (m.threads[u].Leaving? || m.threads[u].Notifying?)
  }

  predicate Asleep<T>(m: Mon<T>, t: nat) {
    t in m.threads && m.threads[t].Sleeping?
  }

  /** A thread sleeping on a true predicate has a notification coming. */
  ghost predicate NoLostWakeup<T>(m: Mon<T>) {
    forall t :: Asleep(m, t) && Ready(m, m.threads[t].op) ==> exists u :: WillNotify(m, u)
  }

  /** A timed call gives up only if its predicate is false at that moment. */
  predicate Justified<T>(capacity: nat, x: Timeout<T>) {
    match x.op
    case PushOp(_) => capacity != 0 && |x.contents| >= capacity
    case PopOp => x.contents == []
    case WaitUntilEmptyOp => x.contents != []
    case ObserveOp => false
  }

  ghost predicate Inv<T>(m: Mon<T>) {
    && (m.lock.Some? ==> m.lock.value in m.threads && m.threads[m.lock.value].Holding())
    && (forall t :: t in m.threads && m.threads[t].Holding() ==> m.lock == Some(t))
    && (forall t :: t in m.threads && m.threads[t].Working? ==> Ready(m, m.threads[t].op))
    && m.pushed == m.popped + m.deque
    && (m.capacity != 0 ==> |m.deque| <= m.capacity)
    && (forall i :: 0 <= i < |m.timeouts| ==> Justified(m.capacity, m.timeouts[i]))
    && NoLostWakeup(m)
  }

  lemma EmptyInv<T>(capacity: nat)
    ensures Inv(Empty<T>(capacity))
  {}

  /** The lock discipline and the contents, for all steps but `Work`. */
  lemma StepKeepsLock<T>(m: Mon<T>, s: Step<T>)
    requires Inv(m) && Enabled(m, s) && !s.Work?
    ensures var m' := Next(m, s);
      && (m'.lock.Some? ==> m'.lock.value in m'.threads && m'.threads[m'.lock.value].Holding())
      && (forall t :: t in m'.threads && m'.threads[t].Holding() ==> m'.lock == Some(t))
      && (forall t :: t in m'.threads && m'.threads[t].Working? ==> Ready(m', m'.threads[t].op))
      && m'.pushed == m.pushed && m'.popped == m.popped && m'.deque == m.deque && m'.capacity == m.capacity
      && (forall i :: 0 <= i < |m'.timeouts| ==> Justified(m'.capacity, m'.timeouts[i]))
  {}

  lemma WorkKeeps<T>(m: Mon<T>, t: nat)
    requires Inv(m) && Enabled(m, Step.Work(t))
    ensures Inv(Next(m, Step.Work(t)))
  {
    var m' := Next(m, Step.Work(t));
    assert WillNotify(m', t);
    if m.threads[t].op == PopOp { assert m.deque == [m.deque[0]] + m.deque[1..]; }
  }

  /** A notification on its way stays on its way until it is given. */
  lemma NotifierStays<T>(m: Mon<T>, s: Step<T>, u: nat)
    requires Inv(m) && Enabled(m, s) && WillNotify(m, u) && !s.NotifyAll?
    ensures WillNotify(Next(m, s), u)
  {}

  lemma StepKeepsWakeup<T>(m: Mon<T>, s: Step<T>)
    requires Inv(m) && Enabled(m, s) && !s.Work?
    ensures NoLostWakeup(Next(m, s))
  {
    var m' := Next(m, s);
    forall t | Asleep(m', t) && Ready(m', m'.threads[t].op) ensures exists u :: WillNotify(m', u) {
      assert !s.NotifyAll? && Asleep(m, t) && m'.threads[t] == m.threads[t];
      var u :| WillNotify(m, u);
      NotifierStays(m, s, u);
    }
  }

  lemma StepKeeps<T>(m: Mon<T>, s: Step<T>)
    requires Inv(m) && Enabled(m, s)
    ensures Inv(Next(m, s))
  {
    if s.Work? {
      WorkKeeps(m, s.t);
    } else {
      StepKeepsLock(m, s);
      StepKeepsWakeup(m, s);
    }
  }

  predicate IsRun<T>(m: Mon<T>, steps: seq<Step<T>>)
    decreases |steps|
  {
    steps == [] || (Enabled(m, steps[0]) && IsRun(Next(m, steps[0]), steps[1..]))
  }

  function Run<T>(m: Mon<T>, steps: seq<Step<T>>): Mon<T>
    requires IsRun(m, steps)
    decreases |steps|
  {
    if steps == [] then m else Run(Next(m, steps[0]), steps[1..])
  }

  lemma {:induction false} RunKeeps<T>(m: Mon<T>, steps: seq<Step<T>>)
    requires Inv(m) && IsRun(m, steps)
    ensures Inv(Run(m, steps)) && Run(m, steps).capacity == m.capacity
    decreases |steps|
  {
    if steps != [] {
      StepKeeps(m, steps[0]);
      RunKeeps(Next(m, steps[0]), steps[1..]);
    }
  }

  /** On every interleaving of every set of callers: values come out in the
      order they went in, nothing is lost or duplicated, the capacity holds,
      at most one thread is in a critical section, a timed call gives up only
      when it has to, and no wake-up is lost. */
  lemma QueueIsCorrect<T>(capacity: nat, steps: seq<Step<T>>)
    requires IsRun(Empty<T>(capacity), steps)
    ensures var m := Run(Empty<T>(capacity), steps);
      && m.pushed == m.popped + m.deque
      && (capacity != 0 ==> |m.deque| <= capacity)
      && (forall i :: 0 <= i < |m.timeouts| ==> Justified(capacity, m.timeouts[i]))
      && (forall t, u :: t in m.threads && u in m.threads && m.threads[t].Holding() && m.threads[u].Holding() ==> t == u)
      && NoLostWakeup(m)
  {
    EmptyInv<T>(capacity);
    RunKeeps(Empty<T>(capacity), steps);
  }

  // ---------------------------------------------------------------------
  // Progress

  /** A step of a thread inside a call that is not an external event. */
  predicate Internal<T>(s: Step<T>) {
    s.Acquire? || s.Check? || s.Work? || s.Unlock? || s.NotifyAll?
  }

  /** How far a thread is from the end of its call, or from falling asleep. */
  function Rank<T>(pc: Pc<T>): nat {
    match pc
    case Sleeping(_, _) => 0
    case Notifying => 1
    case Leaving => 2
    case Working(_) => 3
    case Checking(_, _, _) => 4
    case Entering(_, _) => 5
    case Waking(_, _, _) => 5
  }

  function AtLeast<T>(threads: map<nat, Pc<T>>, k: nat): set<nat> {
    set t | t in threads && Rank(threads[t]) >= k
  }

  /** The sum of all ranks. */
  function RankSum<T>(threads: map<nat, Pc<T>>): nat {
    |AtLeast(threads, 1)| + |AtLeast(threads, 2)| + |AtLeast(threads, 3)| + |AtLeast(threads, 4)| + |AtLeast(threads, 5)|
  }

  lemma AtLeastBound<T>(threads: map<nat, Pc<T>>, k: nat)
    ensures |AtLeast(threads, k)| <= |threads|
  {
    assert AtLeast(threads, k) <= threads.Keys;
    SubsetSize(AtLeast(threads, k), threads.Keys);
  }

  lemma {:induction false} SubsetSize(a: set<nat>, b: set<nat>)
    requires a <= b
    ensures |a| <= |b|
  {
    if a != {} {
      var x :| x in a;
      SubsetSize(a - {x}, b - {x});
    }
  }

  lemma AtLeastMove<T>(threads: map<nat, Pc<T>>, t: nat, pc: Pc<T>, k: nat)
    requires t in threads && Rank(pc) < Rank(threads[t])
    ensures |AtLeast(threads[t := pc], k)| ==
      |AtLeast(threads, k)| - (if Rank(pc) < k <= Rank(threads[t]) then 1 else 0)
  {
    var threads' := threads[t := pc];
    if Rank(pc) < k <= Rank(threads[t]) {
      assert AtLeast(threads', k) == AtLeast(threads, k) - {t};
    } else {
      assert AtLeast(threads', k) == AtLeast(threads, k);
    }
  }

  lemma RankMove<T>(threads: map<nat, Pc<T>>, t: nat, pc: Pc<T>)
    requires t in threads && Rank(pc) < Rank(threads[t])
    ensures RankSum(threads[t := pc]) < RankSum(threads)
    ensures |threads[t := pc]| == |threads|
  {
    AtLeastMove(threads, t, pc, 1);
    AtLeastMove(threads, t, pc, 2);
    AtLeastMove(threads, t, pc, 3);
    AtLeastMove(threads, t, pc, 4);
    AtLeastMove(threads, t, pc, 5);
    assert threads[t := pc].Keys == threads.Keys;
  }

  lemma RankSumBound<T>(threads: map<nat, Pc<T>>)
    ensures RankSum(threads) <= 5 * |threads|
  {
    AtLeastBound(threads, 1);
    AtLeastBound(threads, 2);
    AtLeastBound(threads, 3);
    AtLeastBound(threads, 4);
    AtLeastBound(threads, 5);
  }

  /** An upper bound on the internal steps to come: each call that ends may
      wake all others once. */
  function Budget<T>(m: Mon<T>): nat {
    |m.threads| * (5 * |m.threads| + 1) + RankSum(m.threads)
  }

  lemma NotifyShrinks<T>(threads: map<nat, Pc<T>>, t: nat)
    requires t in threads
    ensures |Woken(threads) - {t}| == |threads| - 1
  {
    assert (Woken(threads) - {t}).Keys == threads.Keys - {t};
  }

  lemma OneCallLess(n: nat, n': nat, ranks: nat, ranks': nat)
    requires n == n' + 1 && ranks' <= 5 * n'
    ensures n' * (5 * n' + 1) + ranks' < n * (5 * n + 1) + ranks
  {
    assert n * (5 * n + 1) == n' * (5 * n' + 1) + 10 * n' + 6;
  }

  lemma NotifyStep<T>(m: Mon<T>, t: nat)
    requires Enabled(m, NotifyAll(t))
    ensures Budget(Next(m, NotifyAll(t))) < Budget(m)
  {
    NotifyShrinks(m.threads, t);
    var threads' := Next(m, NotifyAll(t)).threads;
    RankSumBound(threads');
    OneCallLess(|m.threads|, |threads'|, RankSum(m.threads), RankSum(threads'));
  }

  lemma InternalStep<T>(m: Mon<T>, s: Step<T>)
    requires Enabled(m, s) && Internal(s)
    ensures Budget(Next(m, s)) < Budget(m)
  {
    var m' := Next(m, s);
    if s.NotifyAll? {
      NotifyStep(m, s.t);
    } else {
      RankMove(m.threads, s.t, m'.threads[s.t]);
    }
  }

  predicate InternalRun<T>(m: Mon<T>, steps: seq<Step<T>>)
    decreases |steps|
  {
    steps == [] || (Enabled(m, steps[0]) && Internal(steps[0]) && InternalRun(Next(m, steps[0]), steps[1..]))
  }

  lemma {:induction false} InternalRunBound<T>(m: Mon<T>, steps: seq<Step<T>>)
    requires Inv(m) && InternalRun(m, steps)
    ensures IsRun(m, steps) && Inv(Run(m, steps)) && |steps| + Budget(Run(m, steps)) <= Budget(m)
    decreases |steps|
  {
    if steps != [] {
      StepKeeps(m, steps[0]);
      InternalStep(m, steps[0]);
      InternalRunBound(Next(m, steps[0]), steps[1..]);
    }
  }

  /** As long as some thread inside a call is awake, some thread can move. */
  lemma CanMove<T>(m: Mon<T>, t: nat) returns (s: Step<T>)
    requires Inv(m) && t in m.threads && !m.threads[t].Sleeping?
    ensures Enabled(m, s) && Internal(s)
  {
    var u := if m.lock.Some? then m.lock.value else t;
    match m.threads[u]
    case Checking(_, _, _) => s := Step.Check(u);
    case Working(_) => s := Step.Work(u);
    case Leaving => s := Step.Unlock(u);
    case Notifying => s := NotifyAll(u);
    case Entering(_, _) => s := Acquire(u);
    case Waking(_, _, _) => s := Acquire(u);
    case Sleeping(_, _) =>
  }

  /** Every execution without new calls comes to rest within its budget, and
      a thread that is still asleep then has nothing to do: sleeping Pops mean
      an empty queue, sleeping Pushes a full one. So Pops never sleep beside
      Pushes or WaitUntilEmpty calls. */
  lemma ComesToRest<T>(m: Mon<T>, steps: seq<Step<T>>)
    requires Inv(m) && InternalRun(m, steps)
    ensures IsRun(m, steps) && |steps| <= Budget(m)
    ensures var r := Run(m, steps);
      (forall s :: Internal(s) ==> !Enabled(r, s)) ==>
        && (forall t :: t in r.threads ==> r.threads[t].Sleeping? && !Ready(r, r.threads[t].op))
        && (forall t, u :: t in r.threads && u in r.threads && r.threads[t].op == PopOp ==> r.threads[u].op == PopOp)
  {
    InternalRunBound(m, steps);
    var r := Run(m, steps);
    if forall s :: Internal(s) ==> !Enabled(r, s) {
      forall t | t in r.threads ensures r.threads[t].Sleeping? {
        if !r.threads[t].Sleeping? { var s := CanMove(r, t); }
      }
      forall t | t in r.threads ensures !Ready(r, r.threads[t].op) {
        assert Asleep(r, t);
        assert forall u :: !WillNotify(r, u);
      }
    }
  }
}
