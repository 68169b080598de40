/** Round-robin placement: which event queue each Rpc is given, and that the
    Rpcs are spread evenly over the event threads. */
module Placement {
  import opened Arithmetic
  import opened RpcCore
  import opened System
  import opened Projection
  import opened Cloning
  import opened Simulation
  import opened Frames
  import opened CloningProofs
  import opened ServerTheorems
  import opened Shutdown

  /** (current + 1) % n without the division. */
  function Successor(current: nat, n: nat): nat {
    if current + 1 == n then 0 else current + 1
  }

  lemma SuccessorIsMod(current: nat, n: nat)
    requires current < n
    ensures Successor(current, n) == (current + 1) % n
  {}

  /** The event queue ids returned by `k` calls of
      SelectNextEventQueueRoundRobin in a row, whoever makes them. */
  function Picks(current: nat, k: nat, n: nat): (ids: seq<nat>)
    ensures |ids| == k
    decreases k
  {
    if k == 0 then [] else var id := Successor(current, n); [id] + Picks(id, k - 1, n)
  }

  /** How many other queues come up before `e`. */
  function Distance(current: nat, e: nat, n: nat): (d: nat)
    requires current < n && e < n
    ensures d < n
  {
    if e > current then e - current - 1 else e + n - current - 1
  }

  /** Full rounds and further picks among `k` picks. */
  function Rounds(k: nat, n: nat): (nat, nat)
    requires n > 0
  {
    if k == 0 then (0, 0)
    else var (q, r) := Rounds(k - 1, n); if r + 1 == n then (q + 1, 0) else (q, r + 1)
  }

  lemma {:induction false} RoundsAreQuotient(k: nat, n: nat)
    requires n > 0
    ensures Rounds(k, n) == (k / n, k % n)
  {
    RoundsAddUp(k, n);
    DivMod(Rounds(k, n).0, n, Rounds(k, n).1);
  }

  lemma {:induction false} RoundsAddUp(k: nat, n: nat)
    requires n > 0
    ensures k == Rounds(k, n).0 * n + Rounds(k, n).1 && Rounds(k, n).1 < n
  {
    RoundsBound(k, n);
    if k > 0 {
      RoundsAddUp(k - 1, n);
      Distribute(Rounds(k - 1, n).0, 1, n);
    }
  }

  /** How often `e` comes up, counted one pick at a time. */
  function Hits(current: nat, k: nat, n: nat, e: nat): nat
    decreases k
  {
    if k == 0 then 0
    else
      var id := Successor(current, n);
      (if id == e then 1 else 0) + Hits(id, k - 1, n, e)
  }

  lemma {:induction false} PicksHit(current: nat, k: nat, n: nat, e: nat)
    ensures multiset(Picks(current, k, n))[e] == Hits(current, k, n, e)
    decreases k
  {
    if k > 0 {
      var id := Successor(current, n);
      PicksHit(id, k - 1, n, e);
      assert Picks(current, k, n) == [id] + Picks(id, k - 1, n);
    }
  }

  lemma {:induction false} HitCount(current: nat, k: nat, n: nat, e: nat)
    requires current < n && e < n
    ensures var (q, r) := Rounds(k, n);
      Hits(current, k, n, e) == q + (if r > Distance(current, e, n) then 1 else 0)
    decreases k
  {
    if k > 0 {
      RoundsBound(k - 1, n);
      HitCount(Successor(current, n), k - 1, n, e);
    }
  }

  lemma {:induction false} RoundsBound(k: nat, n: nat)
    requires n > 0
    ensures Rounds(k, n).1 < n
  {
    if k > 0 { RoundsBound(k - 1, n); }
  }

  /** k / n, rounded down or up; exactly that when n divides k. */
  predicate FairShare(count: nat, k: nat, n: nat)
    requires n > 0
  {
    k / n <= count <= k / n + 1 && (k % n == 0 ==> count == k / n)
  }

  /** Fairness of any window of selections: every queue is picked k / n times. */
  lemma RoundRobinFair(current: nat, k: nat, n: nat, e: nat)
    requires current < n && e < n
    ensures FairShare(multiset(Picks(current, k, n))[e], k, n)
  {
    PicksHit(current, k, n, e);
    HitCount(current, k, n, e);
    RoundsAreQuotient(k, n);
  }

  /** The ids stay in range; the i-th is i + 1 places further on. */
  lemma {:induction false} PickAt(current: nat, k: nat, n: nat, i: nat)
    requires current < n && i < k
    ensures Picks(current, k, n)[i] == (current + 1 + i) % n < n
    decreases k
  {
    SuccessorIsMod(current, n);
    if i > 0 {
      PickAt(Successor(current, n), k - 1, n, i - 1);
      ModAdd(current + 1, i, n);
    }
  }

  // ---------------------------------------------------------------------
  // The server

  /** The i-th selection gave the i-th queue; every Rpc but those whose thread
      has yet to select got exactly one. */
  predicate RoundRobin(s: Sys) {
    && |s.queues| > 0 && s.current == |s.selected| % |s.queues|
    && (forall i :: 0 <= i < |s.selected| ==>
          s.selected[i] < |s.slots| && s.slots[s.selected[i]].eq == (i + 1) % |s.queues|)
    && (forall i, k :: 0 <= i < k < |s.selected| ==> s.selected[i] != s.selected[k])
    && (forall j: nat :: j < |s.slots| ==> (j in s.selected <==> !Unplaced(s, j)))
  }

  lemma StartedRoundRobin(methods: seq<Method>, numCqs: nat, numQueues: nat)
    requires numQueues > 0
    ensures RoundRobin(Started(methods, numCqs, numQueues))
  {
    var s := Started(methods, numCqs, numQueues);
    forall j: nat | j < |s.slots| ensures j in s.selected && !Unplaced(s, j) {
      assert s.selected[j] == j;
    }
  }

  /** What an action does to the selector. */
  lemma ActSelection(s: Sys, t: nat)
    requires |s.queues| > 0 && SysEnabled(s, SAct(t))
    ensures var s' := SActed(s, t);
      if At(s, t, SelectQueue) && Holding(s, t) then
        var c := s.workers[t].clone.value;
        s'.selected == s.selected + [c] && s'.current == NextQueue(s) && c < |s'.slots| && s'.slots[c].eq == NextQueue(s)
      else s'.selected == s.selected && s'.current == s.current
  {
    HalfFrame(s, t);
  }

  lemma UnplacedBefore(s: Sys, x: SysStep, j: nat)
    requires Routed(s) && CloneInv(s) && SysEnabled(s, x) && Unplaced(SysNext(s, x), j)
    ensures (Unplaced(s, j) && !Places(s, x, j)) || (Creates(s, x) && j == |s.slots|)
  {
    var s' := SysNext(s, x);
    OnlyActorChanges(s, x, 0);
    var t :| 0 <= t < |s'.workers| && At(s', t, SelectQueue) && s'.workers[t].clone == Some(j);
    StillSelecting(s, x, t);
  }

  lemma UnplacedStays(s: Sys, x: SysStep, j: nat)
    requires Routed(s) && CloneInv(s) && SysEnabled(s, x) && Unplaced(s, j) && !Places(s, x, j)
    ensures Unplaced(SysNext(s, x), j)
  {
    var t :| 0 <= t < |s.workers| && At(s, t, SelectQueue) && s.workers[t].clone == Some(j);
    KeepsSelecting(s, x, t);
  }

  /** Who is waiting for a queue after a step. */
  lemma UnplacedStep(s: Sys, x: SysStep, j: nat)
    requires Routed(s) && CloneInv(s) && SysEnabled(s, x)
    ensures Unplaced(SysNext(s, x), j) <==>
      (Unplaced(s, j) && !Places(s, x, j)) || (Creates(s, x) && j == |s.slots|)
  {
    if Unplaced(SysNext(s, x), j) { UnplacedBefore(s, x, j); }
    if Unplaced(s, j) && !Places(s, x, j) { UnplacedStays(s, x, j); }
    if Creates(s, x) && j == |s.slots| { CloneSelects(s, x.t); }
  }

  lemma StillSelecting(s: Sys, x: SysStep, t: nat)
    requires Routed(s) && CloneInv(s) && SysEnabled(s, x) && t < |s.workers| && At(SysNext(s, x), t, SelectQueue)
    ensures var clone := SysNext(s, x).workers[t].clone;
      (At(s, t, SelectQueue) && clone == s.workers[t].clone && !(x.SAct? && x.t == t)) ||
      (Creates(s, x) && clone == Some(|s.slots|))
  {
    NewlySelecting(s, x, t);
    OnlyActorChanges(s, x, t);
    assert HoldOk(s, t);
    if At(s, t, SelectQueue) && x.SAct? && x.t == t { Selected(s, t); }
  }

  /** After selecting, the thread goes on to add the Rpc. */
  lemma Selected(s: Sys, t: nat)
    requires Routed(s) && CloneInv(s) && SysEnabled(s, SAct(t)) && At(s, t, SelectQueue)
    ensures SActed(s, t).workers[t].prog == ADDING
  {
    assert HoldOk(s, t);
    ActFrame(s, t);
    ActHands(s, t);
  }

  lemma KeepsSelecting(s: Sys, x: SysStep, t: nat)
    requires Routed(s) && CloneInv(s) && SysEnabled(s, x) && At(s, t, SelectQueue) && !(x.SAct? && x.t == t)
    ensures t < |SysNext(s, x).workers|
    ensures SysNext(s, x).workers[t] == s.workers[t] && At(SysNext(s, x), t, SelectQueue)
  {
    OnlyActorChanges(s, x, t);
    RouteStep(s, x, s.workers[t].id);
  }

  lemma CloneSelects(s: Sys, t: nat)
    requires Routed(s) && CloneInv(s) && SysEnabled(s, SAct(t)) && Clones(s, t)
    ensures Unplaced(SActed(s, t), |s.slots|)
  {
    assert HoldOk(s, t);
    ActFrame(s, t);
    ActHands(s, t);
  }

  /** The step selects an event queue. */
  predicate Selects(s: Sys, x: SysStep) {
    x.SAct? && At(s, x.t, SelectQueue)
  }

  lemma SelectionKept(s: Sys, x: SysStep)
    requires Routed(s) && SysEnabled(s, x) && !Selects(s, x)
    ensures SysNext(s, x).selected == s.selected && SysNext(s, x).current == s.current
  {
    if x.SAct? { ActSelection(s, x.t); } else { OtherUndisturbed(s, x); }
  }

  /** The route of an Rpc that got its selection stays, and so does its standing. */
  lemma SelectedStays(s: Sys, x: SysStep, i: nat)
    requires Routed(s) && CloneInv(s) && RoundRobin(s) && SysEnabled(s, x) && i < |s.selected|
    ensures s.selected[i] < |SysNext(s, x).slots|
    ensures SysNext(s, x).slots[s.selected[i]].eq == s.slots[s.selected[i]].eq
  {
    PlacedStays(s, x, s.selected[i]);
  }

  lemma EarlierSelections(s: Sys, x: SysStep)
    requires Routed(s) && CloneInv(s) && RoundRobin(s) && SysEnabled(s, x)
    ensures var s' := SysNext(s, x);
      forall i :: 0 <= i < |s.selected| ==>
        s.selected[i] < |s'.slots| && s'.slots[s.selected[i]].eq == s.slots[s.selected[i]].eq
  {
    var s' := SysNext(s, x);
    forall i | 0 <= i < |s.selected|
      ensures s.selected[i] < |s'.slots| && s'.slots[s.selected[i]].eq == s.slots[s.selected[i]].eq
    {
      SelectedStays(s, x, i);
    }
  }

  /** Which Rpcs have their selection after a step. */
  lemma Membership(s: Sys, x: SysStep, j: nat)
    requires Routed(s) && CloneInv(s) && RoundRobin(s) && SysEnabled(s, x) && j < |SysNext(s, x).slots|
    ensures !Unplaced(SysNext(s, x), j) <==> j in s.selected || Places(s, x, j)
  {
    UnplacedStep(s, x, j);
    if j >= |s.slots| { OnlyClonesAdd(s, x, j); } else if Places(s, x, j) { assert Unplaced(s, j); }
  }

  lemma KeptRoundRobin(s: Sys, x: SysStep)
    requires Routed(s) && CloneInv(s) && RoundRobin(s) && SysEnabled(s, x) && !Selects(s, x)
    ensures RoundRobin(SysNext(s, x)) && |SysNext(s, x).queues| == |s.queues|
  {
    var s' := SysNext(s, x);
    SelectionKept(s, x);
    OnlyActorChanges(s, x, 0);
    EarlierSelections(s, x);
    forall j: nat | j < |s'.slots| ensures j in s.selected <==> !Unplaced(s', j) {
      Membership(s, x, j);
    }
  }

  lemma NextSelection(s: Sys)
    requires RoundRobin(s)
    ensures NextQueue(s) == (|s.selected| + 1) % |s.queues|
  {
    ModAdd(|s.selected|, 1, |s.queues|);
  }

  lemma SelectedRoutes(s: Sys, t: nat, c: nat)
    requires Routed(s) && CloneInv(s) && RoundRobin(s) && SysEnabled(s, SAct(t)) && At(s, t, SelectQueue) && Held(s, t, c)
    ensures var s' := SActed(s, t);
      && s'.selected == s.selected + [c] && s'.current == (|s.selected| + 1) % |s.queues| && |s'.queues| == |s.queues|
      && (forall i :: 0 <= i < |s'.selected| ==>
            s'.selected[i] < |s'.slots| && s'.slots[s'.selected[i]].eq == (i + 1) % |s.queues|)
  {
    HeldView(s, t, c);
    ActSelection(s, t);
    NextSelection(s);
    OnlyActorChanges(s, SAct(t), 0);
    EarlierSelections(s, SAct(t));
    RoutesAppend(s, SActed(s, t), c);
  }

  lemma RoutesAppend(s: Sys, s': Sys, c: nat)
    requires RoundRobin(s) && s'.selected == s.selected + [c]
    requires c < |s'.slots| && s'.slots[c].eq == (|s.selected| + 1) % |s.queues|
    requires forall i :: 0 <= i < |s.selected| ==>
      s.selected[i] < |s'.slots| && s'.slots[s.selected[i]].eq == s.slots[s.selected[i]].eq
    ensures forall i :: 0 <= i < |s'.selected| ==>
      s'.selected[i] < |s'.slots| && s'.slots[s'.selected[i]].eq == (i + 1) % |s.queues|
  {}

  lemma SelectedMembers(s: Sys, t: nat, c: nat)
    requires Routed(s) && CloneInv(s) && RoundRobin(s) && SysEnabled(s, SAct(t)) && At(s, t, SelectQueue) && Held(s, t, c)
    ensures c !in s.selected
    ensures forall j: nat :: j < |SActed(s, t).slots| ==> (j in s.selected + [c] <==> !Unplaced(SActed(s, t), j))
  {
    HeldView(s, t, c);
    assert Unplaced(s, c);
    forall j: nat | j < |SActed(s, t).slots| ensures j in s.selected + [c] <==> !Unplaced(SActed(s, t), j) {
      Membership(s, SAct(t), j);
      assert Places(s, SAct(t), j) <==> j == c;
    }
  }

  lemma SelectRoundRobin(s: Sys, t: nat, c: nat)
    requires Routed(s) && CloneInv(s) && RoundRobin(s) && SysEnabled(s, SAct(t)) && At(s, t, SelectQueue) && Held(s, t, c)
    ensures RoundRobin(SActed(s, t)) && |SActed(s, t).queues| == |s.queues| && SActed(s, t).selected == s.selected + [c]
  {
    SelectedRoutes(s, t, c);
    SelectedMembers(s, t, c);
  }

  lemma RoundRobinStep(s: Sys, x: SysStep)
    requires Routed(s) && CloneInv(s) && RoundRobin(s) && SysEnabled(s, x)
    ensures RoundRobin(SysNext(s, x)) && |SysNext(s, x).queues| == |s.queues|
  {
    if Selects(s, x) {
      HoldsAtClone(s, x.t);
      SelectRoundRobin(s, x.t, s.workers[x.t].clone.value);
    } else {
      KeptRoundRobin(s, x);
    }
  }

  lemma {:induction false} RoundRobinRun(s: Sys, steps: seq<SysStep>)
    requires Routed(s) && CloneInv(s) && RoundRobin(s) && IsSysRun(s, steps)
    ensures RoundRobin(SysRun(s, steps)) && |SysRun(s, steps).queues| == |s.queues|
    decreases |steps|
  {
    if steps != [] {
      RoundRobinStep(s, steps[0]);
      CloneStep(s, steps[0]);
      RoundRobinRun(SysNext(s, steps[0]), steps[1..]);
    }
  }

  /** The event queues selected for some Rpcs, in order. */
  function QueueIds(s: Sys, ids: seq<nat>): seq<nat>
    requires forall i :: 0 <= i < |ids| ==> ids[i] < |s.slots|
  {
    seq(|ids|, i requires 0 <= i < |ids| && ids[i] < |s.slots| => s.slots[ids[i]].eq)
  }

  /** Consecutive selections gave consecutive queues. */
  lemma WindowIsPicks(s: Sys, a: nat, b: nat)
    requires RoundRobin(s) && a <= b <= |s.selected|
    ensures QueueIds(s, s.selected[a..b]) == Picks(a % |s.queues|, b - a, |s.queues|)
  {
    var n, window := |s.queues|, s.selected[a..b];
    var picks := Picks(a % n, b - a, n);
    forall i | 0 <= i < |window| ensures s.slots[window[i]].eq == picks[i] {
      PickAt(a % n, b - a, n, i);
      ModAdd(a, 1 + i, n);
    }
  }

  /** Balance, on every run of every server, whichever threads select: of the
      Rpcs of any consecutive selections, each event thread gets its fair share.
      The selections are for different Rpcs, and for all of them but those whose
      thread has yet to select. */
  lemma BalancedLoad(methods: seq<Method>, numCqs: nat, numQueues: nat, steps: seq<SysStep>, a: nat, b: nat, e: nat)
    requires numQueues > 0 && IsSysRun(Started(methods, numCqs, numQueues), steps)
    requires a <= b <= |SysRun(Started(methods, numCqs, numQueues), steps).selected| && e < numQueues
    ensures var s := SysRun(Started(methods, numCqs, numQueues), steps);
      && RoundRobin(s) && FairShare(multiset(QueueIds(s, s.selected[a..b]))[e], b - a, numQueues)
  {
    var start := Started(methods, numCqs, numQueues);
    StartedRouted(methods, numCqs, numQueues);
    StartedRoundRobin(methods, numCqs, numQueues);
    RoundRobinRun(start, steps);
    var s := SysRun(start, steps);
    WindowIsPicks(s, a, b);
    RoundRobinFair(a % numQueues, b - a, numQueues, e);
  }

  // ---------------------------------------------------------------------
  // Order of creation and order of selection

  /** The i-th selection was for the i-th Rpc created. */
  predicate InOrder(s: Sys) {
    forall i :: 0 <= i < |s.selected| ==> s.selected[i] == i
  }

  /** A thread selects for its new Rpc while an older one is waiting. */
  predicate Overtakes(s: Sys, x: SysStep) {
    exists j, c :: 0 <= j < c < |s.slots| && Unplaced(s, j) && Places(s, x, c)
  }

  predicate NeverOvertakes(s: Sys, steps: seq<SysStep>)
    requires IsSysRun(s, steps)
    decreases |steps|
  {
    steps == [] || (!Overtakes(s, steps[0]) && NeverOvertakes(SysNext(s, steps[0]), steps[1..]))
  }

  lemma SelectionsGrow(s: Sys, x: SysStep)
    requires Routed(s) && CloneInv(s) && RoundRobin(s) && SysEnabled(s, x)
    ensures s.selected <= SysNext(s, x).selected
  {
    if Selects(s, x) {
      HoldsAtClone(s, x.t);
      SelectRoundRobin(s, x.t, s.workers[x.t].clone.value);
    } else {
      SelectionKept(s, x);
    }
  }

  lemma OvertakeStep(s: Sys, x: SysStep)
    requires Routed(s) && CloneInv(s) && RoundRobin(s) && SysEnabled(s, x) && InOrder(s)
    ensures InOrder(SysNext(s, x)) <==> !Overtakes(s, x)
  {
    if Selects(s, x) {
      HoldsAtClone(s, x.t);
      OvertakeSelect(s, x.t, s.workers[x.t].clone.value);
    } else {
      SelectionKept(s, x);
    }
  }

  lemma OvertakeSelect(s: Sys, t: nat, c: nat)
    requires Routed(s) && CloneInv(s) && RoundRobin(s) && SysEnabled(s, SAct(t)) && InOrder(s)
    requires At(s, t, SelectQueue) && Held(s, t, c)
    ensures InOrder(SActed(s, t)) <==> !Overtakes(s, SAct(t))
  {
    HeldView(s, t, c);
    SelectRoundRobin(s, t, c);
    SelectsNext(s, SAct(t), c);
    AppendInOrder(s.selected, c);
  }

  lemma AppendInOrder(ids: seq<nat>, c: nat)
    requires forall i :: 0 <= i < |ids| ==> ids[i] == i
    ensures (forall i :: 0 <= i < |ids + [c]| ==> (ids + [c])[i] == i) <==> c == |ids|
  {
    assert (ids + [c])[|ids|] == c;
  }

  /** The one who selects is the oldest waiting Rpc exactly if none is overtaken. */
  lemma SelectsNext(s: Sys, x: SysStep, c: nat)
    requires Routed(s) && CloneInv(s) && RoundRobin(s) && InOrder(s) && Places(s, x, c) && c < |s.slots|
    ensures Overtakes(s, x) <==> c != |s.selected|
  {
    assert Unplaced(s, c);
    var k := |s.selected|;
    assert forall j: nat :: j < |s.slots| ==> (j in s.selected <==> j < k) by {
      forall j: nat | j < k ensures j in s.selected { assert s.selected[j] == j; }
    }
    if c > k { assert Unplaced(s, k); }
  }

  lemma {:induction false} SelectionsGrowOverRun(s: Sys, steps: seq<SysStep>)
    requires Routed(s) && CloneInv(s) && RoundRobin(s) && IsSysRun(s, steps)
    ensures s.selected <= SysRun(s, steps).selected
    decreases |steps|
  {
    if steps != [] {
      SelectionsGrow(s, steps[0]);
      RoundRobinStep(s, steps[0]);
      CloneStep(s, steps[0]);
      SelectionsGrowOverRun(SysNext(s, steps[0]), steps[1..]);
    }
  }

  lemma {:induction false} InOrderIff(s: Sys, steps: seq<SysStep>)
    requires Routed(s) && CloneInv(s) && RoundRobin(s) && InOrder(s) && IsSysRun(s, steps)
    ensures InOrder(SysRun(s, steps)) <==> NeverOvertakes(s, steps)
    decreases |steps|
  {
    if steps != [] {
      var s' := SysNext(s, steps[0]);
      OvertakeStep(s, steps[0]);
      RoundRobinStep(s, steps[0]);
      CloneStep(s, steps[0]);
      if Overtakes(s, steps[0]) {
        SelectionsGrowOverRun(s', steps[1..]);
      } else {
        InOrderIff(s', steps[1..]);
      }
    }
  }

  /** Rpcs get their queues in the order of their creation if and only if no
      thread overtakes another between Clone and the selection. */
  lemma CreationOrderIff(methods: seq<Method>, numCqs: nat, numQueues: nat, steps: seq<SysStep>)
    requires numQueues > 0 && IsSysRun(Started(methods, numCqs, numQueues), steps)
    ensures InOrder(SysRun(Started(methods, numCqs, numQueues), steps)) <==>
      NeverOvertakes(Started(methods, numCqs, numQueues), steps)
  {
    StartedRouted(methods, numCqs, numQueues);
    StartedRoundRobin(methods, numCqs, numQueues);
    InOrderIff(Started(methods, numCqs, numQueues), steps);
  }
}
