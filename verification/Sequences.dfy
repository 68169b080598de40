/** Sequences from the end, and queues shared by several owners. */
module Sequences {

  function Last<T>(s: seq<T>): T
    requires s != []
  {
    s[|s| - 1]
  }

  function Init<T>(s: seq<T>): seq<T>
    requires s != []
  {
    s[..|s| - 1]
  }

  /** An entry of a shared queue and whom it belongs to. */
  datatype Tagged<K, T> = Tagged(id: K, value: T)

  /** The values in a shared queue that belong to `id`, in order. */
  function Mine<K(==), T>(q: seq<Tagged<K, T>>, id: K): seq<T> {
    if q == [] then []
    else (if q[0].id == id then [q[0].value] else []) + Mine(q[1..], id)
  }

  lemma {:induction false} MineConcat<K, T>(a: seq<Tagged<K, T>>, b: seq<Tagged<K, T>>, id: K)
    ensures Mine(a + b, id) == Mine(a, id) + Mine(b, id)
    decreases |a|
  {
    if a == [] {
      assert a + b == b;
    } else {
      MineConcat(a[1..], b, id);
      assert (a + b)[0] == a[0] && (a + b)[1..] == a[1..] + b;
      var head := if a[0].id == id then [a[0].value] else [];
      assert head + (Mine(a[1..], id) + Mine(b, id)) == head + Mine(a[1..], id) + Mine(b, id);
    }
  }

  lemma MineAppend<K, T>(q: seq<Tagged<K, T>>, x: Tagged<K, T>, id: K)
    ensures Mine(q + [x], id) == Mine(q, id) + (if x.id == id then [x.value] else [])
  {
    MineConcat(q, [x], id);
  }

  lemma {:induction false} MineNone<K, T>(q: seq<Tagged<K, T>>, id: K)
    requires forall i :: 0 <= i < |q| ==> q[i].id != id
    ensures Mine(q, id) == []
    decreases |q|
  {
    if q != [] { MineNone(q[1..], id); }
  }

  lemma {:induction false} MineContains<K, T>(q: seq<Tagged<K, T>>, i: nat)
    requires i < |q|
    ensures q[i].value in Mine(q, q[i].id)
    decreases |q|
  {
    if i > 0 { MineContains(q[1..], i - 1); }
  }

  lemma {:induction false} MineFrom<K, T>(q: seq<Tagged<K, T>>, id: K, x: T) returns (i: nat)
    requires x in Mine(q, id)
    ensures i < |q| && q[i] == Tagged(id, x)
    decreases |q|
  {
    if q[0] == Tagged(id, x) {
      i := 0;
    } else {
      i := MineFrom(q[1..], id, x);
      i := i + 1;
    }
  }

  // ---------------------------------------------------------------------
  // Chains of steps

  function Nth<S>(states: seq<S>, k: nat): S
    requires k < |states|
  {
    states[k]
  }

  /** steps[k] leads from states[k] to states[k + 1]. */
  predicate IsChain<S, T>(leads: (S, T, S) -> bool, states: seq<S>, steps: seq<T>) {
    && |states| == |steps| + 1
    && forall k: nat {:trigger Nth(states, k)} :: k < |steps| ==> leads(Nth(states, k), steps[k], states[k + 1])
  }

  lemma ChainSnoc<S, T>(leads: (S, T, S) -> bool, states: seq<S>, steps: seq<T>, step: T, s: S)
    requires IsChain(leads, states, steps) && leads(Last(states), step, s)
    ensures IsChain(leads, states + [s], steps + [step]) && (states + [s])[0] == states[0]
  {
    var states', steps' := states + [s], steps + [step];
    forall k: nat | k < |steps'| ensures leads(Nth(states', k), steps'[k], states'[k + 1]) {
      if k < |steps| { assert leads(Nth(states, k), steps[k], states[k + 1]); }
    }
  }

  lemma ChainInit<S, T>(leads: (S, T, S) -> bool, states: seq<S>, steps: seq<T>)
    requires IsChain(leads, states, steps) && steps != []
    ensures IsChain(leads, Init(states), Init(steps)) && leads(Last(Init(states)), Last(steps), Last(states))
    ensures steps == Init(steps) + [Last(steps)] && Init(states)[0] == states[0]
  {
    var n := |steps| - 1;
    assert leads(Nth(states, n), steps[n], states[n + 1]);
    forall k: nat | k < n ensures leads(Nth(Init(states), k), Init(steps)[k], Init(states)[k + 1]) {
      assert leads(Nth(states, k), steps[k], states[k + 1]);
    }
  }
}
