/** The optimizer of micrograd/optim.py: gradient descent over a list of
    parameter nodes of one arena. The list may name a node more than once
    (nothing in the source prevents it); such a node is then moved once per
    occurrence. */
module Optim {
  import opened Engine

  /** The learning rate `SGD` uses when none is given. */
  const DefaultLr: real := 0.01

  /** `p._value -= lr * p.grad` for the one node p. */
  function Move(values: seq<real>, grads: seq<real>, p: nat, lr: real): seq<real>
    requires |grads| == |values| && p < |values|
  {
    values[p := values[p] - lr * grads[p]]
  }

  /** The values after `step`: walking the list in order, each parameter
      has `lr` times its grad subtracted from its value. */
  function Stepped(values: seq<real>, grads: seq<real>, params: seq<nat>, lr: real): (r: seq<real>)
    requires |grads| == |values| && InRange(params, |values|)
    ensures |r| == |values|
  {
    if params == [] then values
    else Move(Stepped(values, grads, params[..|params| - 1], lr), grads, params[|params| - 1], lr)
  }

  /** The grads after `zero_grad`: every listed parameter's grad is 0. */
  function Zeroed(grads: seq<real>, params: seq<nat>): (r: seq<real>)
    requires InRange(params, |grads|)
    ensures |r| == |grads|
  {
    if params == [] then grads
    else
      var z := Zeroed(grads, params[..|params| - 1]);
      z[params[|params| - 1] := 0.0]
  }

  /** n copies of x, added one after another. */
  function Times(n: nat, x: real): real {
    if n == 0 then 0.0 else Times(n - 1, x) + x
  }

  lemma {:induction false} TimesIsProduct(n: nat, x: real)
    ensures Times(n, x) == (n as real) * x
  {
    if n > 0 {
      TimesIsProduct(n - 1, x);
      assert ((n - 1) as real) * x + x == (n as real) * x;
    }
  }

  /** The multiset of a list is that of all but its last element, plus the last. */
  lemma MultisetSnoc(params: seq<nat>)
    requires params != []
    ensures multiset(params) == multiset(params[..|params| - 1]) + multiset{params[|params| - 1]}
  {
    assert params == params[..|params| - 1] + [params[|params| - 1]];
  }

  /** `SteppedMoves` with the repeated subtraction spelled out. */
  lemma {:induction false} SteppedMovesTimes(values: seq<real>, grads: seq<real>, params: seq<nat>, lr: real, i: nat)
    requires |grads| == |values| && InRange(params, |values|) && i < |values|
    ensures Stepped(values, grads, params, lr)[i] == values[i] - Times(multiset(params)[i], lr * grads[i])
  {
    if params != [] {
      var init := params[..|params| - 1];
      MultisetSnoc(params);
      SteppedMovesTimes(values, grads, init, lr, i);
    }
  }

  /** Every node moves by `lr` times its grad once per occurrence in the
      list; a node not in the list keeps its value. */
  lemma SteppedMoves(values: seq<real>, grads: seq<real>, params: seq<nat>, lr: real, i: nat)
    requires |grads| == |values| && InRange(params, |values|) && i < |values|
    ensures Stepped(values, grads, params, lr)[i] == values[i] - (multiset(params)[i] as real) * (lr * grads[i])
  {
    var count, step := multiset(params)[i], lr * grads[i];
    SteppedMovesTimes(values, grads, params, lr, i);
    TimesIsProduct(count, step);
    assert Stepped(values, grads, params, lr)[i] == values[i] - (count as real) * step;
  }

  /** With no node listed twice, `step` is one gradient-descent step on each
      parameter and leaves every other node alone. */
  lemma SteppedOnce(values: seq<real>, grads: seq<real>, params: seq<nat>, lr: real, i: nat)
    requires |grads| == |values| && InRange(params, |values|) && i < |values|
    requires forall a, b :: 0 <= a < b < |params| ==> params[a] != params[b]
    ensures Stepped(values, grads, params, lr)[i] == if i in params then values[i] - lr * grads[i] else values[i]
  {
    SteppedMoves(values, grads, params, lr, i);
    if i in params {
      var a :| 0 <= a < |params| && params[a] == i;
      SingleOccurrence(params, a);
    } else {
      assert multiset(params)[i] == 0;
    }
  }

  /** A value that occurs once in a list without repeats has multiplicity 1. */
  lemma {:induction false} SingleOccurrence(params: seq<nat>, a: nat)
    requires a < |params|
    requires forall x, y :: 0 <= x < y < |params| ==> params[x] != params[y]
    ensures multiset(params)[params[a]] == 1
  {
    var init := params[..|params| - 1];
    var p := params[|params| - 1];
    assert params == init + [p];
    if a == |params| - 1 {
      assert p !in init;
    } else {
      SingleOccurrence(init, a);
      assert init[a] == params[a];
    }
  }

  /** After `zero_grad` exactly the listed nodes have grad 0; the rest keep
      theirs. */
  lemma {:induction false} ZeroedClears(grads: seq<real>, params: seq<nat>, i: nat)
    requires InRange(params, |grads|) && i < |grads|
    ensures Zeroed(grads, params)[i] == if i in params then 0.0 else grads[i]
  {
    if params != [] {
      var init := params[..|params| - 1];
      assert params == init + [params[|params| - 1]];
      ZeroedClears(grads, init, i);
    }
  }

  lemma SteppedSnoc(values: seq<real>, grads: seq<real>, params: seq<nat>, p: nat, lr: real)
    requires |grads| == |values| && InRange(params, |values|) && p < |values|
    ensures InRange(params + [p], |values|)
    ensures Stepped(values, grads, params + [p], lr) == Move(Stepped(values, grads, params, lr), grads, p, lr)
  {
    var ps := params + [p];
    assert InRange(ps, |values|) by {
      forall k | 0 <= k < |ps| ensures ps[k] < |values| {
        if k < |params| { assert ps[k] == params[k]; }
      }
    }
    assert ps[..|ps| - 1] == params && ps[|ps| - 1] == p;
  }

  /** `zero_grad` twice is `zero_grad` once. */
  lemma ZeroedIdempotent(grads: seq<real>, params: seq<nat>)
    requires InRange(params, |grads|)
    ensures Zeroed(Zeroed(grads, params), params) == Zeroed(grads, params)
  {
    var z := Zeroed(grads, params);
    forall i | 0 <= i < |grads|
      ensures Zeroed(z, params)[i] == z[i]
    {
      ZeroedClears(z, params, i);
      ZeroedClears(grads, params, i);
    }
  }

  /** A `step` right after `zero_grad` leaves every value where it was. */
  lemma StepAfterZeroGrad(values: seq<real>, grads: seq<real>, params: seq<nat>, lr: real)
    requires |grads| == |values| && InRange(params, |values|)
    ensures Stepped(values, Zeroed(grads, params), params, lr) == values
  {
    var z := Zeroed(grads, params);
    forall i | 0 <= i < |values|
      ensures Stepped(values, z, params, lr)[i] == values[i]
    {
      SteppedMoves(values, z, params, lr, i);
      ZeroedClears(grads, params, i);
      if i !in params {
        assert multiset(params)[i] == 0;
      }
    }
  }

  /** `p._grad = 0` for every listed node, in list order. */
  method ZeroGrads(g: Graph, params: seq<nat>)
    requires g.Valid() && InRange(params, |g.shapes|)
    modifies g`grads
    ensures g.Valid() && g.grads == Zeroed(old(g.grads), params)
  {
    ghost var start := g.grads;
    for i := 0 to |params|
      invariant g.Valid() && g.grads == Zeroed(start, params[..i])
    {
      assert params[..i + 1][..i] == params[..i];
      g.grads := g.grads[params[i] := 0.0];
    }
    assert params[..|params|] == params;
  }

  /** `SGD`: the parameter list and the learning rate, both fixed when the
      optimizer is made. */
  class SGD {
    const graph: Graph
    const params: seq<nat>
    const lr: real

    ghost predicate Valid()
      reads this, graph
    {
      graph.Valid() && InRange(params, |graph.shapes|)
    }

    constructor (g: Graph, ps: seq<nat>, rate: real)
      requires g.Valid() && InRange(ps, |g.shapes|)
      ensures Valid() && graph == g && params == ps && lr == rate
    {
      graph, params, lr := g, ps, rate;
    }

    /** `SGD(params)` with the default learning rate. */
    constructor WithDefaultLr(g: Graph, ps: seq<nat>)
      requires g.Valid() && InRange(ps, |g.shapes|)
      ensures Valid() && graph == g && params == ps && lr == DefaultLr
    {
      graph, params, lr := g, ps, DefaultLr;
    }

    /** `step`: `p._value -= lr * p.grad` for every listed parameter. Only
        values change; the grads and the graph's structure stay. */
    method Step()
      requires Valid()
      modifies graph`values
      ensures Valid() && graph.values == Stepped(old(graph.values), graph.grads, params, lr)
    {
      ghost var start := graph.values;
      for i := 0 to |params|
        invariant Valid() && graph.values == Stepped(start, graph.grads, params[..i], lr)
      {
        var p := params[i];
        assert params[..i + 1] == params[..i] + [p];
        SteppedSnoc(start, graph.grads, params[..i], p, lr);
        graph.values := Move(graph.values, graph.grads, p, lr);
      }
      assert params[..|params|] == params;
    }

    /** `zero_grad`: every listed parameter's grad becomes 0. */
    method ZeroGrad()
      requires Valid()
      modifies graph`grads
      ensures Valid() && graph.grads == Zeroed(old(graph.grads), params)
    {
      ZeroGrads(graph, params);
    }
  }
}
