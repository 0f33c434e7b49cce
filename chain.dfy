/** The chain rule as the reference for what `Value.backward` is meant to
    compute, and the two backward passes of the model held against it: the
    FIFO pass of micrograd/value.py (`Drain`), which agrees with it on
    tree-shaped graphs, and the reverse topological pass (`Sweep`), which
    agrees with it on every graph. */
module ChainRule {
  import opened Engine

  /** A backward pass from node t of a well-formed arena, whose grads were
      `base` before it started. */
  predicate Setting(shapes: seq<Shape>, values: seq<real>, base: seq<real>, t: nat) {
    Sized(shapes, values, base) && WellFormed(shapes) && t < |shapes|
  }

  /** No node that feeds t is a POW node whose rule raises. */
  predicate Smooth(shapes: seq<Shape>, values: seq<real>, t: nat)
    requires WellFormed(shapes) && |values| == |shapes| && t < |shapes|
  {
    forall k :: 0 <= k <= t && Reaches(shapes, t, k) ==> !Degenerate(shapes, values, k)
  }

  /** The partial derivative of node k with respect to node j; taken as zero
      where the POW rule of k would raise. */
  function Partial(shapes: seq<Shape>, values: seq<real>, k: nat, j: nat): real
    requires WellFormed(shapes) && |values| == |shapes| && k < |shapes|
  {
    assert ShapeOk(shapes[k], k);
    if Degenerate(shapes, values, k) then 0.0 else LocalSum(shapes, values, k, j)
  }

  /** The grad node j is meant to hold after a backward pass from t: t holds
      1.0; any other node its old grad plus, for every node k that feeds t,
      the grad k ends with times the partial of k with respect to j. Nodes
      above t keep their old grads. */
  function Chain(shapes: seq<Shape>, values: seq<real>, base: seq<real>, t: nat, j: nat): real
    requires Setting(shapes, values, base, t) && j < |shapes|
    decreases if j <= t then t - j else 0, 1, 0
  {
    if j > t then base[j]
    else if j == t then 1.0
    else base[j] + ChainSum(shapes, values, base, t, j, j + 1)
  }

  /** The sum of `Chain(k) * Partial(k, j)` over the nodes k from k0 up to t
      that feed t. */
  function ChainSum(shapes: seq<Shape>, values: seq<real>, base: seq<real>, t: nat, j: nat, k0: nat): real
    requires Setting(shapes, values, base, t) && j < k0 <= t + 1
    decreases t - j, 0, t + 1 - k0
  {
    if k0 > t then 0.0
    else
      (if Reaches(shapes, t, k0) then Chain(shapes, values, base, t, k0) * Partial(shapes, values, k0, j) else 0.0)
      + ChainSum(shapes, values, base, t, j, k0 + 1)
  }

  /** The grads of the whole arena after a correct backward pass from t. */
  function ChainVec(shapes: seq<Shape>, values: seq<real>, base: seq<real>, t: nat): (r: seq<real>)
    requires Setting(shapes, values, base, t)
    ensures |r| == |base|
    ensures forall j :: 0 <= j < |r| ==> r[j] == Chain(shapes, values, base, t, j)
  {
    seq(|base|, j requires 0 <= j < |base| => Chain(shapes, values, base, t, j))
  }

  // ----- reachability -----

  /** A node only feeds nodes at or above its own index. */
  lemma {:induction false} ReachesBelow(shapes: seq<Shape>, t: nat, j: nat)
    requires WellFormed(shapes) && t < |shapes| && Reaches(shapes, t, j)
    ensures j <= t
    decreases t
  {
    assert ShapeOk(shapes[t], t);
    var ops := shapes[t].operands;
    if t != j {
      if |ops| > 0 && Reaches(shapes, ops[0], j) {
        ReachesBelow(shapes, ops[0], j);
      } else {
        ReachesBelow(shapes, ops[1], j);
      }
    }
  }

  /** An operand of a node that feeds t feeds t. */
  lemma {:induction false} ReachesOperand(shapes: seq<Shape>, t: nat, k: nat, x: nat)
    requires WellFormed(shapes) && t < |shapes| && k < |shapes|
    requires Reaches(shapes, t, k) && x in shapes[k].operands
    ensures Reaches(shapes, t, x)
    decreases t
  {
    assert ShapeOk(shapes[t], t);
    var ops := shapes[t].operands;
    if t == k {
      assert Reaches(shapes, x, x);
    } else if |ops| > 0 && Reaches(shapes, ops[0], k) {
      ReachesOperand(shapes, ops[0], k, x);
    } else {
      ReachesOperand(shapes, ops[1], k, x);
    }
  }

  /** A set that holds r and the operands of each of its members holds
      every node that feeds r. */
  lemma {:induction false} ClosedHoldsReached(shapes: seq<Shape>, done: set<nat>, r: nat, j: nat)
    requires WellFormed(shapes) && r < |shapes| && r in done
    requires forall k, x :: k in done && k < |shapes| && x in shapes[k].operands ==> x in done
    requires Reaches(shapes, r, j)
    ensures j in done
    decreases r
  {
    assert ShapeOk(shapes[r], r);
    var ops := shapes[r].operands;
    if r != j {
      if |ops| > 0 && Reaches(shapes, ops[0], j) {
        ClosedHoldsReached(shapes, done, ops[0], j);
      } else {
        ClosedHoldsReached(shapes, done, ops[1], j);
      }
    }
  }

  // ----- the reference sums -----

  /** A node contributes nothing to the grad of a node that is not among
      its operands. */
  lemma PartialOutside(shapes: seq<Shape>, values: seq<real>, k: nat, j: nat)
    requires WellFormed(shapes) && |values| == |shapes| && k < |shapes| && j !in shapes[k].operands
    ensures Partial(shapes, values, k, j) == 0.0
    ensures ShapeOk(shapes[k], k) && (!Degenerate(shapes, values, k) ==> LocalSum(shapes, values, k, j) == 0.0)
  {
    assert ShapeOk(shapes[k], k);
  }

  /** Without a consumer that feeds t, a node's sum is empty. */
  lemma {:induction false} ChainSumNone(shapes: seq<Shape>, values: seq<real>, base: seq<real>, t: nat, j: nat, k0: nat)
    requires Setting(shapes, values, base, t) && j < k0 <= t + 1
    requires forall k :: k0 <= k <= t && Reaches(shapes, t, k) ==> j !in shapes[k].operands
    ensures ChainSum(shapes, values, base, t, j, k0) == 0.0
    decreases t + 1 - k0
  {
    if k0 <= t {
      if Reaches(shapes, t, k0) {
        PartialOutside(shapes, values, k0, j);
      }
      ChainSumNone(shapes, values, base, t, j, k0 + 1);
    }
  }

  /** With exactly one consumer c that feeds t, a node's sum is c's term. */
  lemma {:induction false} ChainSumOne(shapes: seq<Shape>, values: seq<real>, base: seq<real>, t: nat, j: nat, c: nat, k0: nat)
    requires Setting(shapes, values, base, t) && j < k0 <= c <= t && Reaches(shapes, t, c)
    requires forall k :: k0 <= k <= t && k != c && Reaches(shapes, t, k) ==> j !in shapes[k].operands
    ensures ChainSum(shapes, values, base, t, j, k0)
         == Chain(shapes, values, base, t, c) * Partial(shapes, values, c, j)
    decreases c - k0
  {
    if k0 < c {
      if Reaches(shapes, t, k0) {
        PartialOutside(shapes, values, k0, j);
      }
      ChainSumOne(shapes, values, base, t, j, c, k0 + 1);
    } else {
      ChainSumNone(shapes, values, base, t, j, c + 1);
    }
  }

  /** A node that does not feed t keeps its old grad. */
  lemma ChainUnreached(shapes: seq<Shape>, values: seq<real>, base: seq<real>, t: nat, j: nat)
    requires Setting(shapes, values, base, t) && j < |shapes| && !Reaches(shapes, t, j)
    ensures Chain(shapes, values, base, t, j) == base[j]
  {
    if j < t {
      forall k | j + 1 <= k <= t && Reaches(shapes, t, k) ensures j !in shapes[k].operands {
        if j in shapes[k].operands {
          ReachesOperand(shapes, t, k, j);
        }
      }
      ChainSumNone(shapes, values, base, t, j, j + 1);
    }
  }

  /** A node consumed by one node c that feeds t gets its old grad plus c's
      grad times the partial of c. */
  lemma ChainOneConsumer(shapes: seq<Shape>, values: seq<real>, base: seq<real>, t: nat, j: nat, c: nat)
    requires Setting(shapes, values, base, t) && c <= t && Reaches(shapes, t, c) && j in shapes[c].operands
    requires forall k :: 0 <= k <= t && k != c && Reaches(shapes, t, k) ==> j !in shapes[k].operands
    ensures j < c
    ensures Chain(shapes, values, base, t, j)
         == base[j] + Chain(shapes, values, base, t, c) * Partial(shapes, values, c, j)
  {
    assert ShapeOk(shapes[c], c);
    ChainSumOne(shapes, values, base, t, j, c, j + 1);
  }

  // ----- the reverse topological pass -----

  /** The grads of a sweep from t once the nodes from m up have been visited:
      those nodes (and t) hold their final grads, every node below holds its
      old grad plus the terms of the consumers visited so far. */
  predicate SweptTo(shapes: seq<Shape>, values: seq<real>, base: seq<real>, t: nat, g: seq<real>, m: nat)
    requires Setting(shapes, values, base, t) && m <= t + 1
  {
    && |g| == |base|
    && (forall j :: 0 <= j < |g| && (j >= m || j == t) ==> g[j] == Chain(shapes, values, base, t, j))
    && (forall j :: 0 <= j < m && j < t ==> g[j] == base[j] + ChainSum(shapes, values, base, t, j, m))
  }

  /** When the rule of a visited node i that feeds t runs, its grad is
      final: it has gained every term of its sum. */
  lemma SweepGradFinal(shapes: seq<Shape>, values: seq<real>, base: seq<real>, t: nat, g: seq<real>, i: nat)
    requires Setting(shapes, values, base, t)
    requires i <= t && SweptTo(shapes, values, base, t, g, i + 1)
    ensures g[i] == Chain(shapes, values, base, t, i)
  {
  }

  /** g' is g after a rule of node i that adds to every node the grad of i
      times i's partial with respect to that node. */
  predicate Accumulated(shapes: seq<Shape>, values: seq<real>, g: seq<real>, g': seq<real>, i: nat)
    requires Sized(shapes, values, g) && WellFormed(shapes) && i < |shapes|
    requires ShapeOk(shapes[i], i) && !Degenerate(shapes, values, i)
  {
    |g'| == |g| && forall j :: 0 <= j < |g| ==> g'[j] == g[j] + g[i] * LocalSum(shapes, values, i, j)
  }

  /** The rule of a node whose POW rule does not raise accumulates. */
  lemma RuleAccumulated(shapes: seq<Shape>, values: seq<real>, g: seq<real>, i: nat)
    requires Sized(shapes, values, g) && WellFormed(shapes) && i < |shapes|
    requires ShapeOk(shapes[i], i) && !Degenerate(shapes, values, i)
    ensures Rule(shapes, values, g, i).Some?
    ensures Accumulated(shapes, values, g, Rule(shapes, values, g, i).value, i)
  {
    forall j | 0 <= j < |g|
      ensures Rule(shapes, values, g, i).value[j] == g[j] + g[i] * LocalSum(shapes, values, i, j)
    {
      RuleAccumulates(shapes, values, g, i, j);
    }
  }

  /** Running that rule adds i's term to the sum of each node below i:
      a node j below i whose grad was its old grad plus the terms from
      i + 1 up, and which gains i's final grad times the local partial,
      ends with the terms from i up. */
  lemma SweepRunBelow(shapes: seq<Shape>, values: seq<real>, base: seq<real>, t: nat, i: nat, j: nat, gi: real, gj: real, gj': real)
    requires Setting(shapes, values, base, t) && j < i <= t && Reaches(shapes, t, i)
    requires ShapeOk(shapes[i], i) && !Degenerate(shapes, values, i)
    requires gi == Chain(shapes, values, base, t, i)
    requires gj == base[j] + ChainSum(shapes, values, base, t, j, i + 1)
    requires gj' == gj + gi * LocalSum(shapes, values, i, j)
    ensures gj' == base[j] + ChainSum(shapes, values, base, t, j, i)
  {
    var c, p := Chain(shapes, values, base, t, i), LocalSum(shapes, values, i, j);
    ChainSumHead(shapes, values, base, t, j, i);
    Congruence(gi, c, p);
    Rearrange(gj', gj, gi * p, c * p, base[j], ChainSum(shapes, values, base, t, j, i + 1), ChainSum(shapes, values, base, t, j, i));
  }

  /** The sum of a node below i starts with i's term. */
  lemma ChainSumHead(shapes: seq<Shape>, values: seq<real>, base: seq<real>, t: nat, j: nat, i: nat)
    requires Setting(shapes, values, base, t) && j < i <= t && Reaches(shapes, t, i)
    requires ShapeOk(shapes[i], i) && !Degenerate(shapes, values, i)
    ensures ChainSum(shapes, values, base, t, j, i)
         == Chain(shapes, values, base, t, i) * LocalSum(shapes, values, i, j) + ChainSum(shapes, values, base, t, j, i + 1)
  {
  }

  /** `v = g + m` with `g = b + s1` and `m = s - s1` gives `v = b + s`. */
  lemma Rearrange(v: real, g: real, m: real, m': real, b: real, s1: real, s: real)
    requires v == g + m && m == m' && g == b + s1 && s == m' + s1
    ensures v == b + s
  {
  }

  /** Equal factors give equal products; stated once so that the solver
      need not find it among the other products in scope. */
  lemma Congruence(a: real, b: real, c: real)
    requires a == b
    ensures a * c == b * c
  {
  }

  /** Running the rule of node i, which feeds t, once the nodes above i have
      been visited extends `SweptTo` to i: i's grad is final, the nodes from i
      up keep their grads, and each node below gains i's term. */
  lemma SweepRun(shapes: seq<Shape>, values: seq<real>, base: seq<real>, t: nat, g: seq<real>, g': seq<real>, i: nat)
    requires Setting(shapes, values, base, t) && i <= t && Reaches(shapes, t, i)
    requires ShapeOk(shapes[i], i) && !Degenerate(shapes, values, i)
    requires SweptTo(shapes, values, base, t, g, i + 1) && Accumulated(shapes, values, g, g', i)
    ensures SweptTo(shapes, values, base, t, g', i)
  {
    SweepGradFinal(shapes, values, base, t, g, i);
    forall j | 0 <= j < |g'| && (j >= i || j == t)
      ensures g'[j] == Chain(shapes, values, base, t, j)
    {
      PartialOutside(shapes, values, i, j);
    }
    forall j | 0 <= j < i && j < t
      ensures g'[j] == base[j] + ChainSum(shapes, values, base, t, j, i)
    {
      SweepRunBelow(shapes, values, base, t, i, j, g[i], g[j], g'[j]);
    }
  }

  /** Skipping node i, which does not feed t, extends `SweptTo` to i. */
  lemma SweepSkip(shapes: seq<Shape>, values: seq<real>, base: seq<real>, t: nat, g: seq<real>, i: nat)
    requires Setting(shapes, values, base, t) && i <= t && !Reaches(shapes, t, i)
    requires SweptTo(shapes, values, base, t, g, i + 1)
    ensures SweptTo(shapes, values, base, t, g, i)
  {
    assert i < t;
    assert g[i] == base[i] + ChainSum(shapes, values, base, t, i, i + 1);
    forall j | 0 <= j < i && j < t
      ensures g[j] == base[j] + ChainSum(shapes, values, base, t, j, i)
    {
    }
  }

  /** From `SweptTo(g, m)` on, a sweep ends with the reference grads and
      does not raise. */
  lemma {:induction false} SweepFrom(shapes: seq<Shape>, values: seq<real>, base: seq<real>, t: nat, g: seq<real>, m: nat)
    requires Setting(shapes, values, base, t) && Smooth(shapes, values, t)
    requires m <= t + 1 && SweptTo(shapes, values, base, t, g, m)
    ensures Sweep(shapes, values, g, t, m) == Outcome(ChainVec(shapes, values, base, t), false)
    decreases m
  {
    if m == 0 {
      assert g == ChainVec(shapes, values, base, t);
    } else {
      var i := m - 1;
      assert ShapeOk(shapes[i], i);
      if Reaches(shapes, t, i) {
        RuleAccumulated(shapes, values, g, i);
        var g' := Rule(shapes, values, g, i).value;
        SweepRun(shapes, values, base, t, g, g', i);
        SweepFrom(shapes, values, base, t, g', i);
      } else {
        SweepSkip(shapes, values, base, t, g, i);
        SweepFrom(shapes, values, base, t, g, i);
      }
    }
  }

  /** The reverse topological pass computes the chain rule on every graph
      whose POW rules do not raise: t ends with 1.0, every other node with
      its old grad plus its chain-rule total. */
  lemma SweepIsChain(shapes: seq<Shape>, values: seq<real>, base: seq<real>, t: nat)
    requires Setting(shapes, values, base, t) && Smooth(shapes, values, t)
    ensures Sweep(shapes, values, base[t := 1.0], t, t + 1) == Outcome(ChainVec(shapes, values, base, t), false)
  {
    SweepFrom(shapes, values, base, t, base[t := 1.0], t + 1);
  }

  /** The sweep over the nodes below m raises exactly when one of them feeds
      t and is a POW node whose rule raises. */
  lemma {:induction false} SweepRaises(shapes: seq<Shape>, values: seq<real>, g: seq<real>, t: nat, m: nat)
    requires Setting(shapes, values, g, t) && m <= t + 1
    ensures Sweep(shapes, values, g, t, m).raised
        <==> exists k :: 0 <= k < m && Reaches(shapes, t, k) && Degenerate(shapes, values, k)
    decreases m
  {
    if m > 0 {
      var i := m - 1;
      assert ShapeOk(shapes[i], i);
      if Reaches(shapes, t, i) && Degenerate(shapes, values, i) {
      } else if Reaches(shapes, t, i) {
        SweepRaises(shapes, values, Rule(shapes, values, g, i).value, t, i);
      } else {
        SweepRaises(shapes, values, g, t, i);
      }
    }
  }
}
