/** The FIFO pass of `Value.backward` (micrograd/value.py:142-148) held
    against the chain rule: on a graph where every node that feeds the
    output feeds it along one path, where no two operands of such a node
    carry equal values, and where no POW rule raises, the pass leaves each
    node with its chain-rule grad. */
module Fifo {
  import opened Engine
  import opened ChainRule

  /** The shape of graph on which the FIFO pass is exact: every node that
      feeds t has all its operands in its children set, is consumed by at
      most one node that feeds t, and does not raise. */
  ghost predicate Tree(shapes: seq<Shape>, values: seq<real>, t: nat)
    requires WellFormed(shapes) && |values| == |shapes| && t < |shapes|
  {
    && Smooth(shapes, values, t)
    && (forall k, x :: 0 <= k <= t && Reaches(shapes, t, k) && Consumes(shapes, k, x) ==> x in shapes[k].children)
    && (forall k1, k2, x ::
          (0 <= k1 <= t && 0 <= k2 <= t && Reaches(shapes, t, k1) && Reaches(shapes, t, k2)
           && Consumes(shapes, k1, x) && Consumes(shapes, k2, x)) ==> k1 == k2)
  }

  /** Node k takes x as an operand. */
  predicate Consumes(shapes: seq<Shape>, k: nat, x: nat) {
    k < |shapes| && x in shapes[k].operands
  }

  // ----- the bookkeeping of a pass in progress -----
  // R is the set of nodes that feed t, `done` the set of nodes whose rule
  // has run, `queue` the deque.

  /** R is exactly the set of nodes that feed t. */
  ghost predicate ReachedSet(shapes: seq<Shape>, t: nat, R: set<nat>)
    requires WellFormed(shapes) && t < |shapes|
  {
    forall k :: k in R <==> 0 <= k <= t && Reaches(shapes, t, k)
  }

  /** `Tree` restated over R: R lies below t, is closed under operands, has
      no raising POW node, every node of R has all its operands among its
      children, and no two nodes of R share an operand. */
  ghost predicate TreeOn(shapes: seq<Shape>, values: seq<real>, t: nat, R: set<nat>)
    requires WellFormed(shapes) && |values| == |shapes| && t < |shapes|
  {
    && (forall k :: k in R ==> k <= t && !Degenerate(shapes, values, k))
    && (forall k, x :: k in R && Consumes(shapes, k, x) ==> x in R && x in shapes[k].children)
    && (forall k1, k2, x :: k1 in R && k2 in R && Consumes(shapes, k1, x) && Consumes(shapes, k2, x) ==> k1 == k2)
  }

  /** The deque holds distinct nodes of R that have not run, the nodes that
      have run are in R, t has run or is waiting, the operands of a node that
      has run have run or are waiting, and every node other than t that has
      run or is waiting was queued by a consumer that has run. */
  ghost predicate Pending(shapes: seq<Shape>, t: nat, R: set<nat>, queue: seq<nat>, done: set<nat>)
  {
    && (forall a :: 0 <= a < |queue| ==> queue[a] in R && queue[a] !in done)
    && (forall a, b :: 0 <= a < b < |queue| ==> queue[a] != queue[b])
    && done <= R
    && (t in done || t in queue)
    && (forall k, x :: k in done && Consumes(shapes, k, x) ==> x in done || x in queue)
    && (forall j :: (j in done || j in queue) && j != t ==>
          exists k :: k in done && Consumes(shapes, k, j))
  }

  /** The grads: the nodes that have run or are waiting hold their final
      grads, all others their grads from before the pass. */
  ghost predicate Settled(shapes: seq<Shape>, values: seq<real>, base: seq<real>, t: nat, g: seq<real>, queue: seq<nat>, done: set<nat>)
    requires Setting(shapes, values, base, t)
  {
    && |g| == |base|
    && (forall j :: 0 <= j < |g| && (j in done || j in queue) ==> g[j] == Chain(shapes, values, base, t, j))
    && (forall j :: 0 <= j < |g| && j !in done && j !in queue ==> g[j] == base[j])
  }

  // ----- one step of the pass -----

  /** On a tree, the operands of the node at the front of the deque are in
      R and have neither run nor been queued: their only consumer has not
      run. */
  lemma Fresh(shapes: seq<Shape>, values: seq<real>, t: nat, R: set<nat>, queue: seq<nat>, done: set<nat>)
    requires WellFormed(shapes) && |values| == |shapes| && t < |shapes| && TreeOn(shapes, values, t, R)
    requires Pending(shapes, t, R, queue, done) && queue != []
    ensures queue[0] in R && queue[0] < |shapes| && ShapeOk(shapes[queue[0]], queue[0])
    ensures !Degenerate(shapes, values, queue[0])
    ensures forall x :: x in shapes[queue[0]].children ==> Consumes(shapes, queue[0], x)
    ensures forall x :: Consumes(shapes, queue[0], x) ==>
              x in shapes[queue[0]].children && x in R && x !in done && x !in queue && x < queue[0]
  {
    var c := queue[0];
    assert c in R;
    assert ShapeOk(shapes[c], c);
    forall x | x in shapes[c].children
      ensures Consumes(shapes, c, x)
    {
      var i :| 0 <= i < |shapes[c].children| && shapes[c].children[i] == x;
    }
    forall x | Consumes(shapes, c, x)
      ensures x !in done && x !in queue
    {
      if x in done || x in queue {
        var k :| k in done && Consumes(shapes, k, x);
        assert false;
      }
    }
  }

  /** A node's children are distinct. */
  lemma ChildrenDistinct(s: Shape, i: nat)
    requires ShapeOk(s, i)
    ensures forall a, b :: 0 <= a < b < |s.children| ==> s.children[a] != s.children[b]
  {
    assert |s.children| <= 2;
  }

  /** Two sequences without repeats and without common elements make a
      sequence without repeats. */
  lemma DistinctAppend(q: seq<nat>, r: seq<nat>)
    requires forall a, b :: 0 <= a < b < |q| ==> q[a] != q[b]
    requires forall a, b :: 0 <= a < b < |r| ==> r[a] != r[b]
    requires forall x :: x in r ==> x !in q
    ensures forall a, b :: 0 <= a < b < |q + r| ==> (q + r)[a] != (q + r)[b]
  {
    forall a, b | 0 <= a < b < |q + r|
      ensures (q + r)[a] != (q + r)[b]
    {
      if b >= |q| && a < |q| {
        assert (q + r)[b] in r;
      }
    }
  }

  /** Popping the front c of a deque of distinct nodes of R that have not
      run, and queueing distinct nodes of R that have neither run nor been
      queued, keeps the deque made of distinct nodes of R that have not run
      ... */
  lemma QueueStep(R: set<nat>, queue: seq<nat>, done: set<nat>, ch: seq<nat>)
    requires queue != []
    requires forall a :: 0 <= a < |queue| ==> queue[a] in R && queue[a] !in done
    requires forall a, b :: 0 <= a < b < |queue| ==> queue[a] != queue[b]
    requires forall a, b :: 0 <= a < b < |ch| ==> ch[a] != ch[b]
    requires forall x :: x in ch ==> x in R && x !in done && x !in queue
    ensures var q' := queue[1..] + ch;
            && (forall a :: 0 <= a < |q'| ==> q'[a] in R && q'[a] !in done + {queue[0]})
            && (forall a, b :: 0 <= a < b < |q'| ==> q'[a] != q'[b])
  {
    var c, rest := queue[0], queue[1..];
    assert forall a :: 0 <= a < |rest| ==> rest[a] == queue[a + 1];
    assert forall x :: x in rest ==> x in queue && x != c;
    DistinctAppend(rest, ch);
    forall a | 0 <= a < |rest + ch|
      ensures (rest + ch)[a] in R && (rest + ch)[a] !in done + {c}
    {
      if a >= |rest| {
        assert (rest + ch)[a] in ch;
      }
    }
  }

  /** ... and keeps the rest of `Pending`. */
  lemma LinkStep(shapes: seq<Shape>, values: seq<real>, t: nat, R: set<nat>, queue: seq<nat>, done: set<nat>)
    requires WellFormed(shapes) && |values| == |shapes| && t < |shapes| && TreeOn(shapes, values, t, R)
    requires Pending(shapes, t, R, queue, done) && queue != []
    ensures var c := queue[0]; var q', d' := queue[1..] + shapes[c].children, done + {c};
            && d' <= R
            && (t in d' || t in q')
            && (forall k, x :: k in d' && Consumes(shapes, k, x) ==> x in d' || x in q')
            && (forall j :: (j in d' || j in q') && j != t ==>
                  exists k :: k in d' && Consumes(shapes, k, j))
  {
    var c := queue[0];
    Fresh(shapes, values, t, R, queue, done);
    var ch := shapes[c].children;
    var q', d' := queue[1..] + ch, done + {c};
    assert queue == [c] + queue[1..];
    forall k, x | k in d' && Consumes(shapes, k, x)
      ensures x in d' || x in q'
    {
      if k == c {
        assert x in ch;
      }
    }
    forall j | (j in d' || j in q') && j != t
      ensures exists k :: k in d' && Consumes(shapes, k, j)
    {
      if j in ch {
        assert c in d' && Consumes(shapes, c, j);
      } else {
        assert j in done || j in queue;
        var k :| k in done && Consumes(shapes, k, j);
        assert k in d';
      }
    }
  }

  /** Popping c keeps `Pending`. */
  lemma PendingStep(shapes: seq<Shape>, values: seq<real>, t: nat, R: set<nat>, queue: seq<nat>, done: set<nat>)
    requires WellFormed(shapes) && |values| == |shapes| && t < |shapes| && TreeOn(shapes, values, t, R)
    requires Pending(shapes, t, R, queue, done) && queue != []
    ensures Pending(shapes, t, R, queue[1..] + shapes[queue[0]].children, done + {queue[0]})
  {
    Fresh(shapes, values, t, R, queue, done);
    var c := queue[0];
    var ch := shapes[c].children;
    ChildrenDistinct(shapes[c], c);
    forall x | x in ch
      ensures x in R && x !in done && x !in queue
    {
      assert Consumes(shapes, c, x);
    }
    QueueStep(R, queue, done, ch);
    LinkStep(shapes, values, t, R, queue, done);
  }

  /** An operand j of c that gains c's final grad times the local partial,
      on top of its old grad, ends with its chain-rule grad. */
  lemma SettledOperand(shapes: seq<Shape>, values: seq<real>, base: seq<real>, t: nat, c: nat, j: nat,
                       gc: real, gj: real, gj': real)
    requires Setting(shapes, values, base, t) && c <= t && Reaches(shapes, t, c) && j in shapes[c].operands
    requires ShapeOk(shapes[c], c) && !Degenerate(shapes, values, c)
    requires SoleConsumer(shapes, t, c, j)
    requires gc == Chain(shapes, values, base, t, c) && gj == base[j]
    requires gj' == gj + gc * LocalSum(shapes, values, c, j)
    ensures gj' == Chain(shapes, values, base, t, j)
  {
    var p := Partial(shapes, values, c, j);
    assert p == LocalSum(shapes, values, c, j);
    var cc := Chain(shapes, values, base, t, c);
    ChainOneConsumer(shapes, values, base, t, j, c);
    assert gc * p == cc * p;
  }

  /** No node other than c that feeds t takes j as an operand. */
  ghost predicate SoleConsumer(shapes: seq<Shape>, t: nat, c: nat, j: nat)
    requires WellFormed(shapes) && t < |shapes|
  {
    forall k :: 0 <= k <= t && k != c && Reaches(shapes, t, k) ==> j !in shapes[k].operands
  }

  /** In R, c is the only consumer of each of its operands. */
  lemma OnlyConsumer(shapes: seq<Shape>, values: seq<real>, t: nat, R: set<nat>, c: nat, j: nat)
    requires WellFormed(shapes) && |values| == |shapes| && t < |shapes| && TreeOn(shapes, values, t, R)
    requires ReachedSet(shapes, t, R) && c in R
    ensures c <= t && Reaches(shapes, t, c)
    ensures j in shapes[c].operands ==> SoleConsumer(shapes, t, c, j)
  {
    forall k | 0 <= k <= t && k != c && Reaches(shapes, t, k) && j in shapes[c].operands
      ensures j !in shapes[k].operands
    {
      if j in shapes[k].operands {
        assert Consumes(shapes, k, j) && Consumes(shapes, c, j);
      }
    }
  }

  /** Running the rule of c, the front of the deque, settles c's operands
      and leaves every other node as it was. The facts about c are those
      `Fresh` and `OnlyConsumer` give on a tree. */
  lemma SettledStep(shapes: seq<Shape>, values: seq<real>, base: seq<real>, t: nat,
                    g: seq<real>, g': seq<real>, queue: seq<nat>, done: set<nat>)
    requires Setting(shapes, values, base, t) && queue != [] && queue[0] < |shapes|
    requires ShapeOk(shapes[queue[0]], queue[0]) && !Degenerate(shapes, values, queue[0])
    requires queue[0] <= t && Reaches(shapes, t, queue[0])
    requires forall x :: x in shapes[queue[0]].children ==> Consumes(shapes, queue[0], x)
    requires forall x :: Consumes(shapes, queue[0], x) ==>
               x in shapes[queue[0]].children && x !in done && x !in queue && SoleConsumer(shapes, t, queue[0], x)
    requires Settled(shapes, values, base, t, g, queue, done)
    requires Accumulated(shapes, values, g, g', queue[0])
    ensures Settled(shapes, values, base, t, g', queue[1..] + shapes[queue[0]].children, done + {queue[0]})
  {
    var c := queue[0];
    assert queue == [c] + queue[1..];
    forall j | 0 <= j < |g'| && Consumes(shapes, c, j)
      ensures g'[j] == Chain(shapes, values, base, t, j)
    {
      SettledOperand(shapes, values, base, t, c, j, g[c], g[j], g'[j]);
    }
    forall j | 0 <= j < |g'| && !Consumes(shapes, c, j)
      ensures g'[j] == g[j]
    {
      PartialOutside(shapes, values, c, j);
    }
  }

  /** With the deque empty, every node that feeds t has run, so the grads
      are the chain-rule grads. */
  lemma SettledEnd(shapes: seq<Shape>, values: seq<real>, base: seq<real>, t: nat, R: set<nat>, g: seq<real>, done: set<nat>)
    requires Setting(shapes, values, base, t)
    requires Pending(shapes, t, R, [], done) && Settled(shapes, values, base, t, g, [], done)
    ensures g == ChainVec(shapes, values, base, t)
  {
    forall k, x | k in done && k < |shapes| && x in shapes[k].operands
      ensures x in done
    {
      assert Consumes(shapes, k, x);
    }
    forall j | 0 <= j < |g|
      ensures g[j] == Chain(shapes, values, base, t, j)
    {
      if j !in done {
        if Reaches(shapes, t, j) {
          ClosedHoldsReached(shapes, done, t, j);
        }
        ChainUnreached(shapes, values, base, t, j);
      }
    }
  }

  /** From a state with this bookkeeping on, the FIFO pass ends with the
      chain-rule grads and does not raise. */
  lemma {:induction false} DrainFrom(shapes: seq<Shape>, values: seq<real>, base: seq<real>, t: nat, R: set<nat>,
                                     g: seq<real>, queue: seq<nat>, done: set<nat>)
    requires Setting(shapes, values, base, t) && TreeOn(shapes, values, t, R) && ReachedSet(shapes, t, R)
    requires Pending(shapes, t, R, queue, done) && Settled(shapes, values, base, t, g, queue, done)
    ensures InRange(queue, |shapes|)
    ensures Drain(shapes, values, g, queue) == Outcome(ChainVec(shapes, values, base, t), false)
    decreases Work(shapes, queue)
  {
    assert InRange(queue, |shapes|);
    if queue == [] {
      SettledEnd(shapes, values, base, t, R, g, done);
    } else {
      var c := queue[0];
      Fresh(shapes, values, t, R, queue, done);
      RuleAccumulated(shapes, values, g, c);
      var g' := Rule(shapes, values, g, c).value;
      PendingStep(shapes, values, t, R, queue, done);
      forall x | Consumes(shapes, c, x)
        ensures SoleConsumer(shapes, t, c, x)
      {
        OnlyConsumer(shapes, values, t, R, c, x);
      }
      OnlyConsumer(shapes, values, t, R, c, c);
      SettledStep(shapes, values, base, t, g, g', queue, done);
      WorkStep(shapes, queue);
      DrainFrom(shapes, values, base, t, R, g', queue[1..] + shapes[c].children, done + {c});
    }
  }

  /** A tree-shaped graph satisfies `TreeOn` for the set of nodes that feed
      its output. */
  lemma TreeReached(shapes: seq<Shape>, values: seq<real>, t: nat) returns (R: set<nat>)
    requires WellFormed(shapes) && |values| == |shapes| && t < |shapes| && Tree(shapes, values, t)
    ensures ReachedSet(shapes, t, R) && TreeOn(shapes, values, t, R) && t in R
  {
    R := set k | 0 <= k <= t && Reaches(shapes, t, k);
    forall k, x | k in R && Consumes(shapes, k, x)
      ensures x in R
    {
      ReachesOperand(shapes, t, k, x);
      ReachesBelow(shapes, t, x);
    }
    assert Reaches(shapes, t, t);
  }

  /** On a tree-shaped graph the FIFO pass of `backward` is exact: t ends with
      1.0, every other node with its old grad plus its chain-rule total,
      and no exception is raised. */
  lemma DrainIsChain(shapes: seq<Shape>, values: seq<real>, base: seq<real>, t: nat)
    requires Setting(shapes, values, base, t) && Tree(shapes, values, t)
    ensures Drain(shapes, values, base[t := 1.0], [t]) == Outcome(ChainVec(shapes, values, base, t), false)
  {
    var R := TreeReached(shapes, values, t);
    var g := base[t := 1.0];
    assert Pending(shapes, t, R, [t], {});
    DrainFrom(shapes, values, base, t, R, g, [t], {});
  }
}
