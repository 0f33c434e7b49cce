// Two graphs on which the FIFO `backward` of value.py computes gradients that
// differ from the chain rule, each run both through the loop as written
// (`Drain`, `Graph.Backward`) and through the reverse topological sweep
// (`Sweep`, `Graph.BackwardTopo`), which `ChainRule.SweepIsChain` proves
// correct on every graph.
module Findings {
  import opened Engine

  // ----- a shared node: x = Value(1.0); y = Value(2.0); a = x + y; b = x + a; c = a + b -----

  /** The graph of `c = (x + y) + (x + (x + y))`, that is `c = 3x + 2y`. All
      values differ, so every children set holds both operands. The hashes
      of 1.0, 2.0, 3.0 and 4.0 are 1, 2, 3 and 4, so a two-element set
      iterates these children in the order they were inserted. */
  function DagShapes(): seq<Shape> {
    [LeafShape, LeafShape, Shape(Add, [0, 1], [0, 1]), Shape(Add, [0, 2], [0, 2]), Shape(Add, [2, 3], [2, 3])]
  }

  function DagValues(): seq<real> {
    [1.0, 2.0, 3.0, 4.0, 7.0]
  }

  lemma DagWellFormed()
    ensures WellFormed(DagShapes())
  {
    var s := DagShapes();
    assert ShapeOk(s[2], 2) && ShapeOk(s[3], 3) && ShapeOk(s[4], 4);
  }

  /** One turn of the FIFO loop: pop c, run its rule, append its children. */
  lemma Pop(s: seq<Shape>, v: seq<real>, g: seq<real>, queue: seq<nat>, g': seq<real>, next: seq<nat>)
    requires Sized(s, v, g) && WellFormed(s) && InRange(queue, |s|) && queue != []
    requires Rule(s, v, g, queue[0]) == Some(g') && next == queue[1..] + s[queue[0]].children
    ensures Drain(s, v, g, queue) == Drain(s, v, g', next)
  {
  }

  /** A queue of leaves drains without changing a grad. */
  lemma {:induction false} LeavesDrain(s: seq<Shape>, v: seq<real>, g: seq<real>, queue: seq<nat>)
    requires Sized(s, v, g) && WellFormed(s) && InRange(queue, |s|)
    requires forall k :: 0 <= k < |queue| ==> s[queue[k]] == LeafShape
    ensures Drain(s, v, g, queue) == Outcome(g, false)
    decreases |queue|
  {
    if queue != [] {
      assert s[queue[0]] == LeafShape;
      Pop(s, v, g, queue, g, queue[1..]);
      LeavesDrain(s, v, g, queue[1..]);
    }
  }

  /** One turn of the sweep at a node that feeds t. */
  lemma Visit(s: seq<Shape>, v: seq<real>, g: seq<real>, t: nat, m: nat, g': seq<real>)
    requires Sized(s, v, g) && WellFormed(s) && t < |s| && 0 < m <= t + 1
    requires Reaches(s, t, m - 1) && Rule(s, v, g, m - 1) == Some(g')
    ensures Sweep(s, v, g, t, m) == Sweep(s, v, g', t, m - 1)
  {
  }

  /** The first three turns of the FIFO loop on the shared-node graph: `c`
      passes 1 to `a` and `b`, `a` passes 1 to x and y, then `b` passes 1 to
      x and 1 more to `a`, which is queued a second time. */
  lemma DagFifoFirstTurns()
    ensures WellFormed(DagShapes())
    ensures Drain(DagShapes(), DagValues(), [0.0, 0.0, 0.0, 0.0, 1.0], [4])
         == Drain(DagShapes(), DagValues(), [2.0, 1.0, 2.0, 1.0, 1.0], [0, 1, 0, 2])
  {
    var s, v := DagShapes(), DagValues();
    DagWellFormed();
    assert Bump(Bump([0.0, 0.0, 0.0, 0.0, 1.0], 2, 1.0), 3, 1.0) == [0.0, 0.0, 1.0, 1.0, 1.0];
    Pop(s, v, [0.0, 0.0, 0.0, 0.0, 1.0], [4], [0.0, 0.0, 1.0, 1.0, 1.0], [2, 3]);
    assert Bump(Bump([0.0, 0.0, 1.0, 1.0, 1.0], 0, 1.0), 1, 1.0) == [1.0, 1.0, 1.0, 1.0, 1.0];
    Pop(s, v, [0.0, 0.0, 1.0, 1.0, 1.0], [2, 3], [1.0, 1.0, 1.0, 1.0, 1.0], [3, 0, 1]);
    assert Bump(Bump([1.0, 1.0, 1.0, 1.0, 1.0], 0, 1.0), 2, 1.0) == [2.0, 1.0, 2.0, 1.0, 1.0];
    Pop(s, v, [1.0, 1.0, 1.0, 1.0, 1.0], [3, 0, 1], [2.0, 1.0, 2.0, 1.0, 1.0], [0, 1, 0, 2]);
  }

  /** The last two turns pop the leaves x and y, which change nothing. */
  lemma DagFifoTail()
    ensures WellFormed(DagShapes())
    ensures Drain(DagShapes(), DagValues(), [4.0, 3.0, 2.0, 1.0, 1.0], [0, 1])
         == Outcome([4.0, 3.0, 2.0, 1.0, 1.0], false)
  {
    var s, v, g := DagShapes(), DagValues(), [4.0, 3.0, 2.0, 1.0, 1.0];
    DagWellFormed();
    Pop(s, v, g, [0, 1], g, [1]);
    Pop(s, v, g, [1], g, []);
  }

  /** After three leaves, `a` is popped again, now holding grad 2, and
      passes 2 more to x and to y. */
  lemma DagFifoAgainAtA()
    ensures WellFormed(DagShapes())
    ensures Drain(DagShapes(), DagValues(), [2.0, 1.0, 2.0, 1.0, 1.0], [0, 1, 0, 2])
         == Outcome([4.0, 3.0, 2.0, 1.0, 1.0], false)
  {
    var s, v := DagShapes(), DagValues();
    DagWellFormed();
    var g := [2.0, 1.0, 2.0, 1.0, 1.0];
    Pop(s, v, g, [0, 1, 0, 2], g, [1, 0, 2]);
    Pop(s, v, g, [1, 0, 2], g, [0, 2]);
    Pop(s, v, g, [0, 2], g, [2]);
    assert Bump(Bump(g, 0, 2.0), 1, 2.0) == [4.0, 3.0, 2.0, 1.0, 1.0];
    Pop(s, v, g, [2], [4.0, 3.0, 2.0, 1.0, 1.0], [0, 1]);
    DagFifoTail();
  }

  /** The FIFO loop reaches `a` twice (from `c` and from `b`) and runs its
      rule each time with the grad it holds then, so x ends with 4 and y
      with 3, where dc/dx = 3 and dc/dy = 2. */
  lemma DagFifoOverCounts()
    ensures WellFormed(DagShapes())
    ensures Drain(DagShapes(), DagValues(), [0.0, 0.0, 0.0, 0.0, 1.0], [4])
         == Outcome([4.0, 3.0, 2.0, 1.0, 1.0], false)
  {
    DagFifoFirstTurns();
    DagFifoAgainAtA();
  }

  /** The sweep runs each rule once, after all consumers: x ends with 3 and
      y with 2, the partial derivatives of `c = 3x + 2y`. */
  lemma DagSweepExact()
    ensures WellFormed(DagShapes())
    ensures Sweep(DagShapes(), DagValues(), [0.0, 0.0, 0.0, 0.0, 1.0], 4, 5)
         == Outcome([3.0, 2.0, 2.0, 1.0, 1.0], false)
  {
    var s, v := DagShapes(), DagValues();
    DagWellFormed();
    var g := [3.0, 2.0, 2.0, 1.0, 1.0];
    assert Bump(Bump([0.0, 0.0, 0.0, 0.0, 1.0], 2, 1.0), 3, 1.0) == [0.0, 0.0, 1.0, 1.0, 1.0];
    Visit(s, v, [0.0, 0.0, 0.0, 0.0, 1.0], 4, 5, [0.0, 0.0, 1.0, 1.0, 1.0]);
    assert Bump(Bump([0.0, 0.0, 1.0, 1.0, 1.0], 0, 1.0), 2, 1.0) == [1.0, 0.0, 2.0, 1.0, 1.0];
    Visit(s, v, [0.0, 0.0, 1.0, 1.0, 1.0], 4, 4, [1.0, 0.0, 2.0, 1.0, 1.0]);
    assert Bump(Bump([1.0, 0.0, 2.0, 1.0, 1.0], 0, 2.0), 1, 2.0) == g;
    Visit(s, v, [1.0, 0.0, 2.0, 1.0, 1.0], 4, 3, g);
    Visit(s, v, g, 4, 2, g);
    Visit(s, v, g, 4, 1, g);
  }

  /** Builds the shared-node graph with the operations of `Value`. */
  method BuildShared(g: Graph) returns (x: nat, y: nat, c: nat)
    requires g.Valid() && g.shapes == []
    modifies g
    ensures g.Valid() && g.shapes == DagShapes() && g.values == DagValues()
    ensures g.grads == [0.0, 0.0, 0.0, 0.0, 0.0]
    ensures x == 0 && y == 1 && c == 4
  {
    x := g.NewValue(1.0);
    y := g.NewValue(2.0);
    var a := g.Add(x, Ref(y));
    var b := g.Add(x, Ref(a));
    c := g.Add(a, Ref(b));
  }

  /** `c.backward()` as written leaves x.grad = 4 and y.grad = 3. */
  method SharedNodeBackward() returns (ok: bool, dx: real, dy: real)
    ensures ok && dx == 4.0 && dy == 3.0
  {
    var g := new Graph(v => v, v => v);
    var x, y, c := BuildShared(g);
    assert g.grads[c := 1.0] == [0.0, 0.0, 0.0, 0.0, 1.0];
    DagFifoOverCounts();
    ok := g.Backward(c);
    dx, dy := g.grads[x], g.grads[y];
  }

  /** The same call through the reverse topological sweep leaves x.grad = 3
      and y.grad = 2. */
  method SharedNodeBackwardTopo() returns (ok: bool, dx: real, dy: real)
    ensures ok && dx == 3.0 && dy == 2.0
  {
    var g := new Graph(v => v, v => v);
    var x, y, c := BuildShared(g);
    assert g.grads[c := 1.0] == [0.0, 0.0, 0.0, 0.0, 1.0];
    DagSweepExact();
    ok := g.BackwardTopo(c);
    dx, dy := g.grads[x], g.grads[y];
  }

  // ----- equal values: x = Value(2.0); w = Value(1.0); y = w + w; z = x + y -----

  /** The graph of `z = x + 2w`. `x` and `y` both hold 2.0, so the children
      set of `z` keeps `x` only, and `w + w` has the single child `w`. */
  function TwinShapes(): seq<Shape> {
    [LeafShape, LeafShape, Shape(Add, [1, 1], [1]), Shape(Add, [0, 2], [0])]
  }

  function TwinValues(): seq<real> {
    [2.0, 1.0, 2.0, 4.0]
  }

  lemma TwinWellFormed()
    ensures WellFormed(TwinShapes())
  {
    var s := TwinShapes();
    assert ShapeOk(s[2], 2) && ShapeOk(s[3], 3);
  }

  /** The FIFO loop never reaches `y`, so the rule of `w + w` never runs and
      w ends with grad 0 where dz/dw = 2. */
  lemma TwinFifoDropsNode()
    ensures WellFormed(TwinShapes())
    ensures Drain(TwinShapes(), TwinValues(), [0.0, 0.0, 0.0, 1.0], [3])
         == Outcome([1.0, 0.0, 1.0, 1.0], false)
  {
    var s, v := TwinShapes(), TwinValues();
    TwinWellFormed();
    var g := [1.0, 0.0, 1.0, 1.0];
    assert Bump(Bump([0.0, 0.0, 0.0, 1.0], 0, 1.0), 2, 1.0) == g;
    Pop(s, v, [0.0, 0.0, 0.0, 1.0], [3], g, [0]);
    LeavesDrain(s, v, g, [0]);
  }

  /** The sweep follows operands, not children, and gives w its grad 2. */
  lemma TwinSweepExact()
    ensures WellFormed(TwinShapes())
    ensures Sweep(TwinShapes(), TwinValues(), [0.0, 0.0, 0.0, 1.0], 3, 4)
         == Outcome([1.0, 2.0, 1.0, 1.0], false)
  {
    var s, v := TwinShapes(), TwinValues();
    TwinWellFormed();
    var g := [1.0, 2.0, 1.0, 1.0];
    assert Bump(Bump([0.0, 0.0, 0.0, 1.0], 0, 1.0), 2, 1.0) == [1.0, 0.0, 1.0, 1.0];
    Visit(s, v, [0.0, 0.0, 0.0, 1.0], 3, 4, [1.0, 0.0, 1.0, 1.0]);
    assert Bump(Bump([1.0, 0.0, 1.0, 1.0], 1, 1.0), 1, 1.0) == g;
    Visit(s, v, [1.0, 0.0, 1.0, 1.0], 3, 3, g);
    Visit(s, v, g, 3, 2, g);
    Visit(s, v, g, 3, 1, g);
  }

  /** Builds the equal-values graph with the operations of `Value`. */
  method BuildTwin(g: Graph) returns (w: nat, z: nat)
    requires g.Valid() && g.shapes == []
    modifies g
    ensures g.Valid() && g.shapes == TwinShapes() && g.values == TwinValues()
    ensures g.grads == [0.0, 0.0, 0.0, 0.0]
    ensures w == 1 && z == 3
  {
    var x := g.NewValue(2.0);
    w := g.NewValue(1.0);
    assert ChildrenOf([2.0, 1.0], [1, 1]) == [1];
    var y := g.Add(w, Ref(w));
    assert ChildrenOf([2.0, 1.0, 2.0], [0, 2]) == [0];
    z := g.Add(x, Ref(y));
  }

  /** `z.backward()` as written leaves w.grad = 0. */
  method TwinBackward() returns (ok: bool, dw: real)
    ensures ok && dw == 0.0
  {
    var g := new Graph(v => v, v => v);
    var w, z := BuildTwin(g);
    assert g.grads[z := 1.0] == [0.0, 0.0, 0.0, 1.0];
    TwinFifoDropsNode();
    ok := g.Backward(z);
    dw := g.grads[w];
  }

  /** The same call through the sweep leaves w.grad = 2. */
  method TwinBackwardTopo() returns (ok: bool, dw: real)
    ensures ok && dw == 2.0
  {
    var g := new Graph(v => v, v => v);
    var w, z := BuildTwin(g);
    assert g.grads[z := 1.0] == [0.0, 0.0, 0.0, 1.0];
    TwinSweepExact();
    ok := g.BackwardTopo(z);
    dw := g.grads[w];
  }
}
