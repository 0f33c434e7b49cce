/** The scalar autodiff engine of micrograd/value.py, modelled as an arena.

    A `Value` object is an index into a `Graph`. What the source fixes when it
    builds a node (operation tag, the captured operands `self`/`other`, the
    `_children` set) is a `Shape`; what it changes later (`_value` by the
    optimizer, `_grad` by the backward rules) lives in the sequences `values`
    and `grads`. Each backward closure is replaced by the tag plus the operand
    indices and one dispatch function, `Rule`. */
module Engine {

  datatype Option<T> = None | Some(value: T)

  /** The `Operation` enum, plus `Leaf` for a node built without one. */
  datatype Op = Leaf | Add | Mul | Pow(p: int) | Exp | Tanh

  /** What an operator accepts: a raw number or an existing node. */
  datatype Operand = Num(x: real) | Ref(node: nat)

  /** The fixed part of a node: its tag, the operands its backward rule
      captured (self first), and its children set. */
  datatype Shape = Shape(op: Op, operands: seq<nat>, children: seq<nat>)

  const LeafShape := Shape(Leaf, [], [])

  function Arity(op: Op): nat {
    match op
    case Leaf => 0
    case Add => 2
    case Mul => 2
    case Pow(_) => 1
    case Exp => 1
    case Tanh => 1
  }

  predicate InRange(qs: seq<nat>, n: nat) {
    forall k :: 0 <= k < |qs| ==> qs[k] < n
  }

  /** Node i was built from earlier nodes only, with as many operands as its
      operation takes, and its children are some of those operands. */
  predicate ShapeOk(s: Shape, i: nat) {
    && |s.operands| == Arity(s.op)
    && InRange(s.operands, i)
    && |s.children| <= |s.operands|
    && InRange(s.children, i)
    && (forall k :: 0 <= k < |s.children| ==> s.children[k] in s.operands)
    && (|s.children| == 2 ==> s.children[0] != s.children[1])
  }

  predicate WellFormed(shapes: seq<Shape>) {
    forall i :: 0 <= i < |shapes| ==> ShapeOk(shapes[i], i)
  }

  predicate Sized(shapes: seq<Shape>, values: seq<real>, grads: seq<real>) {
    |values| == |shapes| && |grads| == |shapes|
  }

  /** `x ** n` for a natural exponent. */
  function NatPower(x: real, n: nat): (r: real)
    ensures x != 0.0 ==> r != 0.0
    ensures n == 0 ==> r == 1.0
  {
    if n == 0 then 1.0 else x * NatPower(x, n - 1)
  }

  /** `x ** n` for an integer exponent; Python raises ZeroDivisionError when
      x is zero and n negative, which the requires excludes. */
  function Power(x: real, n: int): real
    requires x != 0.0 || n >= 0
  {
    if n >= 0 then NatPower(x, n) else 1.0 / NatPower(x, -n)
  }

  /** d/dx of `x ** p`: `p * x ** (p - 1)`, defined unless x is zero and
      `p - 1` negative. */
  function PowSlope(x: real, p: int): real
    requires x != 0.0 || p - 1 >= 0
  {
    (p as real) * Power(x, p - 1)
  }

  /** Some node of `cs` holds the value v. */
  predicate HasValue(values: seq<real>, cs: seq<nat>, v: real)
    requires InRange(cs, |values|)
  {
    exists k :: 0 <= k < |cs| && values[cs[k]] == v
  }

  /** The `_children` set: `set((self, other))` under the value-based
      `__hash__`/`__eq__`. An operand whose value equals that of an operand
      already in the set is not added, so the first one stays. Every
      operation passes one or two operands. */
  function ChildrenOf(values: seq<real>, ops: seq<nat>): seq<nat>
    requires |ops| <= 2 && InRange(ops, |values|)
  {
    if |ops| == 2 && values[ops[0]] == values[ops[1]] then ops[..1] else ops
  }

  /** The children are a set of operands keyed by value: they are operands,
      no two of them carry equal values, every operand's value is carried by
      one of them, and the first operand is always among them. */
  lemma ChildrenOfIsSet(values: seq<real>, ops: seq<nat>)
    requires |ops| <= 2 && InRange(ops, |values|)
    ensures var cs := ChildrenOf(values, ops);
            && |cs| <= |ops| && InRange(cs, |values|)
            && (forall k :: 0 <= k < |cs| ==> cs[k] in ops)
            && (forall i, j :: 0 <= i < j < |cs| ==> values[cs[i]] != values[cs[j]])
            && (forall k :: 0 <= k < |ops| ==> HasValue(values, cs, values[ops[k]]))
            && (|ops| > 0 ==> |cs| > 0 && cs[0] == ops[0])
  {
    var cs := ChildrenOf(values, ops);
    forall k | 0 <= k < |ops|
      ensures HasValue(values, cs, values[ops[k]])
    {
      if cs == ops {
        assert values[cs[k]] == values[ops[k]];
      } else {
        assert values[cs[0]] == values[ops[k]];
      }
    }
  }

  /** `x ** -1` is `1 / x`. */
  lemma Reciprocal(y: real, x: real)
    requires x != 0.0
    ensures Power(x, -1) == 1.0 / x && y * Power(x, -1) == y / x
  {
    assert NatPower(x, 1) == x * NatPower(x, 0);
  }

  /** `__eq__`: two values are equal when their forward values are; a number
      is compared as the value of the leaf it would be wrapped in. */
  function Equal(values: seq<real>, a: nat, other: Operand): (r: bool)
    requires a < |values| && (other.Ref? ==> other.node < |values|)
    ensures r <==> values[a] == OperandValue(values, other)
  {
    match other
    case Num(x) => values[a] == x
    case Ref(i) => values[a] == values[i]
  }

  /** The forward value of an operand once converted to a node. */
  function OperandValue(values: seq<real>, o: Operand): real
    requires o.Ref? ==> o.node < |values|
  {
    match o
    case Num(x) => x
    case Ref(i) => values[i]
  }

  /** `__eq__` is what keys the children set: no child is `==` to another
      child, and every operand is `==` to some child, so a caller comparing
      an operand against the children always finds its representative. */
  lemma ChildrenKeyedByEqual(values: seq<real>, ops: seq<nat>)
    requires |ops| <= 2 && InRange(ops, |values|)
    ensures var cs := ChildrenOf(values, ops);
            && InRange(cs, |values|)
            && (forall i, j :: 0 <= i < j < |cs| ==> !Equal(values, cs[i], Ref(cs[j])))
            && (forall k :: 0 <= k < |ops| ==> exists i :: 0 <= i < |cs| && Equal(values, cs[i], Ref(ops[k])))
  {
    var cs := ChildrenOf(values, ops);
    ChildrenOfIsSet(values, ops);
    forall k | 0 <= k < |ops|
      ensures exists i :: 0 <= i < |cs| && Equal(values, cs[i], Ref(ops[k]))
    {
      assert HasValue(values, cs, values[ops[k]]);
      var i :| 0 <= i < |cs| && values[cs[i]] == values[ops[k]];
      assert Equal(values, cs[i], Ref(ops[k]));
    }
  }

  /** The index `_convert_other` yields: the node itself, or the leaf it
      allocates next (at index `next`). */
  function Target(o: Operand, next: nat): nat {
    match o
    case Num(_) => next
    case Ref(i) => i
  }

  /** What `_convert_other` appends to the arena. */
  function LeavesFor(o: Operand): seq<Shape> {
    if o.Num? then [LeafShape] else []
  }

  function LeafValuesFor(o: Operand): seq<real> {
    if o.Num? then [o.x] else []
  }

  function Zeros(n: nat): (z: seq<real>)
    ensures |z| == n && forall k :: 0 <= k < n ==> z[k] == 0.0
  {
    if n == 0 then [] else Zeros(n - 1) + [0.0]
  }

  /** The POW rule evaluates `self.value ** (power - 1)`, which raises
      ZeroDivisionError for a zero base when `power - 1` is negative. */
  predicate Degenerate(shapes: seq<Shape>, values: seq<real>, c: nat)
    requires Sized(shapes, values, values) && c < |shapes| && ShapeOk(shapes[c], c)
  {
    shapes[c].op.Pow? && values[shapes[c].operands[0]] == 0.0 && shapes[c].op.p - 1 < 0
  }

  /** The partial derivative of node k with respect to node j, summed over the
      operand slots of k that hold j (so for `a + a` it is 2). */
  function LocalSum(shapes: seq<Shape>, values: seq<real>, k: nat, j: nat): real
    requires Sized(shapes, values, values) && k < |shapes| && ShapeOk(shapes[k], k)
    requires !Degenerate(shapes, values, k)
  {
    var ops := shapes[k].operands;
    match shapes[k].op
    case Leaf => 0.0
    case Add => (if ops[0] == j then 1.0 else 0.0) + (if ops[1] == j then 1.0 else 0.0)
    case Mul => (if ops[0] == j then values[ops[1]] else 0.0) + (if ops[1] == j then values[ops[0]] else 0.0)
    case Pow(p) => if ops[0] == j then PowSlope(values[j], p) else 0.0
    case Exp => if ops[0] == j then values[k] else 0.0
    case Tanh => if ops[0] == j then 1.0 - values[k] * values[k] else 0.0
  }

  /** `grads[i] += d`. */
  function Bump(grads: seq<real>, i: nat, d: real): (r: seq<real>)
    requires i < |grads|
    ensures |r| == |grads|
    ensures forall k :: 0 <= k < |grads| ==> r[k] == if k == i then grads[k] + d else grads[k]
  {
    grads[i := grads[i] + d]
  }

  /** The backward closure of node c, run once: it adds to the grads of the
      operands it captured and never overwrites them. */
  function Rule(shapes: seq<Shape>, values: seq<real>, grads: seq<real>, c: nat): (r: Option<seq<real>>)
    requires Sized(shapes, values, grads) && c < |shapes| && ShapeOk(shapes[c], c)
    ensures r.None? <==> Degenerate(shapes, values, c)
    ensures r.Some? ==> |r.value| == |grads|
  {
    var ops := shapes[c].operands;
    var out := grads[c];
    match shapes[c].op
    case Leaf => Some(grads)
    case Add => Some(Bump(Bump(grads, ops[0], out), ops[1], out))
    case Mul => Some(Bump(Bump(grads, ops[0], out * values[ops[1]]), ops[1], out * values[ops[0]]))
    case Pow(p) =>
      if values[ops[0]] == 0.0 && p - 1 < 0 then None
      else Some(Bump(grads, ops[0], out * PowSlope(values[ops[0]], p)))
    case Exp => Some(Bump(grads, ops[0], out * values[c]))
    case Tanh => Some(Bump(grads, ops[0], out * (1.0 - values[c] * values[c])))
  }

  /** Running node c's rule adds `grads[c]` times the local partial to every
      node: the operands accumulate (`a + a` gains twice), nothing is
      overwritten, and no other node changes. */
  lemma RuleAccumulates(shapes: seq<Shape>, values: seq<real>, grads: seq<real>, c: nat, j: nat)
    requires Sized(shapes, values, grads) && c < |shapes| && ShapeOk(shapes[c], c)
    requires !Degenerate(shapes, values, c) && j < |grads|
    ensures Rule(shapes, values, grads, c).Some?
    ensures Rule(shapes, values, grads, c).value[j] == grads[j] + grads[c] * LocalSum(shapes, values, c, j)
  {
    match shapes[c].op
    case Add => AddRuleAccumulates(shapes, values, grads, c, j);
    case Mul => MulRuleAccumulates(shapes, values, grads, c, j);
    case _ => UnaryRuleAccumulates(shapes, values, grads, c, j);
  }

  lemma AddRuleAccumulates(shapes: seq<Shape>, values: seq<real>, grads: seq<real>, c: nat, j: nat)
    requires Sized(shapes, values, grads) && c < |shapes| && ShapeOk(shapes[c], c)
    requires shapes[c].op.Add? && j < |grads|
    ensures Rule(shapes, values, grads, c).Some?
    ensures Rule(shapes, values, grads, c).value[j] == grads[j] + grads[c] * LocalSum(shapes, values, c, j)
  {
  }

  lemma MulRuleAccumulates(shapes: seq<Shape>, values: seq<real>, grads: seq<real>, c: nat, j: nat)
    requires Sized(shapes, values, grads) && c < |shapes| && ShapeOk(shapes[c], c)
    requires shapes[c].op.Mul? && j < |grads|
    ensures Rule(shapes, values, grads, c).Some?
    ensures Rule(shapes, values, grads, c).value[j] == grads[j] + grads[c] * LocalSum(shapes, values, c, j)
  {
  }

  lemma UnaryRuleAccumulates(shapes: seq<Shape>, values: seq<real>, grads: seq<real>, c: nat, j: nat)
    requires Sized(shapes, values, grads) && c < |shapes| && ShapeOk(shapes[c], c)
    requires !(shapes[c].op.Add? || shapes[c].op.Mul?)
    requires !Degenerate(shapes, values, c) && j < |grads|
    ensures Rule(shapes, values, grads, c).Some?
    ensures Rule(shapes, values, grads, c).value[j] == grads[j] + grads[c] * LocalSum(shapes, values, c, j)
  {
  }

  /** The POW closure of node c adds `out.grad` times the slope at its base. */
  lemma PowRule(shapes: seq<Shape>, values: seq<real>, grads: seq<real>, c: nat)
    requires Sized(shapes, values, grads) && c < |shapes| && ShapeOk(shapes[c], c)
    requires shapes[c].op.Pow? && !Degenerate(shapes, values, c)
    ensures var x := shapes[c].operands[0];
            Rule(shapes, values, grads, c) == Some(Bump(grads, x, grads[c] * PowSlope(values[x], shapes[c].op.p)))
  {
  }

  /** How many times a backward pass started at node i runs a rule: once for
      i and once per path from i through the children sets. */
  function Runs(shapes: seq<Shape>, i: nat): (n: nat)
    requires WellFormed(shapes) && i < |shapes|
    ensures n >= 1
    decreases i
  {
    var cs := shapes[i].children;
    assert ShapeOk(shapes[i], i);
    1 + (if |cs| > 0 then Runs(shapes, cs[0]) else 0) + (if |cs| > 1 then Runs(shapes, cs[1]) else 0)
  }

  /** The rule runs still owed to the nodes waiting in a queue. */
  function Work(shapes: seq<Shape>, queue: seq<nat>): nat
    requires WellFormed(shapes) && InRange(queue, |shapes|)
  {
    if queue == [] then 0 else Runs(shapes, queue[0]) + Work(shapes, queue[1..])
  }

  lemma {:induction false} WorkAppend(shapes: seq<Shape>, a: seq<nat>, b: seq<nat>)
    requires WellFormed(shapes) && InRange(a, |shapes|) && InRange(b, |shapes|)
    ensures InRange(a + b, |shapes|)
    ensures Work(shapes, a + b) == Work(shapes, a) + Work(shapes, b)
  {
    assert InRange(a + b, |shapes|) by {
      forall k | 0 <= k < |a + b| ensures (a + b)[k] < |shapes| {
        if k < |a| { assert (a + b)[k] == a[k]; } else { assert (a + b)[k] == b[k - |a|]; }
      }
    }
    if a == [] {
      assert a + b == b;
    } else {
      assert (a + b)[0] == a[0];
      assert (a + b)[1..] == a[1..] + b;
      WorkAppend(shapes, a[1..], b);
    }
  }

  lemma RunsUnfold(shapes: seq<Shape>, c: nat)
    requires WellFormed(shapes) && c < |shapes|
    ensures InRange(shapes[c].children, |shapes|)
    ensures Runs(shapes, c) == 1 + Work(shapes, shapes[c].children)
  {
    var cs := shapes[c].children;
    assert ShapeOk(shapes[c], c);
    if |cs| == 1 {
      assert Work(shapes, cs) == Runs(shapes, cs[0]) + Work(shapes, cs[1..]);
      assert cs[1..] == [];
    } else if |cs| == 2 {
      assert Work(shapes, cs) == Runs(shapes, cs[0]) + Work(shapes, cs[1..]);
      assert cs[1..][0] == cs[1];
      assert Work(shapes, cs[1..]) == Runs(shapes, cs[1]) + Work(shapes, cs[1..][1..]);
      assert cs[1..][1..] == [];
    }
  }

  /** Dequeuing c and enqueuing its children costs exactly one run. */
  lemma WorkStep(shapes: seq<Shape>, queue: seq<nat>)
    requires WellFormed(shapes) && InRange(queue, |shapes|) && queue != []
    ensures InRange(queue[1..] + shapes[queue[0]].children, |shapes|)
    ensures Work(shapes, queue[1..] + shapes[queue[0]].children) + 1 == Work(shapes, queue)
  {
    var c := queue[0];
    RunsUnfold(shapes, c);
    assert InRange(queue[1..], |shapes|) by {
      forall k | 0 <= k < |queue[1..]| ensures queue[1..][k] < |shapes| { assert queue[1..][k] == queue[k + 1]; }
    }
    WorkAppend(shapes, queue[1..], shapes[c].children);
  }

  /** What a backward pass leaves behind: the grads, and whether a rule raised
      (the grads then hold the updates made before the exception). */
  datatype Outcome = Outcome(grads: seq<real>, raised: bool)

  /** The loop of `backward`: pop the front of the FIFO queue, run its rule,
      append its children. There is no visited set. */
  function Drain(shapes: seq<Shape>, values: seq<real>, grads: seq<real>, queue: seq<nat>): (r: Outcome)
    requires Sized(shapes, values, grads) && WellFormed(shapes) && InRange(queue, |shapes|)
    ensures |r.grads| == |grads|
    decreases Work(shapes, queue)
  {
    if queue == [] then Outcome(grads, false)
    else
      var c := queue[0];
      assert ShapeOk(shapes[c], c);
      match Rule(shapes, values, grads, c)
      case None => Outcome(grads, true)
      case Some(g) =>
        WorkStep(shapes, queue);
        Drain(shapes, values, g, queue[1..] + shapes[c].children)
  }

  /** Node j feeds node t: it is t, or an operand of a node that feeds t.
      These are the nodes whose grads a backward pass from t may change. */
  function Reaches(shapes: seq<Shape>, t: nat, j: nat): bool
    requires WellFormed(shapes) && t < |shapes|
    decreases t
  {
    var ops := shapes[t].operands;
    assert ShapeOk(shapes[t], t);
    t == j || (|ops| > 0 && Reaches(shapes, ops[0], j)) || (|ops| > 1 && Reaches(shapes, ops[1], j))
  }

  /** A backward pass in reverse topological order: the nodes below m are
      visited from m - 1 down to 0, and the rule of each node that feeds t
      runs once. Every operand has a smaller index than its consumer, so a
      node's rule runs after the rules of all its consumers. */
  function Sweep(shapes: seq<Shape>, values: seq<real>, grads: seq<real>, t: nat, m: nat): (r: Outcome)
    requires Sized(shapes, values, grads) && WellFormed(shapes) && t < |shapes| && m <= t + 1
    ensures |r.grads| == |grads|
    decreases m
  {
    if m == 0 then Outcome(grads, false)
    else if !Reaches(shapes, t, m - 1) then Sweep(shapes, values, grads, t, m - 1)
    else
      assert ShapeOk(shapes[m - 1], m - 1);
      match Rule(shapes, values, grads, m - 1)
      case None => Outcome(grads, true)
      case Some(g) => Sweep(shapes, values, g, t, m - 1)
  }

  /** The arena of `Value` nodes. `mathExp` and `mathTanh` stand for
      `math.exp` and `math.tanh`, which the model does not define. */
  class Graph {
    const mathExp: real -> real
    const mathTanh: real -> real
    var shapes: seq<Shape>
    var values: seq<real>
    var grads: seq<real>

    ghost predicate Valid()
      reads this
    {
      Sized(shapes, values, grads) && WellFormed(shapes)
    }

    predicate Accepts(o: Operand)
      reads this
    {
      o.Ref? ==> o.node < |shapes|
    }

    constructor (exp: real -> real, tanh: real -> real)
      ensures Valid() && shapes == [] && values == [] && grads == []
      ensures mathExp == exp && mathTanh == tanh
    {
      mathExp, mathTanh := exp, tanh;
      shapes, values, grads := [], [], [];
    }

    /** `Value(v)`: a leaf with grad 0.0, no children and no operation, whose
        rule changes nothing. */
    method NewValue(v: real) returns (n: nat)
      requires Valid()
      modifies this
      ensures Valid() && n == old(|shapes|)
      ensures shapes == old(shapes) + [LeafShape]
      ensures values == old(values) + [v] && grads == old(grads) + [0.0]
    {
      n := |shapes|;
      shapes, values, grads := shapes + [LeafShape], values + [v], grads + [0.0];
    }

    /** `_convert_other`: a node is returned unchanged, a number is wrapped in
        a fresh leaf. */
    method Convert(o: Operand) returns (n: nat)
      requires Valid() && Accepts(o)
      modifies this
      ensures Valid() && n == Target(o, old(|shapes|)) && n < |shapes|
      ensures shapes == old(shapes) + LeavesFor(o)
      ensures values == old(values) + LeafValuesFor(o)
      ensures grads == old(grads) + Zeros(|LeavesFor(o)|)
      ensures values[n] == OperandValue(old(values), o)
    {
      match o
      case Ref(i) => n := i;
      case Num(x) => n := NewValue(x);
    }

    /** Appends node `Value(v, ops, op)` with its children set. */
    method Append(op: Op, ops: seq<nat>, v: real) returns (out: nat)
      requires Valid() && |ops| == Arity(op) && InRange(ops, |shapes|)
      modifies this
      ensures Valid() && out == old(|shapes|)
      ensures shapes == old(shapes) + [Shape(op, ops, ChildrenOf(old(values), ops))]
      ensures values == old(values) + [v] && grads == old(grads) + [0.0]
    {
      out := |shapes|;
      var s := Shape(op, ops, ChildrenOf(values, ops));
      shapes, values, grads := shapes + [s], values + [v], grads + [0.0];
      assert ShapeOk(shapes[out], out);
    }

    /** `__add__`: value `self.value + other.value`, tag ADD, children
        `{self, other}`. */
    method Add(a: nat, other: Operand) returns (out: nat)
      requires Valid() && a < |shapes| && Accepts(other)
      modifies this
      ensures Valid() && out == |shapes| - 1 && out == old(|shapes|) + |LeavesFor(other)|
      ensures var b, vs := Target(other, old(|shapes|)), old(values) + LeafValuesFor(other);
              shapes == old(shapes) + LeavesFor(other) + [Shape(Op.Add, [a, b], ChildrenOf(vs, [a, b]))]
      ensures values == old(values) + LeafValuesFor(other) + [old(values[a]) + OperandValue(old(values), other)]
      ensures grads == old(grads) + Zeros(|LeavesFor(other)|) + [0.0]
    {
      var x, y := values[a], OperandValue(values, other);
      var b := Convert(other);
      out := Append(Op.Add, [a, b], x + y);
    }

    /** `__mul__`: value `self.value * other.value`, tag MUL. */
    method Mul(a: nat, other: Operand) returns (out: nat)
      requires Valid() && a < |shapes| && Accepts(other)
      modifies this
      ensures Valid() && out == |shapes| - 1 && out == old(|shapes|) + |LeavesFor(other)|
      ensures var b, vs := Target(other, old(|shapes|)), old(values) + LeafValuesFor(other);
              shapes == old(shapes) + LeavesFor(other) + [Shape(Op.Mul, [a, b], ChildrenOf(vs, [a, b]))]
      ensures values == old(values) + LeafValuesFor(other) + [old(values[a]) * OperandValue(old(values), other)]
      ensures grads == old(grads) + Zeros(|LeavesFor(other)|) + [0.0]
    {
      var x, y := values[a], OperandValue(values, other);
      var b := Convert(other);
      out := Append(Op.Mul, [a, b], x * y);
      ghost var p := old(values[a]) * OperandValue(old(values), other);
      assert p == x * y;
      assert [p] == [x * y];
    }

    /** `__pow__` with an integer exponent: value `self.value ** p`. A zero
        base with a negative exponent raises (None) before any node is made. */
    method Pow(a: nat, p: int) returns (r: Option<nat>)
      requires Valid() && a < |shapes|
      modifies this
      ensures Valid()
      ensures r.None? <==> old(values[a]) == 0.0 && p < 0
      ensures r.None? ==> shapes == old(shapes) && values == old(values) && grads == old(grads)
      ensures r.Some? ==> r.value == old(|shapes|) && shapes == old(shapes) + [Shape(Op.Pow(p), [a], [a])]
      ensures r.Some? ==> values == old(values) + [Power(old(values[a]), p)] && grads == old(grads) + [0.0]
    {
      if values[a] == 0.0 && p < 0 {
        return None;
      }
      var out := Append(Op.Pow(p), [a], Power(values[a], p));
      r := Some(out);
    }

    /** `exp`: value `math.exp(self.value)`, tag EXP. */
    method Exp(a: nat) returns (out: nat)
      requires Valid() && a < |shapes|
      modifies this
      ensures Valid() && out == old(|shapes|) && shapes == old(shapes) + [Shape(Op.Exp, [a], [a])]
      ensures values == old(values) + [mathExp(old(values[a]))] && grads == old(grads) + [0.0]
    {
      out := Append(Op.Exp, [a], mathExp(values[a]));
    }

    /** `tanh`: value `math.tanh(self.value)`, tag TANH. */
    method Tanh(a: nat) returns (out: nat)
      requires Valid() && a < |shapes|
      modifies this
      ensures Valid() && out == old(|shapes|) && shapes == old(shapes) + [Shape(Op.Tanh, [a], [a])]
      ensures values == old(values) + [mathTanh(old(values[a]))] && grads == old(grads) + [0.0]
    {
      out := Append(Op.Tanh, [a], mathTanh(values[a]));
    }

    /** `__radd__`: a number on the left of `+` gives `self + other`. */
    method RAdd(a: nat, x: real) returns (out: nat)
      requires Valid() && a < |shapes|
      modifies this
      ensures Valid() && out == old(|shapes|) + 1
      ensures shapes == old(shapes) + [LeafShape, Shape(Op.Add, [a, out - 1], ChildrenOf(old(values) + [x], [a, out - 1]))]
      ensures values == old(values) + [x, old(values[a]) + x] && grads == old(grads) + [0.0, 0.0]
    {
      out := Add(a, Num(x));
    }

    /** `__rmul__`: a number on the left of `*` gives `self * other`. */
    method RMul(a: nat, x: real) returns (out: nat)
      requires Valid() && a < |shapes|
      modifies this
      ensures Valid() && out == old(|shapes|) + 1
      ensures shapes == old(shapes) + [LeafShape, Shape(Op.Mul, [a, out - 1], ChildrenOf(old(values) + [x], [a, out - 1]))]
      ensures values == old(values) + [x, old(values[a]) * x] && grads == old(grads) + [0.0, 0.0]
    {
      out := Mul(a, Num(x));
      ghost var p := old(values[a]) * x;
      assert p == old(values[a]) * OperandValue(old(values), Num(x));
      assert [p] == [old(values[a]) * OperandValue(old(values), Num(x))];
    }

    /** `__neg__`: `self * -1`, a leaf -1 and a MUL node. */
    method Neg(a: nat) returns (out: nat)
      requires Valid() && a < |shapes|
      modifies this
      ensures Valid() && out == old(|shapes|) + 1
      ensures shapes == old(shapes) + [LeafShape, Shape(Op.Mul, [a, out - 1], ChildrenOf(old(values) + [-1.0], [a, out - 1]))]
      ensures values == old(values) + [-1.0, old(values[a]) * -1.0] && grads == old(grads) + [0.0, 0.0]
      ensures values[out] == -old(values[a])
    {
      out := Mul(a, Num(-1.0));
      assert old(values[a]) * -1.0 == -old(values[a]);
    }

    /** `__sub__`: `self + -other`. A number is negated by Python before it
        is wrapped, so it costs one leaf; a node is negated by `Neg`. */
    method Sub(a: nat, other: Operand) returns (out: nat)
      requires Valid() && a < |shapes| && Accepts(other)
      modifies this
      ensures Valid() && out == |shapes| - 1 && out == old(|shapes|) + (if other.Num? then 1 else 2)
      ensures shapes[out].op == Op.Add && shapes[out].operands[0] == a
      ensures values[out] == old(values[a]) - OperandValue(old(values), other)
      ensures other.Num? ==>
                && shapes == old(shapes) + [LeafShape, Shape(Op.Add, [a, out - 1], ChildrenOf(old(values) + [-other.x], [a, out - 1]))]
                && values == old(values) + [-other.x, old(values[a]) + -other.x] && grads == old(grads) + [0.0, 0.0]
      ensures other.Ref? ==>
                var b, n := other.node, old(|shapes|);
                var vs := old(values) + [-1.0, old(values[b]) * -1.0];
                && shapes == old(shapes) + [LeafShape, Shape(Op.Mul, [b, n], ChildrenOf(old(values) + [-1.0], [b, n])),
                                            Shape(Op.Add, [a, n + 1], ChildrenOf(vs, [a, n + 1]))]
                && values == vs + [old(values[a]) + old(values[b]) * -1.0] && grads == old(grads) + [0.0, 0.0, 0.0]
    {
      match other
      case Num(x) =>
        out := Add(a, Num(-x));
      case Ref(b) =>
        var n := Neg(b);
        out := Add(a, Ref(n));
    }

    /** `__rsub__`: a number on the left of `-` gives `Value(other) - self`. */
    method RSub(a: nat, x: real) returns (out: nat)
      requires Valid() && a < |shapes|
      modifies this
      ensures Valid() && out == old(|shapes|) + 3
      ensures var n := old(|shapes|);
              var vs := old(values) + [x, -1.0, old(values[a]) * -1.0];
              && shapes == old(shapes) + [LeafShape, LeafShape, Shape(Op.Mul, [a, n + 1], ChildrenOf(old(values) + [x, -1.0], [a, n + 1])),
                                          Shape(Op.Add, [n, n + 2], ChildrenOf(vs, [n, n + 2]))]
              && values == vs + [x + old(values[a]) * -1.0] && grads == old(grads) + [0.0, 0.0, 0.0, 0.0]
      ensures values[out] == x - old(values[a])
    {
      var l := NewValue(x);
      out := Sub(l, Ref(a));
    }

    /** The divisor half of `__truediv__`: converts `other` and raises it
        to the power -1, which fails on a zero divisor after the leaf of a
        number divisor was made. */
    method Invert(other: Operand) returns (r: Option<nat>)
      requires Valid() && Accepts(other)
      modifies this
      ensures Valid()
      ensures r.None? <==> OperandValue(old(values), other) == 0.0
      ensures r.None? ==> shapes == old(shapes) + LeavesFor(other) && values == old(values) + LeafValuesFor(other)
                          && grads == old(grads) + Zeros(|LeavesFor(other)|)
      ensures r.Some? ==> r.value == old(|shapes|) + |LeavesFor(other)|
      ensures r.Some? ==> shapes == old(shapes) + LeavesFor(other) + [Shape(Op.Pow(-1), [Target(other, old(|shapes|))], [Target(other, old(|shapes|))])]
      ensures r.Some? ==> values == old(values) + LeafValuesFor(other) + [Power(OperandValue(old(values), other), -1)]
      ensures r.Some? ==> grads == old(grads) + Zeros(|LeavesFor(other)|) + [0.0]
    {
      var b := Convert(other);
      r := Pow(b, -1);
    }

    /** `__truediv__`: `self * other ** -1`. The divisor is converted first;
        a zero divisor raises in `__pow__` (None), after a number divisor's
        leaf was made. */
    method Div(a: nat, other: Operand) returns (r: Option<nat>)
      requires Valid() && a < |shapes| && Accepts(other)
      modifies this
      ensures Valid()
      ensures r.None? <==> OperandValue(old(values), other) == 0.0
      ensures r.None? ==> shapes == old(shapes) + LeavesFor(other) && values == old(values) + LeafValuesFor(other)
                          && grads == old(grads) + Zeros(|LeavesFor(other)|)
      ensures r.Some? ==> r.value == old(|shapes|) + |LeavesFor(other)| + 1
      ensures r.Some? ==>
                var b, n := Target(other, old(|shapes|)), old(|shapes|) + |LeavesFor(other)|;
                var vs := old(values) + LeafValuesFor(other) + [Power(OperandValue(old(values), other), -1)];
                shapes == old(shapes) + LeavesFor(other) + [Shape(Op.Pow(-1), [b], [b]), Shape(Op.Mul, [a, n], ChildrenOf(vs, [a, n]))]
      ensures r.Some? ==>
                values == old(values) + LeafValuesFor(other) + [Power(OperandValue(old(values), other), -1)]
                          + [old(values[a]) * Power(OperandValue(old(values), other), -1)]
      ensures r.Some? ==> grads == old(grads) + Zeros(|LeavesFor(other)|) + [0.0, 0.0]
      ensures r.Some? ==> values[r.value] == old(values[a]) / OperandValue(old(values), other)
    {
      var x, y := values[a], OperandValue(values, other);
      var inv := Invert(other);
      if inv.None? {
        return None;
      }
      var q := values[inv.value];
      assert q == Power(y, -1);
      ghost var mid := values;
      // `__mul__` with a Value operand converts nothing: it appends the MUL node.
      var out := Append(Op.Mul, [a, inv.value], x * q);
      ghost var p := old(values[a]) * Power(OperandValue(old(values), other), -1);
      assert x == old(values[a]) && y == OperandValue(old(values), other);
      assert p == x * q;
      assert [p] == [x * q];
      assert values == mid + [p];
      Reciprocal(x, y);
      r := Some(out);
    }

    /** `__rtruediv__`: a number on the left of `/` gives `Value(other) / self`. */
    method RDiv(a: nat, x: real) returns (r: Option<nat>)
      requires Valid() && a < |shapes|
      modifies this
      ensures Valid()
      ensures r.None? <==> old(values[a]) == 0.0
      ensures r.None? ==> shapes == old(shapes) + [LeafShape] && values == old(values) + [x] && grads == old(grads) + [0.0]
      ensures r.Some? ==>
                var n := old(|shapes|);
                var vs := old(values) + [x, Power(old(values[a]), -1)];
                && r.value == n + 2
                && shapes == old(shapes) + [LeafShape, Shape(Op.Pow(-1), [a], [a]), Shape(Op.Mul, [n, n + 1], ChildrenOf(vs, [n, n + 1]))]
                && values == vs + [x * Power(old(values[a]), -1)] && grads == old(grads) + [0.0, 0.0, 0.0]
      ensures r.Some? ==> values[r.value] == x / old(values[a])
    {
      var l := NewValue(x);
      ghost var mid := values;
      assert mid[l] == x && OperandValue(mid, Ref(a)) == old(values[a]);
      r := Div(l, Ref(a));
      if r.Some? {
        assert |values| == |mid| + 2;
        assert values[..|mid|] == mid;
        assert values[|mid|] == Power(old(values[a]), -1);
        assert values[|mid| + 1] == x * Power(old(values[a]), -1);
        assert values == old(values) + [x] + [Power(old(values[a]), -1)] + [x * Power(old(values[a]), -1)];
      }
    }

    /** The one dispatch over the operation tags: runs node c's backward
        closure. Returns false where the POW rule raises. */
    method RunRule(c: nat) returns (ok: bool)
      requires Valid() && c < |shapes|
      modifies this`grads
      ensures Valid()
      ensures var r := Rule(old(shapes), old(values), old(grads), c);
              ok == r.Some? && grads == (if ok then r.value else old(grads))
    {
      assert ShapeOk(shapes[c], c);
      match shapes[c].op
      case Leaf =>
        ok := true;
      case Add =>
        RunAdd(c);
        ok := true;
      case Mul =>
        RunMul(c);
        ok := true;
      case Pow(p) =>
        ok := RunPow(c);
      case _ =>
        RunUnary(c);
        ok := true;
    }

    /** The ADD closure: `self.grad += out.grad; other.grad += out.grad`. */
    method RunAdd(c: nat)
      requires Valid() && c < |shapes| && shapes[c].op.Add?
      modifies this`grads
      ensures Valid() && Rule(shapes, values, old(grads), c) == Some(grads)
    {
      assert ShapeOk(shapes[c], c);
      var ops, out := shapes[c].operands, grads[c];
      assert Rule(shapes, values, grads, c) == Some(Bump(Bump(grads, ops[0], out), ops[1], out));
      grads := grads[ops[0] := grads[ops[0]] + out];
      grads := grads[ops[1] := grads[ops[1]] + out];
    }

    /** The MUL closure: each operand gains `out.grad` times the other's value. */
    method RunMul(c: nat)
      requires Valid() && c < |shapes| && shapes[c].op.Mul?
      modifies this`grads
      ensures Valid() && Rule(shapes, values, old(grads), c) == Some(grads)
    {
      assert ShapeOk(shapes[c], c);
      var ops, out := shapes[c].operands, grads[c];
      var d0, d1 := out * values[ops[1]], out * values[ops[0]];
      assert d0 == grads[c] * values[shapes[c].operands[1]];
      assert d1 == grads[c] * values[shapes[c].operands[0]];
      assert Rule(shapes, values, grads, c) == Some(Bump(Bump(grads, ops[0], d0), ops[1], d1));
      grads := grads[ops[0] := grads[ops[0]] + d0];
      grads := grads[ops[1] := grads[ops[1]] + d1];
    }

    /** The POW closure: `self.grad += power * self.value ** (power - 1) *
        out.grad`, which raises (false) for a zero base and `power - 1 < 0`. */
    method RunPow(c: nat) returns (ok: bool)
      requires Valid() && c < |shapes| && shapes[c].op.Pow?
      modifies this`grads
      ensures Valid()
      ensures var r := Rule(shapes, values, old(grads), c);
              ok == r.Some? && grads == (if ok then r.value else old(grads))
    {
      assert ShapeOk(shapes[c], c);
      if Degenerate(shapes, values, c) {
        return false;
      }
      var d := grads[c] * PowSlope(values[shapes[c].operands[0]], shapes[c].op.p);
      PowRule(shapes, values, grads, c);
      grads := Bump(grads, shapes[c].operands[0], d);
      ok := true;
    }

    /** The EXP and TANH closures: the operand gains `out.grad` times
        `out.value`, resp. `1 - out.value ** 2`. */
    method RunUnary(c: nat)
      requires Valid() && c < |shapes| && (shapes[c].op.Exp? || shapes[c].op.Tanh?)
      modifies this`grads
      ensures Valid() && Rule(shapes, values, old(grads), c) == Some(grads)
    {
      assert ShapeOk(shapes[c], c);
      var ops, out, v := shapes[c].operands, grads[c], values[c];
      var d := if shapes[c].op.Exp? then out * v else out * (1.0 - v * v);
      assert shapes[c].op.Exp? ==> d == grads[c] * values[c];
      assert shapes[c].op.Tanh? ==> d == grads[c] * (1.0 - values[c] * values[c]);
      assert Rule(shapes, values, grads, c) == Some(Bump(grads, ops[0], d));
      grads := grads[ops[0] := grads[ops[0]] + d];
    }

    /** `backward`: overwrite the terminal's grad with 1.0, then run the FIFO
        loop. `ok` is false when a rule raised; the grads then keep what was
        added before. Values and the graph's structure are untouched. */
    method Backward(t: nat) returns (ok: bool)
      requires Valid() && t < |shapes|
      modifies this`grads
      ensures Valid()
      ensures var r := Drain(shapes, values, old(grads)[t := 1.0], [t]);
              ok == !r.raised && grads == r.grads
    {
      grads := grads[t := 1.0];
      var queue := [t];
      ghost var start := grads;
      while queue != []
        invariant Valid() && InRange(queue, |shapes|)
        invariant Drain(shapes, values, grads, queue) == Drain(shapes, values, start, [t])
        decreases Work(shapes, queue)
      {
        var c := queue[0];
        var ran := RunRule(c);
        if !ran {
          return false;
        }
        WorkStep(shapes, queue);
        queue := queue[1..] + shapes[c].children;
      }
      ok := true;
    }

    /** `backward` with the nodes that feed t visited in reverse topological
        order, each once, instead of the FIFO queue. */
    method BackwardTopo(t: nat) returns (ok: bool)
      requires Valid() && t < |shapes|
      modifies this`grads
      ensures Valid()
      ensures var r := Sweep(shapes, values, old(grads)[t := 1.0], t, t + 1);
              ok == !r.raised && grads == r.grads
    {
      grads := grads[t := 1.0];
      ghost var start := grads;
      var m := t + 1;
      while m > 0
        invariant Valid() && m <= t + 1
        invariant Sweep(shapes, values, grads, t, m) == Sweep(shapes, values, start, t, t + 1)
      {
        if Reaches(shapes, t, m - 1) {
          var ran := RunRule(m - 1);
          if !ran {
            return false;
          }
        }
        m := m - 1;
      }
      ok := true;
    }
  }
}
