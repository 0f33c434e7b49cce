/** The network of micrograd/nn.py over the arena of module Engine: neurons,
    layers and multi-layer perceptrons whose parameters are leaf nodes, the
    forward passes that append their expression to the arena, and the mean
    squared error loss. A module never changes its own fields after it is
    made, so each is a value naming its parameter nodes; what changes (the
    parameters' values and grads) lives in the arena. */
module Nn {
  import opened Engine
  import opened Optim

  // ----- randomness -----

  /** `random.uniform(-1, 1)`: the stream of draws the global generator
      yields, and how many have been taken so far. */
  class Uniform {
    const stream: nat -> real
    var drawn: nat

    ghost predicate Valid()
      reads this
    {
      forall k: nat :: -1.0 <= stream(k) <= 1.0
    }

    constructor (s: nat -> real)
      requires forall k: nat :: -1.0 <= s(k) <= 1.0
      ensures Valid() && stream == s && drawn == 0
    {
      stream, drawn := s, 0;
    }

    /** The next draw, always in [-1, 1]. */
    method Draw() returns (r: real)
      requires Valid()
      modifies this
      ensures Valid() && drawn == old(drawn) + 1 && r == stream(old(drawn))
      ensures -1.0 <= r <= 1.0
    {
      r := stream(drawn);
      drawn := drawn + 1;
    }
  }

  /** The n draws of a stream starting at draw `from`. */
  function Draws(stream: nat -> real, from: nat, n: nat): (r: seq<real>)
    ensures |r| == n
  {
    seq(n, k requires 0 <= k => stream(from + k))
  }

  /** `s` lists the indices start, start + 1, ..., start + n - 1. */
  predicate Consecutive(s: seq<nat>, start: nat, n: nat) {
    |s| == n && forall k :: 0 <= k < n ==> s[k] == start + k
  }

  /** n leaf shapes. */
  function Leaves(n: nat): (r: seq<Shape>)
    ensures |r| == n
  {
    seq(n, k => LeafShape)
  }

  lemma DrawsAppend(stream: nat -> real, from: nat, a: nat, b: nat)
    ensures Draws(stream, from, a) + Draws(stream, from + a, b) == Draws(stream, from, a + b)
  {
    var l, r := Draws(stream, from, a) + Draws(stream, from + a, b), Draws(stream, from, a + b);
    forall k | 0 <= k < a + b ensures l[k] == r[k] {
      if k >= a { assert from + a + (k - a) == from + k; }
    }
  }

  lemma LeavesAppend(a: nat, b: nat)
    ensures Leaves(a) + Leaves(b) == Leaves(a + b)
  {
  }

  lemma {:induction false} ZerosAppend(a: nat, b: nat)
    ensures Zeros(a) + Zeros(b) == Zeros(a + b)
  {
    if b != 0 {
      ZerosAppend(a, b - 1);
      assert Zeros(a) + Zeros(b) == (Zeros(a) + Zeros(b - 1)) + [0.0];
    }
  }

  // ----- modules and their parameters -----

  /** The activation a neuron applies: `tanh` (the default), `exp`, or
      none (`lambda v: v`). */
  datatype Activation = TanhAct | ExpAct | Linear

  datatype Neuron = Neuron(weights: seq<nat>, bias: nat, act: Activation)
  datatype Layer = Layer(neurons: seq<Neuron>)
  datatype Mlp = Mlp(layers: seq<Layer>)

  /** The subclasses of `Module`. */
  datatype Module = NeuronModule(neuron: Neuron) | LayerModule(layer: Layer) | MlpModule(mlp: Mlp)

  /** `Neuron.parameters`: the weights, then the bias. */
  function NeuronParams(n: Neuron): seq<nat> {
    n.weights + [n.bias]
  }

  /** `Layer.parameters`: each neuron's parameters, neuron by neuron. */
  function NeuronsParams(ns: seq<Neuron>): seq<nat> {
    if ns == [] then [] else NeuronsParams(ns[..|ns| - 1]) + NeuronParams(ns[|ns| - 1])
  }

  /** `MLP.parameters`: each layer's parameters, layer by layer. */
  function LayersParams(ls: seq<Layer>): seq<nat> {
    if ls == [] then [] else LayersParams(ls[..|ls| - 1]) + NeuronsParams(ls[|ls| - 1].neurons)
  }

  /** `parameters()` of any module. */
  function Parameters(m: Module): seq<nat> {
    match m
    case NeuronModule(n) => NeuronParams(n)
    case LayerModule(l) => NeuronsParams(l.neurons)
    case MlpModule(p) => LayersParams(p.layers)
  }

  /** The input width of layer k of `MLP(numIn, numOuts)`. */
  function InWidth(numIn: nat, numOuts: seq<nat>, k: nat): nat
    requires k < |numOuts|
  {
    if k == 0 then numIn else numOuts[k - 1]
  }

  /** How many parameters `Layer(numIn, numOut)` has: numIn weights and a
      bias per neuron. */
  function LayerSize(numIn: nat, numOut: nat): nat {
    if numOut == 0 then 0 else LayerSize(numIn, numOut - 1) + numIn + 1
  }

  lemma {:induction false} LayerSizeIsProduct(numIn: nat, numOut: nat)
    ensures LayerSize(numIn, numOut) == numOut * (numIn + 1)
  {
    if numOut != 0 {
      LayerSizeIsProduct(numIn, numOut - 1);
      assert numOut * (numIn + 1) == (numOut - 1) * (numIn + 1) + numIn + 1;
    }
  }

  /** How many parameters `MLP(numIn, numOuts)` has: the sizes of its
      layers, summed. */
  function ParamCount(numIn: nat, numOuts: seq<nat>): nat {
    FirstLayersSize(numIn, numOuts, |numOuts|)
  }

  /** How many parameters the first k layers of `MLP(numIn, numOuts)` have. */
  function FirstLayersSize(numIn: nat, numOuts: seq<nat>, k: nat): nat
    requires k <= |numOuts|
  {
    if k == 0 then 0 else FirstLayersSize(numIn, numOuts, k - 1) + LayerSize(InWidth(numIn, numOuts, k - 1), numOuts[k - 1])
  }

  /** A layer of `numOut` neurons with `numIn` weights each and activation `act`. */
  predicate Built(l: Layer, numIn: nat, numOut: nat, act: Activation) {
    && |l.neurons| == numOut
    && forall k :: 0 <= k < numOut ==> |l.neurons[k].weights| == numIn && l.neurons[k].act == act
  }

  /** The first layers of `MLP(numIn, numOuts, act)`: layer k maps
      `InWidth(k)` inputs to `numOuts[k]` outputs; only the first layer gets
      `act`, the others the default `tanh`. */
  predicate BuiltLayers(layers: seq<Layer>, numIn: nat, numOuts: seq<nat>, act: Activation) {
    && |layers| <= |numOuts|
    && forall k :: 0 <= k < |layers| ==>
         Built(layers[k], InWidth(numIn, numOuts, k), numOuts[k], LayerAct(act, k))
  }

  /** All the layers of `MLP(numIn, numOuts, act)`. */
  predicate BuiltMlp(m: Mlp, numIn: nat, numOuts: seq<nat>, act: Activation) {
    |m.layers| == |numOuts| && BuiltLayers(m.layers, numIn, numOuts, act)
  }

  /** The activation of layer j of `MLP(numIn, numOuts, act)`: `act` for
      the first layer, the default `tanh` for the others. */
  function LayerAct(act: Activation, j: nat): Activation {
    if j == 0 then act else TanhAct
  }

  /** The parameters of one more neuron continue the numbering. */
  lemma NeuronsParamsStep(ns: seq<Neuron>, n: Neuron, start: nat, made: nat, more: nat)
    requires Consecutive(NeuronsParams(ns), start, made)
    requires Consecutive(NeuronParams(n), start + made, more)
    ensures Consecutive(NeuronsParams(ns + [n]), start, made + more)
  {
    assert (ns + [n])[..|ns|] == ns;
  }

  /** The parameters of one more layer continue the numbering. */
  lemma LayersParamsStep(ls: seq<Layer>, l: Layer, start: nat, made: nat, more: nat)
    requires Consecutive(LayersParams(ls), start, made)
    requires Consecutive(NeuronsParams(l.neurons), start + made, more)
    ensures Consecutive(LayersParams(ls + [l]), start, made + more)
  {
    assert (ls + [l])[..|ls|] == ls;
  }

  /** One more neuron of the same width and activation keeps a layer built. */
  lemma BuiltStep(ns: seq<Neuron>, n: Neuron, numIn: nat, act: Activation)
    requires Built(Layer(ns), numIn, |ns|, act)
    requires |n.weights| == numIn && n.act == act
    ensures Built(Layer(ns + [n]), numIn, |ns| + 1, act)
  {
    var ms := ns + [n];
    forall k | 0 <= k < |ms|
      ensures |ms[k].weights| == numIn && ms[k].act == act
    {
      if k < |ns| { assert ms[k] == ns[k]; }
    }
  }

  /** The next layer of the shape `MLP` asks for extends the layers made so far. */
  lemma BuiltLayersStep(ls: seq<Layer>, l: Layer, numIn: nat, numOuts: seq<nat>, act: Activation)
    requires BuiltLayers(ls, numIn, numOuts, act) && |ls| < |numOuts|
    requires Built(l, InWidth(numIn, numOuts, |ls|), numOuts[|ls|], LayerAct(act, |ls|))
    ensures BuiltLayers(ls + [l], numIn, numOuts, act)
  {
    var ms := ls + [l];
    forall k | 0 <= k < |ms|
      ensures Built(ms[k], InWidth(numIn, numOuts, k), numOuts[k], LayerAct(act, k))
    {
      if k < |ls| { assert ms[k] == ls[k]; }
    }
  }

  // ----- construction -----

  /** The three parallel lists of an arena, as one value. */
  datatype Arena = Arena(shapes: seq<Shape>, values: seq<real>, grads: seq<real>)

  ghost function State(g: Graph): Arena
    reads g
  {
    Arena(g.shapes, g.values, g.grads)
  }

  /** The arena after n fresh leaves were appended, holding the draws
      `from`, ..., `from + n - 1` of the stream and grad 0. */
  function Grow(a: Arena, stream: nat -> real, from: nat, n: nat): Arena {
    Arena(a.shapes + Leaves(n), a.values + Draws(stream, from, n), a.grads + Zeros(n))
  }

  /** Growing by m leaves and then by n is growing by m + n. */
  lemma GrowTwice(a: Arena, stream: nat -> real, from: nat, m: nat, n: nat)
    ensures Grow(Grow(a, stream, from, m), stream, from + m, n) == Grow(a, stream, from, m + n)
  {
    LeavesAppend(m, n);
    DrawsAppend(stream, from, m, n);
    ZerosAppend(m, n);
    assert a.shapes + Leaves(m) + Leaves(n) == a.shapes + (Leaves(m) + Leaves(n));
    assert a.values + Draws(stream, from, m) + Draws(stream, from + m, n)
        == a.values + (Draws(stream, from, m) + Draws(stream, from + m, n));
    assert a.grads + Zeros(m) + Zeros(n) == a.grads + (Zeros(m) + Zeros(n));
  }

  /** One more growth step, stated on whole arenas. */
  lemma GrowStep(a: Arena, before: Arena, after: Arena, stream: nat -> real, from: nat, made: nat, more: nat)
    requires before == Grow(a, stream, from, made)
    requires after == Grow(before, stream, from + made, more)
    ensures after == Grow(a, stream, from, made + more)
  {
    GrowTwice(a, stream, from, made, more);
  }

  /** `Value(random.uniform(-1, 1))`: a leaf holding the next draw. */
  method NewParam(g: Graph, rng: Uniform) returns (w: nat)
    requires g.Valid() && rng.Valid()
    modifies g, rng
    ensures g.Valid() && rng.Valid() && rng.drawn == old(rng.drawn) + 1 && w == old(|g.shapes|)
    ensures State(g) == Grow(old(State(g)), rng.stream, old(rng.drawn), 1)
  {
    var v := rng.Draw();
    w := g.NewValue(v);
    assert Leaves(1) == [LeafShape] && Zeros(1) == [0.0];
    assert Draws(rng.stream, old(rng.drawn), 1) == [v];
  }

  /** `Neuron(numWeights, act)`: numWeights weights, then the bias, each a
      fresh leaf holding the next draw. */
  method NewNeuron(g: Graph, rng: Uniform, numWeights: nat, act: Activation) returns (n: Neuron)
    requires g.Valid() && rng.Valid()
    modifies g, rng
    ensures g.Valid() && rng.Valid() && rng.drawn == old(rng.drawn) + numWeights + 1
    ensures |n.weights| == numWeights && n.act == act
    ensures Consecutive(NeuronParams(n), old(|g.shapes|), numWeights + 1)
    ensures State(g) == Grow(old(State(g)), rng.stream, old(rng.drawn), numWeights + 1)
  {
    var start, from := |g.shapes|, rng.drawn;
    ghost var a := State(g);
    var weights := [];
    for i := 0 to numWeights
      invariant g.Valid() && rng.Valid() && rng.drawn == from + i
      invariant Consecutive(weights, start, i)
      invariant State(g) == Grow(a, rng.stream, from, i)
    {
      var w := NewParam(g, rng);
      GrowTwice(a, rng.stream, from, i, 1);
      weights := weights + [w];
    }
    var b := NewParam(g, rng);
    GrowTwice(a, rng.stream, from, numWeights, 1);
    n := Neuron(weights, b, act);
  }

  /** What the construction of `Layer(numIn, numOut, act)` has reached once
      its first |neurons| neurons are made, starting from arena `a`
      (holding `start` nodes) and draw `from`: each has numIn weights and
      activation `act`, together they own the `made` nodes after `start` in
      order, and the arena `s` grew from `a` by exactly those leaves. */
  ghost predicate LayerProgress(s: Arena, stream: nat -> real, drawn: nat, a: Arena, start: nat, from: nat,
                                neurons: seq<Neuron>, made: nat, numIn: nat, act: Activation)
  {
    && made == LayerSize(numIn, |neurons|)
    && drawn == from + made && |a.shapes| == start
    && Built(Layer(neurons), numIn, |neurons|, act)
    && Consecutive(NeuronsParams(neurons), start, made)
    && s == Grow(a, stream, from, made)
  }

  /** Making the next neuron, as `Neuron` promises, advances the construction. */
  lemma LayerProgressStep(s: Arena, s': Arena, stream: nat -> real, drawn: nat, a: Arena, start: nat, from: nat,
                          neurons: seq<Neuron>, made: nat, n: Neuron, numIn: nat, act: Activation)
    requires LayerProgress(s, stream, drawn, a, start, from, neurons, made, numIn, act)
    requires |n.weights| == numIn && n.act == act
    requires Consecutive(NeuronParams(n), |s.shapes|, numIn + 1)
    requires s' == Grow(s, stream, drawn, numIn + 1)
    ensures LayerProgress(s', stream, drawn + numIn + 1, a, start, from, neurons + [n], made + numIn + 1, numIn, act)
  {
    GrowStep(a, s, s', stream, from, made, numIn + 1);
    NeuronsParamsStep(neurons, n, start, made, numIn + 1);
    BuiltStep(neurons, n, numIn, act);
  }

  /** `Layer(numIn, numOut, act)`: numOut neurons made one after another,
      owning consecutive blocks of numIn + 1 fresh nodes. */
  method NewLayer(g: Graph, rng: Uniform, numIn: nat, numOut: nat, act: Activation) returns (l: Layer)
    requires g.Valid() && rng.Valid()
    modifies g, rng
    ensures g.Valid() && rng.Valid() && rng.drawn == old(rng.drawn) + LayerSize(numIn, numOut)
    ensures Built(l, numIn, numOut, act)
    ensures Consecutive(NeuronsParams(l.neurons), old(|g.shapes|), LayerSize(numIn, numOut))
    ensures State(g) == Grow(old(State(g)), rng.stream, old(rng.drawn), LayerSize(numIn, numOut))
  {
    var start, from := |g.shapes|, rng.drawn;
    ghost var a := State(g);
    GrowTwice(a, rng.stream, from, 0, 0);
    var neurons: seq<Neuron> := [];
    ghost var made: nat := 0;
    for i := 0 to numOut
      invariant |neurons| == i && g.Valid() && rng.Valid()
      invariant LayerProgress(State(g), rng.stream, rng.drawn, a, start, from, neurons, made, numIn, act)
    {
      ghost var before, drawn := State(g), rng.drawn;
      var n := NewNeuron(g, rng, numIn, act);
      LayerProgressStep(before, State(g), rng.stream, drawn, a, start, from, neurons, made, n, numIn, act);
      neurons, made := neurons + [n], made + numIn + 1;
    }
    l := Layer(neurons);
  }

  /** What the construction of `MLP(numIn, numOuts, act)` has reached once
      its first |layers| layers are made, starting from arena `a` (holding
      `start` nodes) and draw `from`: the layers have the shapes asked for,
      own the `made` nodes after `start` in order, and the arena `s` grew
      from `a` by exactly those leaves. */
  ghost predicate MlpProgress(s: Arena, stream: nat -> real, drawn: nat, a: Arena, start: nat, from: nat,
                              layers: seq<Layer>, made: nat, numIn: nat, numOuts: seq<nat>, act: Activation)
  {
    && |layers| <= |numOuts| && made == FirstLayersSize(numIn, numOuts, |layers|)
    && drawn == from + made && |a.shapes| == start
    && BuiltLayers(layers, numIn, numOuts, act)
    && Consecutive(LayersParams(layers), start, made)
    && s == Grow(a, stream, from, made)
  }

  /** Making the next layer, as `Layer` promises, advances the construction. */
  lemma MlpProgressStep(s: Arena, s': Arena, stream: nat -> real, drawn: nat, a: Arena, start: nat, from: nat,
                        layers: seq<Layer>, made: nat, l: Layer, more: nat, numIn: nat, numOuts: seq<nat>, act: Activation)
    requires MlpProgress(s, stream, drawn, a, start, from, layers, made, numIn, numOuts, act)
    requires |layers| < |numOuts| && more == LayerSize(InWidth(numIn, numOuts, |layers|), numOuts[|layers|])
    requires Built(l, InWidth(numIn, numOuts, |layers|), numOuts[|layers|], LayerAct(act, |layers|))
    requires Consecutive(NeuronsParams(l.neurons), |s.shapes|, more)
    requires s' == Grow(s, stream, drawn, more)
    ensures MlpProgress(s', stream, drawn + more, a, start, from, layers + [l], made + more, numIn, numOuts, act)
  {
    GrowStep(a, s, s', stream, from, made, more);
    LayersParamsStep(layers, l, start, made, more);
    BuiltLayersStep(layers, l, numIn, numOuts, act);
  }

  /** `MLP(numIn, numOuts, act)`: one layer per entry of numOuts. An empty
      numOuts raises IndexError (None) before anything is made. */
  method NewMlp(g: Graph, rng: Uniform, numIn: nat, numOuts: seq<nat>, act: Activation) returns (r: Option<Mlp>)
    requires g.Valid() && rng.Valid()
    modifies g, rng
    ensures g.Valid() && rng.Valid() && rng.drawn == old(rng.drawn) + ParamCount(numIn, numOuts)
    ensures r.None? <==> numOuts == []
    ensures r.Some? ==> BuiltMlp(r.value, numIn, numOuts, act)
    ensures r.Some? ==> Consecutive(Parameters(MlpModule(r.value)), old(|g.shapes|), ParamCount(numIn, numOuts))
    ensures State(g) == Grow(old(State(g)), rng.stream, old(rng.drawn), ParamCount(numIn, numOuts))
  {
    if numOuts == [] {
      GrowTwice(State(g), rng.stream, rng.drawn, 0, 0);
      return None;
    }
    var start, from := |g.shapes|, rng.drawn;
    ghost var a := State(g);
    GrowTwice(a, rng.stream, from, 0, 0);
    var layers: seq<Layer> := [];
    var made: nat := 0;
    for i := 0 to |numOuts|
      invariant |layers| == i && g.Valid() && rng.Valid()
      invariant MlpProgress(State(g), rng.stream, rng.drawn, a, start, from, layers, made, numIn, numOuts, act)
    {
      ghost var before, drawn := State(g), rng.drawn;
      var width := InWidth(numIn, numOuts, i);
      var l := NewLayer(g, rng, width, numOuts[i], LayerAct(act, i));
      var more := LayerSize(width, numOuts[i]);
      MlpProgressStep(before, State(g), rng.stream, drawn, a, start, from, layers, made, l, more, numIn, numOuts, act);
      layers, made := layers + [l], made + more;
    }
    r := Some(Mlp(layers));
  }

  // ----- forward passes -----

  /** The arena `b` is `a` with nodes appended: every node of `a` keeps its
      shape, value and grad, and every new node has grad 0. */
  ghost predicate Grew(a: Arena, b: Arena) {
    && |a.shapes| <= |b.shapes| && |a.values| <= |b.values| && |a.grads| <= |b.grads|
    && (forall i :: 0 <= i < |a.shapes| ==> b.shapes[i] == a.shapes[i])
    && (forall i :: 0 <= i < |a.values| ==> b.values[i] == a.values[i])
    && (forall i :: 0 <= i < |a.grads| ==> b.grads[i] == a.grads[i])
    && (forall i :: |a.grads| <= i < |b.grads| ==> b.grads[i] == 0.0)
  }

  lemma GrewTwice(a: Arena, b: Arena, c: Arena)
    requires Grew(a, b) && Grew(b, c)
    ensures Grew(a, c)
  {
  }

  /** What a neuron applies to its sum. */
  function Activate(tanh: real -> real, exp: real -> real, act: Activation, v: real): real {
    match act
    case TanhAct => tanh(v)
    case ExpAct => exp(v)
    case Linear => v
  }

  /** Every node a neuron names exists in an arena of `size` nodes. */
  predicate NeuronIn(n: Neuron, size: nat) {
    InRange(n.weights, size) && n.bias < size
  }

  predicate LayerIn(l: Layer, size: nat) {
    forall k :: 0 <= k < |l.neurons| ==> NeuronIn(l.neurons[k], size)
  }

  predicate MlpIn(m: Mlp, size: nat) {
    forall k :: 0 <= k < |m.layers| ==> LayerIn(m.layers[k], size)
  }

  /** The values held by the nodes ns. */
  function NodeValues(values: seq<real>, ns: seq<nat>): (r: seq<real>)
    requires InRange(ns, |values|)
    ensures |r| == |ns|
  {
    seq(|ns|, k requires 0 <= k < |ns| => values[ns[k]])
  }

  /** Every node among the inputs xs exists in an arena of `size` nodes;
      raw numbers are always acceptable. */
  predicate Admits(xs: seq<Operand>, size: nat) {
    forall k :: 0 <= k < |xs| ==> (xs[k].Ref? ==> xs[k].node < size)
  }

  /** The values of inputs that may be nodes or raw numbers. */
  function OperandValues(values: seq<real>, xs: seq<Operand>): (r: seq<real>)
    requires Admits(xs, |values|)
    ensures |r| == |xs|
  {
    seq(|xs|, k requires 0 <= k < |xs| => OperandValue(values, xs[k]))
  }

  /** The nodes ns, as inputs of the next layer. */
  function Refs(ns: seq<nat>): (r: seq<Operand>)
    ensures |r| == |ns| && forall k :: 0 <= k < |ns| ==> r[k] == Ref(ns[k])
  {
    seq(|ns|, k requires 0 <= k < |ns| => Ref(ns[k]))
  }

  lemma RefsValues(values: seq<real>, ns: seq<nat>)
    requires InRange(ns, |values|)
    ensures Admits(Refs(ns), |values|) && OperandValues(values, Refs(ns)) == NodeValues(values, ns)
  {
  }

  /** How many products `zip(weights, inputs)` yields: the shorter length. */
  function Pairs(n: Neuron, xs: seq<real>): nat {
    if |n.weights| <= |xs| then |n.weights| else |xs|
  }

  /** `sum(w * x for the first k pairs, bias)`: the bias, then each product
      added on the right in turn. */
  function Affine(values: seq<real>, n: Neuron, xs: seq<real>, k: nat): real
    requires NeuronIn(n, |values|) && k <= |n.weights| && k <= |xs|
  {
    if k == 0 then values[n.bias]
    else Affine(values, n, xs, k - 1) + values[n.weights[k - 1]] * xs[k - 1]
  }

  /** `Neuron.__call__` on input values xs. */
  function NeuronOut(values: seq<real>, tanh: real -> real, exp: real -> real, n: Neuron, xs: seq<real>): real
    requires NeuronIn(n, |values|)
  {
    Activate(tanh, exp, n.act, Affine(values, n, xs, Pairs(n, xs)))
  }

  /** `Layer.__call__`: each neuron on the same inputs. */
  function LayerOut(values: seq<real>, tanh: real -> real, exp: real -> real, l: Layer, xs: seq<real>): (r: seq<real>)
    requires LayerIn(l, |values|)
    ensures |r| == |l.neurons|
  {
    seq(|l.neurons|, k requires 0 <= k < |l.neurons| => NeuronOut(values, tanh, exp, l.neurons[k], xs))
  }

  /** `MLP.__call__` through the given layers: each layer's outputs are the
      next one's inputs; no layers leave the inputs as they are. */
  function MlpOut(values: seq<real>, tanh: real -> real, exp: real -> real, layers: seq<Layer>, xs: seq<real>): (r: seq<real>)
    requires forall k :: 0 <= k < |layers| ==> LayerIn(layers[k], |values|)
    ensures layers != [] ==> |r| == |layers[|layers| - 1].neurons|
  {
    if layers == [] then xs
    else LayerOut(values, tanh, exp, layers[|layers| - 1], MlpOut(values, tanh, exp, layers[..|layers| - 1], xs))
  }

  /** One more product on the running sum. */
  lemma AffineNext(values: seq<real>, n: Neuron, xs: seq<real>, k: nat, sum: real, w: real, x: real)
    requires NeuronIn(n, |values|) && k < |n.weights| && k < |xs|
    requires sum == Affine(values, n, xs, k) && w == values[n.weights[k]] && x == xs[k]
    ensures Affine(values, n, xs, k + 1) == sum + w * x
  {
  }

  /** A neuron reads only its own parameters: appending nodes does not
      change what it computes. */
  lemma {:induction false} AffineFrame(a: seq<real>, b: seq<real>, n: Neuron, xs: seq<real>, k: nat)
    requires NeuronIn(n, |a|) && |a| <= |b| && forall i :: 0 <= i < |a| ==> b[i] == a[i]
    requires k <= |n.weights| && k <= |xs|
    ensures Affine(b, n, xs, k) == Affine(a, n, xs, k)
  {
    if k != 0 {
      AffineFrame(a, b, n, xs, k - 1);
      assert b[n.weights[k - 1]] == a[n.weights[k - 1]];
    }
  }

  lemma LayerOutFrame(a: seq<real>, b: seq<real>, tanh: real -> real, exp: real -> real, l: Layer, xs: seq<real>)
    requires LayerIn(l, |a|) && |a| <= |b| && forall i :: 0 <= i < |a| ==> b[i] == a[i]
    ensures LayerOut(b, tanh, exp, l, xs) == LayerOut(a, tanh, exp, l, xs)
  {
    forall k | 0 <= k < |l.neurons|
      ensures NeuronOut(b, tanh, exp, l.neurons[k], xs) == NeuronOut(a, tanh, exp, l.neurons[k], xs)
    {
      var n := l.neurons[k];
      AffineFrame(a, b, n, xs, Pairs(n, xs));
    }
  }

  /** The two parts of a sequence of nodes inside the arena are inside it. */
  lemma InRangeSplit(a: seq<nat>, b: seq<nat>, size: nat)
    requires InRange(a + b, size)
    ensures InRange(a, size) && InRange(b, size)
  {
    assert forall k :: 0 <= k < |a| ==> a[k] == (a + b)[k];
    assert forall k :: 0 <= k < |b| ==> b[k] == (a + b)[|a| + k];
  }

  /** Parameters inside the arena make every neuron of the layer callable
      there. */
  lemma {:induction false} NeuronsIn(ns: seq<Neuron>, size: nat)
    requires InRange(NeuronsParams(ns), size)
    ensures LayerIn(Layer(ns), size)
  {
    if ns != [] {
      var init, last := ns[..|ns| - 1], ns[|ns| - 1];
      InRangeSplit(NeuronsParams(init), NeuronParams(last), size);
      InRangeSplit(last.weights, [last.bias], size);
      assert NeuronIn(last, size) by {
        assert [last.bias][0] == last.bias;
      }
      NeuronsIn(init, size);
      assert forall k :: 0 <= k < |init| ==> ns[k] == init[k];
    }
  }

  lemma {:induction false} LayersIn(ls: seq<Layer>, size: nat)
    requires InRange(LayersParams(ls), size)
    ensures MlpIn(Mlp(ls), size)
  {
    if ls != [] {
      var init, last := ls[..|ls| - 1], ls[|ls| - 1];
      InRangeSplit(LayersParams(init), NeuronsParams(last.neurons), size);
      LayersIn(init, size);
      NeuronsIn(last.neurons, size);
      assert forall k :: 0 <= k < |init| ==> ls[k] == init[k];
    }
  }

  /** A network `MLP` just made can be called: its parameter nodes are
      the `ParamCount` nodes after `start`, all inside the arena. */
  lemma MadeMlpIn(m: Mlp, start: nat, count: nat, size: nat)
    requires Consecutive(Parameters(MlpModule(m)), start, count) && start + count <= size
    ensures MlpIn(m, size)
  {
    LayersIn(m.layers, size);
  }

  /** `MLP.__call__` returns `num_outs[-1]` values. */
  lemma MlpOutWidth(values: seq<real>, tanh: real -> real, exp: real -> real, m: Mlp,
                    numIn: nat, numOuts: seq<nat>, act: Activation, xs: seq<real>)
    requires BuiltMlp(m, numIn, numOuts, act) && numOuts != [] && MlpIn(m, |values|)
    ensures |MlpOut(values, tanh, exp, m.layers, xs)| == numOuts[|numOuts| - 1]
  {
    var last := |m.layers| - 1;
    assert Built(m.layers[last], InWidth(numIn, numOuts, last), numOuts[last], LayerAct(act, last));
  }

  /** With `math.tanh` bounded by 1, every output of an MLP whose last
      layer applies tanh (any MLP of two or more layers, since only the
      first one takes the supplied activation) lies in [-1, 1]. */
  lemma MlpOutBounded(values: seq<real>, tanh: real -> real, exp: real -> real, m: Mlp,
                      numIn: nat, numOuts: seq<nat>, act: Activation, xs: seq<real>)
    requires forall v :: -1.0 <= tanh(v) <= 1.0
    requires BuiltMlp(m, numIn, numOuts, act) && numOuts != [] && MlpIn(m, |values|)
    requires |numOuts| >= 2 || act == TanhAct
    ensures forall k :: 0 <= k < |MlpOut(values, tanh, exp, m.layers, xs)| ==>
              -1.0 <= MlpOut(values, tanh, exp, m.layers, xs)[k] <= 1.0
  {
    var last := |m.layers| - 1;
    var l := m.layers[last];
    assert Built(l, InWidth(numIn, numOuts, last), numOuts[last], LayerAct(act, last));
    var ys := MlpOut(values, tanh, exp, m.layers[..last], xs);
    assert MlpOut(values, tanh, exp, m.layers, xs) == LayerOut(values, tanh, exp, l, ys);
    forall k | 0 <= k < |l.neurons|
      ensures -1.0 <= LayerOut(values, tanh, exp, l, ys)[k] <= 1.0
    {
      assert l.neurons[k].act == TanhAct;
    }
  }

  /** `MLP(3, [4, 4, 1])` has (3 + 1) * 4 + (4 + 1) * 4 + (4 + 1) * 1 = 41
      parameters. */
  lemma ParamCountExample()
    ensures ParamCount(3, [4, 4, 1]) == 41
  {
    LayerSizeIsProduct(3, 4);
    LayerSizeIsProduct(4, 4);
    LayerSizeIsProduct(4, 1);
  }

  /** `acc + w * x`: the product node (after a leaf for a raw number x),
      then the sum node. */
  method AddProduct(g: Graph, acc: nat, w: nat, x: Operand) returns (out: nat)
    requires g.Valid() && acc < |g.shapes| && w < |g.shapes| && (x.Ref? ==> x.node < |g.shapes|)
    modifies g
    ensures g.Valid() && Grew(old(State(g)), State(g)) && out < |g.shapes|
    ensures g.values[out] == old(g.values[acc]) + old(g.values[w]) * OperandValue(old(g.values), x)
  {
    var p := g.Mul(w, x);
    out := g.Add(acc, Ref(p));
  }

  /** The activation on node acc: `tanh()` or `exp()` make one node, the
      identity returns acc itself. */
  method Apply(g: Graph, act: Activation, acc: nat) returns (out: nat)
    requires g.Valid() && acc < |g.shapes|
    modifies g
    ensures g.Valid() && Grew(old(State(g)), State(g)) && out < |g.shapes|
    ensures g.values[out] == Activate(g.mathTanh, g.mathExp, act, old(g.values[acc]))
    ensures act == Linear ==> out == acc
  {
    match act
    case TanhAct => out := g.Tanh(acc);
    case ExpAct => out := g.Exp(acc);
    case Linear => out := acc;
  }

  /** One turn of the sum in `Neuron.__call__`: the running sum of the
      first k products gains product k. */
  method SumStep(g: Graph, ghost a: Arena, n: Neuron, xs: seq<Operand>, ghost vs: seq<real>, k: nat, acc: nat)
    returns (acc': nat)
    requires g.Valid() && Grew(a, State(g)) && acc < |g.shapes|
    requires NeuronIn(n, |a.values|) && Admits(xs, |a.values|) && vs == OperandValues(a.values, xs)
    requires k < |n.weights| && k < |xs| && g.values[acc] == Affine(a.values, n, vs, k)
    modifies g
    ensures g.Valid() && Grew(a, State(g)) && acc' < |g.shapes|
    ensures g.values[acc'] == Affine(a.values, n, vs, k + 1)
  {
    ghost var before := State(g);
    ghost var sum, w, x := g.values[acc], g.values[n.weights[k]], OperandValue(g.values, xs[k]);
    AffineNext(a.values, n, vs, k, sum, w, x);
    acc' := AddProduct(g, acc, n.weights[k], xs[k]);
    GrewTwice(a, before, State(g));
  }

  /** `Neuron.__call__`: the products are summed onto the bias one by one,
      then the activation is applied (the identity makes no node, so a
      neuron with nothing to sum returns its bias node itself). */
  method NeuronCall(g: Graph, n: Neuron, xs: seq<Operand>) returns (out: nat)
    requires g.Valid() && NeuronIn(n, |g.shapes|) && Admits(xs, |g.shapes|)
    modifies g
    ensures g.Valid() && Grew(old(State(g)), State(g)) && out < |g.shapes|
    ensures g.values[out] == NeuronOut(old(g.values), g.mathTanh, g.mathExp, n, OperandValues(old(g.values), xs))
    ensures n.act == Linear && Pairs(n, OperandValues(old(g.values), xs)) == 0 ==> out == n.bias
  {
    ghost var a := State(g);
    ghost var vs := OperandValues(g.values, xs);
    var count := if |n.weights| <= |xs| then |n.weights| else |xs|;
    var acc: nat := n.bias;
    for k := 0 to count
      invariant g.Valid() && Grew(a, State(g)) && acc < |g.shapes|
      invariant g.values[acc] == Affine(a.values, n, vs, k)
      invariant k == 0 ==> acc == n.bias
    {
      acc := SumStep(g, a, n, xs, vs, k, acc);
    }
    out := Apply(g, n.act, acc);
  }

  /** `Layer.__call__`: every neuron on the same inputs, in order. */
  method LayerCall(g: Graph, l: Layer, xs: seq<Operand>) returns (outs: seq<nat>)
    requires g.Valid() && LayerIn(l, |g.shapes|) && Admits(xs, |g.shapes|)
    modifies g
    ensures g.Valid() && Grew(old(State(g)), State(g))
    ensures InRange(outs, |g.shapes|)
    ensures NodeValues(g.values, outs) == LayerOut(old(g.values), g.mathTanh, g.mathExp, l, OperandValues(old(g.values), xs))
  {
    ghost var a := State(g);
    ghost var vs := OperandValues(g.values, xs);
    ghost var want := LayerOut(a.values, g.mathTanh, g.mathExp, l, vs);
    outs := [];
    for k := 0 to |l.neurons|
      invariant g.Valid() && Grew(a, State(g)) && |outs| == k && InRange(outs, |g.shapes|)
      invariant forall j :: 0 <= j < k ==> g.values[outs[j]] == want[j]
    {
      ghost var before := State(g);
      assert OperandValues(g.values, xs) == vs;
      var o := NeuronCall(g, l.neurons[k], xs);
      AffineFrame(a.values, before.values, l.neurons[k], vs, Pairs(l.neurons[k], vs));
      outs := outs + [o];
    }
  }

  /** `MLP.__call__`: the layers in order, each on the previous one's
      outputs; with no layers the inputs come back as they are. */
  method MlpCall(g: Graph, m: Mlp, xs: seq<Operand>) returns (outs: seq<Operand>)
    requires g.Valid() && MlpIn(m, |g.shapes|) && Admits(xs, |g.shapes|)
    modifies g
    ensures g.Valid() && Grew(old(State(g)), State(g))
    ensures Admits(outs, |g.shapes|)
    ensures OperandValues(g.values, outs) == MlpOut(old(g.values), g.mathTanh, g.mathExp, m.layers, OperandValues(old(g.values), xs))
  {
    ghost var a := State(g);
    ghost var vs := OperandValues(g.values, xs);
    outs := xs;
    for k := 0 to |m.layers|
      invariant g.Valid() && Grew(a, State(g)) && Admits(outs, |g.shapes|)
      invariant OperandValues(g.values, outs) == MlpOut(a.values, g.mathTanh, g.mathExp, m.layers[..k], vs)
    {
      ghost var before := State(g);
      var l := m.layers[k];
      var ns := LayerCall(g, l, outs);
      LayerOutFrame(a.values, before.values, g.mathTanh, g.mathExp, l, OperandValues(before.values, outs));
      RefsValues(g.values, ns);
      outs := Refs(ns);
      assert m.layers[..k + 1][..k] == m.layers[..k];
    }
    assert m.layers[..|m.layers|] == m.layers;
  }

  // ----- loss -----

  /** The squared errors of the first k prediction/target pairs, summed
      left to right as `sum` does: `(pred - target) ** 2` each. */
  function SquaredErrors(ps: seq<real>, ts: seq<real>, k: nat): real
    requires k <= |ps| && k <= |ts|
  {
    if k == 0 then 0.0 else SquaredErrors(ps, ts, k - 1) + Power(ps[k - 1] - ts[k - 1], 2)
  }

  /** `MSE.__call__` on values: None when the lengths differ (the assert
      fails) or there are no predictions (`0 / 0` raises). */
  function MeanSquaredError(ps: seq<real>, ts: seq<real>): (r: Option<real>)
    ensures r.None? <==> |ps| != |ts| || |ps| == 0
  {
    if |ps| != |ts| || |ps| == 0 then None
    else Some(SquaredErrors(ps, ts, |ps|) / (|ps| as real))
  }

  lemma SquareIsProduct(x: real)
    ensures Power(x, 2) == x * x
  {
    assert NatPower(x, 2) == x * NatPower(x, 1);
  }

  /** The loss is never negative, and it is zero exactly when every
      prediction equals its target. */
  lemma {:induction false} SquaredErrorsZero(ps: seq<real>, ts: seq<real>, k: nat)
    requires k <= |ps| && k <= |ts|
    ensures SquaredErrors(ps, ts, k) >= 0.0
    ensures SquaredErrors(ps, ts, k) == 0.0 <==> forall j :: 0 <= j < k ==> ps[j] == ts[j]
  {
    if k != 0 {
      SquaredErrorsZero(ps, ts, k - 1);
      var d := ps[k - 1] - ts[k - 1];
      SquareIsProduct(d);
      assert d * d >= 0.0;
      assert d * d == 0.0 <==> d == 0.0;
    }
  }

  lemma MeanSquaredErrorZero(ps: seq<real>, ts: seq<real>)
    requires |ps| == |ts| && |ps| > 0
    ensures MeanSquaredError(ps, ts).value >= 0.0
    ensures MeanSquaredError(ps, ts).value == 0.0 <==> ps == ts
  {
    SquaredErrorsZero(ps, ts, |ps|);
    if ps != ts {
      var j :| 0 <= j < |ps| && ps[j] != ts[j];
    }
  }

  /** The loss of two predictions 0.7 and 0.5 against targets 1 and 0 is
      (0.3 ** 2 + 0.5 ** 2) / 2. */
  lemma MeanSquaredErrorExample()
    ensures MeanSquaredError([0.7, 0.5], [1.0, 0.0]) == Some(0.17)
  {
    SquareIsProduct(0.7 - 1.0);
    SquareIsProduct(0.5 - 0.0);
    assert SquaredErrors([0.7, 0.5], [1.0, 0.0], 2) == 0.34;
  }

  /** `(pred - target) ** 2`: `__sub__` then `__pow__`, which cannot fail
      for the exponent 2. */
  method SquaredError(g: Graph, p: nat, t: Operand) returns (sq: nat)
    requires g.Valid() && p < |g.shapes| && (t.Ref? ==> t.node < |g.shapes|)
    modifies g
    ensures g.Valid() && Grew(old(State(g)), State(g)) && sq < |g.shapes|
    ensures g.values[sq] == Power(old(g.values[p]) - OperandValue(old(g.values), t), 2)
  {
    var d := g.Sub(p, t);
    var r := g.Pow(d, 2);
    sq := r.value;
  }

  /** One addition of `sum`: the first term is added to the start value 0
      through `__radd__` (a leaf 0 and an ADD node), each later one onto
      the running sum. */
  method AddTerm(g: Graph, first: bool, acc: nat, sq: nat) returns (out: nat)
    requires g.Valid() && sq < |g.shapes| && (!first ==> acc < |g.shapes|)
    modifies g
    ensures g.Valid() && Grew(old(State(g)), State(g)) && out < |g.shapes|
    ensures first ==> g.values[out] == old(g.values[sq]) + 0.0
    ensures !first ==> g.values[out] == old(g.values[acc]) + old(g.values[sq])
  {
    if first {
      out := g.RAdd(sq, 0.0);
    } else {
      out := g.Add(acc, Ref(sq));
    }
  }

  /** One turn of `sum` in `MSE.__call__`: the k-th squared error joins the
      running sum. */
  method ErrorStep(g: Graph, ghost a: Arena, preds: seq<nat>, targets: seq<Operand>,
                   ghost ps: seq<real>, ghost ts: seq<real>, k: nat, acc: nat)
    returns (acc': nat)
    requires g.Valid() && Grew(a, State(g))
    requires InRange(preds, |a.values|) && Admits(targets, |a.values|)
    requires ps == NodeValues(a.values, preds) && ts == OperandValues(a.values, targets)
    requires k < |preds| && k < |targets|
    requires k > 0 ==> acc < |g.shapes| && g.values[acc] == SquaredErrors(ps, ts, k)
    modifies g
    ensures g.Valid() && Grew(a, State(g)) && acc' < |g.shapes|
    ensures g.values[acc'] == SquaredErrors(ps, ts, k + 1)
  {
    ghost var before := State(g);
    var sq := SquaredError(g, preds[k], targets[k]);
    ghost var mid := State(g);
    acc' := AddTerm(g, k == 0, acc, sq);
    GrewTwice(a, before, mid);
    GrewTwice(a, mid, State(g));
  }

  /** `MSE.__call__`: the lengths are checked first; the squared errors are
      summed from the start value 0, and the sum is divided by the count
      (a leaf holding the count, its reciprocal and a MUL node). */
  method Mse(g: Graph, preds: seq<nat>, targets: seq<Operand>) returns (r: Option<nat>)
    requires g.Valid() && InRange(preds, |g.shapes|) && Admits(targets, |g.shapes|)
    modifies g
    ensures g.Valid() && Grew(old(State(g)), State(g))
    ensures r.None? <==> MeanSquaredError(NodeValues(old(g.values), preds), OperandValues(old(g.values), targets)).None?
    ensures r.None? ==> State(g) == old(State(g))
    ensures r.Some? ==> r.value < |g.shapes|
    ensures r.Some? ==>
              g.values[r.value] == MeanSquaredError(NodeValues(old(g.values), preds), OperandValues(old(g.values), targets)).value
  {
    if |preds| != |targets| || |preds| == 0 {
      return None;
    }
    ghost var a := State(g);
    ghost var ps, ts := NodeValues(g.values, preds), OperandValues(g.values, targets);
    var acc: nat := 0;
    for k := 0 to |preds|
      invariant g.Valid() && Grew(a, State(g))
      invariant k > 0 ==> acc < |g.shapes| && g.values[acc] == SquaredErrors(ps, ts, k)
    {
      acc := ErrorStep(g, a, preds, targets, ps, ts, k, acc);
    }
    r := Divide(g, a, acc, |preds|);
  }

  /** `/ len(preds)` for a nonzero count. */
  method Divide(g: Graph, ghost a: Arena, acc: nat, n: nat) returns (r: Option<nat>)
    requires g.Valid() && Grew(a, State(g)) && acc < |g.shapes| && n > 0
    modifies g
    ensures g.Valid() && Grew(a, State(g))
    ensures r.Some? && r.value < |g.shapes| && g.values[r.value] == old(g.values[acc]) / (n as real)
  {
    ghost var before := State(g);
    r := g.Div(acc, Num(n as real));
    GrewTwice(a, before, State(g));
  }

  /** `Module.zero_grad`: every parameter of the module gets grad 0. */
  method ZeroGrad(g: Graph, m: Module)
    requires g.Valid() && InRange(Parameters(m), |g.shapes|)
    modifies g`grads
    ensures g.Valid() && g.grads == Zeroed(old(g.grads), Parameters(m))
  {
    ZeroGrads(g, Parameters(m));
  }
}
