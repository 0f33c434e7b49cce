# micrograd in Dafny

A model of the autograd engine and the small neural-network library of
karpathy-follow-along's `micrograd` package, with proofs about it.

- **`Value`** (micrograd/value.py) is a scalar that remembers how it was computed.
  - It records the operation, its operands and its set of children.
  - It carries a closure that adds to its operands' grads during `backward`.
  - `backward` seeds the output's grad with 1.0. It then walks the graph breadth-first from the output through the children sets and runs each closure it meets.
- **`SGD`** (micrograd/optim.py) holds a parameter list and a learning rate.
  - `step` subtracts `lr * grad` from every parameter's value.
  - `zero_grad` resets every parameter's grad to 0.
- **`Neuron`, `Layer`, `MLP` and `MSE`** (micrograd/nn.py) build networks of `Value`s.
  - Weights and biases are drawn from `random.uniform(-1, 1)`.
  - Calling a network sums products onto the bias and applies an activation (`tanh` by default).
  - `MSE` averages squared errors.

The model keeps every `Value` in one arena, the class `Engine.Graph`. A node is an
index into three parallel sequences:

- `shapes` holds each node's operation, its operands in order, and its children set. It never changes once a node is made.
- `values` holds the forward values. `SGD.step` rewrites them.
- `grads` holds the gradients. `backward` and `zero_grad` rewrite them.

Every arithmetic operator of `Value` (`+`, `*`, `**`, `/`, `-`, negation, `exp`,
`tanh` and the reversed forms) is a method of `Graph` that appends nodes, exactly
as many as the Python code allocates. That includes the leaf `_convert_other`
makes for a raw number. `__eq__` is the function `Engine.Equal`, which appends
nothing (see "## Left out"). A backward closure is the function `Engine.Rule`, and the
method `Graph.RunRule` runs it in place. `backward`'s queue loop is the method
`Graph.Backward`, which is proved equal to the recursive function `Engine.Drain`.

Three references hold the backward pass to account:

- `ChainRule.Chain` states the chain rule over the graph's operands.
- `Fifo.DrainIsChain` proves that the FIFO pass as written meets it on tree-shaped graphs whose children sets hold every operand.
- `ChainRule.SweepIsChain` proves that a reverse topological pass (`Graph.BackwardTopo`) meets it on every graph on which no POW closure raises (see `ChainRule.SweepRaises`).

Module `Optim` models the optimizer over the same arena. `Optim.Stepped` and
`Optim.Zeroed` are the reference functions for `step` and `zero_grad`.

Module `Nn` models the network library:

- A `Neuron`, `Layer` and `MLP` is a value naming the arena nodes that hold its parameters.
- Constructors are methods that draw from a `Uniform` stream and append leaves.
- Calls are methods that append the nodes of the forward pass.
- Each call is proved against a function over values (`NeuronOut`, `LayerOut`, `MlpOut`, `MeanSquaredError`).

Module `Findings` holds two concrete graphs on which `backward` as written departs
from the chain rule (see "## Findings").

## Model

| member | source | states |
|---|---|---|
| Engine.Graph.NewValue | micrograd/value.py:22-29 | `Value(v)` appends a leaf with value v, grad 0.0, no operands and no children; nothing else changes |
| Engine.ChildrenOfIsSet | micrograd/value.py:24 | the children set holds only operands, no two of them with equal values, covers every operand's value, and keeps the first operand |
| Engine.ChildrenKeyedByEqual | micrograd/value.py:67-69 | `__eq__` is the key of the children set: no child is `==` to another child, and every operand is `==` to some child |
| Engine.Graph.Convert | micrograd/value.py:61-65 | `_convert_other` returns a node unchanged and wraps a number in one fresh leaf holding it |
| Engine.Graph.Append | micrograd/value.py:22-29 | a new node gets its operation, operands, value-keyed children set, value and grad 0.0 |
| Engine.Graph.Add | micrograd/value.py:71-80 | `a + other` appends (a leaf for a number and) one ADD node whose value is the sum, with operands `[a, other]` |
| Engine.Graph.RAdd | micrograd/value.py:82-83 | `x + a` for a number x is `a + x`: a leaf for x, then an ADD node valued `a + x` |
| Engine.Graph.Mul | micrograd/value.py:85-94 | `a * other` appends (a leaf for a number and) one MUL node whose value is the product |
| Engine.Graph.RMul | micrograd/value.py:96-97 | `x * a` for a number x is `a * x` |
| Engine.Graph.Pow | micrograd/value.py:99-107 | `a ** p` appends one POW node valued `a.value ** p`; a zero base with a negative exponent raises and appends nothing |
| Engine.NatPower | micrograd/value.py:101 | a nonzero base has a nonzero natural power, and any base to the power 0 is 1 |
| Engine.Reciprocal | micrograd/value.py:109-110 | `x ** -1` is `1 / x`, so `y * x ** -1` is `y / x` |
| Engine.Graph.Invert | micrograd/value.py:109-110 | the divisor half of `/`: converts the divisor and raises it to -1, raising exactly when the divisor is 0 |
| Engine.Graph.Div | micrograd/value.py:109-110 | `a / other` appends a POW(-1) node and a MUL node whose value is `a / other`; a zero divisor raises after its leaf was made |
| Engine.Graph.RDiv | micrograd/value.py:112-113 | `x / a` is `Value(x) / a`: value `x / a`, raising exactly when `a` is 0 |
| Engine.Graph.Neg | micrograd/value.py:115-116 | `-a` is `a * -1`: a leaf -1 and a MUL node whose value is `-a` |
| Engine.Graph.Sub | micrograd/value.py:118-119 | `a - other` is `a + -other`, valued `a - other`; a number is negated before it is wrapped, a node goes through `Neg` |
| Engine.Graph.RSub | micrograd/value.py:121-122 | `x - a` is `Value(x) - a`: four new nodes (a leaf for x, then `-a` and the sum), valued `x - a` |
| Engine.Graph.Exp | micrograd/value.py:124-131 | `exp()` appends one EXP node valued `math.exp(a)` |
| Engine.Graph.Tanh | micrograd/value.py:133-140 | `tanh()` appends one TANH node valued `math.tanh(a)` |
| Engine.Rule | micrograd/value.py:75-137 | a backward closure raises exactly in the POW case with a zero base and `power - 1 < 0`, and otherwise returns grads of the same length |
| Engine.RuleAccumulates | micrograd/value.py:75-137 | every closure that does not raise adds `out.grad` times the local partial to each node and overwrites nothing (`a + a` gives a twice) |
| Engine.AddRuleAccumulates | micrograd/value.py:75-77 | the ADD closure adds `out.grad` to each operand slot |
| Engine.MulRuleAccumulates | micrograd/value.py:89-91 | the MUL closure adds `out.grad` times the other operand's value to each operand slot |
| Engine.UnaryRuleAccumulates | micrograd/value.py:124-140 | the EXP closure adds `out.grad * out.value`, the TANH closure adds `out.grad * (1 - out.value ** 2)` |
| Engine.Graph.RunRule | micrograd/value.py:75-137 | running a node's closure in place leaves exactly the grads `Rule` gives, or raises and leaves them as they were |
| Engine.Graph.RunAdd | micrograd/value.py:75-77 | the ADD closure run in place equals `Rule` |
| Engine.Graph.RunMul | micrograd/value.py:89-91 | the MUL closure run in place equals `Rule` |
| Engine.Graph.RunPow | micrograd/value.py:103-104 | the POW closure run in place equals `Rule`, raising in the same case |
| Engine.Graph.RunUnary | micrograd/value.py:127-137 | the EXP and TANH closures run in place equal `Rule` |
| Engine.WorkStep | micrograd/value.py:145-148 | popping a node and appending its children lowers the closure runs still owed by one, so the loop ends on every graph |
| Engine.Drain | micrograd/value.py:142-148 | the FIFO loop ends on every well-formed graph and keeps the grads' length |
| Engine.Graph.Backward | micrograd/value.py:142-148 | `backward` sets the output's grad to 1.0, then its queue loop leaves exactly the grads `Drain` gives; values and shapes are untouched |
| Fifo.DrainIsChain | micrograd/value.py:142-148 | on a graph where each node feeds the output along one path and the children sets hold every operand, the FIFO pass leaves every node with its chain-rule grad and does not raise |
| Engine.Sweep | micrograd/value.py:142-148 | the reverse topological pass keeps the grads' length |
| Engine.Graph.BackwardTopo | micrograd/value.py:142-148 | the corrected `backward` leaves exactly the grads `Sweep` gives |
| ChainRule.SweepIsChain | micrograd/value.py:142-148 | on every graph whose POW closures do not raise, the reverse topological pass leaves each node with its old grad plus its chain-rule total, and the output with 1.0 |
| ChainRule.SweepRaises | micrograd/value.py:103-104 | the reverse topological pass raises exactly when a node feeding the output is a POW node with a zero base and `power - 1 < 0` |
| Optim.SteppedMoves | micrograd/optim.py:11-13 | after `step` every node has moved by `lr * grad` once per occurrence in the parameter list; others keep their value |
| Optim.SteppedOnce | micrograd/optim.py:11-13 | with no parameter listed twice, `step` is one gradient-descent step on each parameter and leaves every other node alone |
| Optim.ZeroedClears | micrograd/optim.py:15-17 | after `zero_grad` exactly the listed nodes have grad 0; the others keep theirs |
| Optim.ZeroedIdempotent | micrograd/optim.py:15-17 | `zero_grad` twice is `zero_grad` once |
| Optim.StepAfterZeroGrad | micrograd/optim.py:11-17 | a `step` right after `zero_grad` moves no value |
| Optim.ZeroGrads | micrograd/optim.py:15-17 | the loop sets the listed grads to 0 as `Zeroed` says; values and shapes are untouched |
| Optim.SGD.constructor | micrograd/optim.py:7-9 | `SGD(params, lr)` keeps the parameter list and the rate |
| Optim.SGD.WithDefaultLr | micrograd/optim.py:7-9 | `SGD(params)` uses the rate 0.01 |
| Optim.SGD.Step | micrograd/optim.py:11-13 | `step` leaves the values `Stepped` gives; grads and shapes are untouched |
| Optim.SGD.ZeroGrad | micrograd/optim.py:15-17 | `zero_grad` leaves the grads `Zeroed` gives; values are untouched |
| Nn.ZeroGrad | micrograd/nn.py:15-17 | `Module.zero_grad` zeroes the grads of exactly the module's parameters |
| Nn.Uniform.Draw | micrograd/nn.py:22-23 | each `random.uniform(-1, 1)` takes the next draw of the stream, which lies in [-1, 1] |
| Nn.NewParam | micrograd/nn.py:22-23 | a parameter is a fresh leaf holding the next draw, with grad 0 |
| Nn.NewNeuron | micrograd/nn.py:21-24 | `Neuron(n, act)` makes n weights and then a bias, the n + 1 next nodes, holding the next n + 1 draws; its parameters list them in order |
| Nn.NewLayer | micrograd/nn.py:34-35 | `Layer(numIn, numOut, act)` makes numOut neurons of width numIn with activation act, owning the next `numOut * (numIn + 1)` nodes in order |
| Nn.NewMlp | micrograd/nn.py:45-50 | `MLP(numIn, numOuts, act)` raises on an empty numOuts; otherwise layer k maps the previous width to `numOuts[k]`, only the first layer takes act, and the parameters are the next `ParamCount` nodes in order |
| Nn.LayerSizeIsProduct | micrograd/nn.py:40-41 | a layer has `numOut * (numIn + 1)` parameters |
| Nn.ParamCountExample | tests/test_nn.py:44-52 | `MLP(3, [4, 4, 1])` has 41 parameters |
| Nn.NeuronsParamsStep | micrograd/nn.py:40-41 | one more neuron's parameters continue the layer's numbering |
| Nn.LayersParamsStep | micrograd/nn.py:57-58 | one more layer's parameters continue the network's numbering |
| Nn.NeuronsIn | micrograd/nn.py:40-41 | a layer whose parameter list lies in the arena can be called there |
| Nn.LayersIn | micrograd/nn.py:57-58 | a network whose parameter list lies in the arena can be called there |
| Nn.MadeMlpIn | micrograd/nn.py:45-58 | a network just made can be called in the arena that made it |
| Nn.AddProduct | micrograd/nn.py:27 | one term of the sum: the value is `acc + w * x`, and earlier nodes are untouched |
| Nn.Apply | micrograd/nn.py:21 | the activation applies `tanh`, `exp` or nothing; the identity returns the sum node itself |
| Nn.NeuronCall | micrograd/nn.py:26-27 | `Neuron.__call__` yields the activation of the bias plus the products of `zip(weights, inputs)`, summed left to right; with the identity and no pairs it returns the bias node itself |
| Nn.AffineFrame | micrograd/nn.py:26-27 | a neuron reads only its own parameters: nodes appended later do not change its output |
| Nn.LayerOut | micrograd/nn.py:37-38 | a layer yields one output per neuron |
| Nn.LayerOutFrame | micrograd/nn.py:37-38 | nodes appended while calling earlier neurons do not change what the later neurons of the layer compute |
| Nn.LayerCall | micrograd/nn.py:37-38 | `Layer.__call__` yields the values `LayerOut` gives, each neuron on the same inputs |
| Nn.MlpCall | micrograd/nn.py:52-55 | `MLP.__call__` threads the inputs through the layers and yields the values `MlpOut` gives |
| Nn.MlpOutWidth | micrograd/nn.py:52-55 | a network yields `numOuts[-1]` outputs |
| Nn.MlpOutBounded | tests/test_nn.py:31-41 | with `math.tanh` bounded by 1, every output of a network whose last layer uses `tanh` lies in [-1, 1] |
| Nn.MeanSquaredError | micrograd/nn.py:61-64 | the loss is undefined exactly when the lengths differ (the assert) or there are no predictions (`0 / 0`) |
| Nn.SquaredErrorsZero | micrograd/nn.py:64 | the sum of squared errors is never negative and is 0 exactly when each prediction equals its target |
| Nn.MeanSquaredErrorZero | micrograd/nn.py:61-64 | the loss is never negative and is 0 exactly when the predictions equal the targets |
| Nn.MeanSquaredErrorExample | tests/test_nn.py:57-63 | predictions 0.7, 0.5 against targets 1, 0 give loss 0.17 |
| Nn.SquaredError | micrograd/nn.py:64 | `(pred - target) ** 2` yields the square of the difference and never raises |
| Nn.AddTerm | micrograd/nn.py:64 | `sum` adds the first term to the start value 0 through `__radd__`, and each later term to the running sum |
| Nn.Divide | micrograd/nn.py:64 | `/ len(preds)` for a nonzero count yields the running sum divided by the count |
| Nn.Mse | micrograd/nn.py:61-64 | `MSE.__call__` raises exactly when `MeanSquaredError` is undefined, appending nothing then, and otherwise yields the node holding that loss |
| Findings.DagFifoOverCounts | micrograd/value.py:142-148 | on `c = (x + y) + (x + (x + y))` the FIFO pass as written leaves x.grad 4 and y.grad 3 |
| Findings.DagSweepExact | micrograd/value.py:142-148 | on the same graph the reverse topological pass leaves x.grad 3 and y.grad 2 |
| Findings.SharedNodeBackward | micrograd/value.py:142-148 | building that graph with the operators and calling `backward` gives x.grad 4 and y.grad 3 |
| Findings.SharedNodeBackwardTopo | micrograd/value.py:142-148 | the corrected `backward` on it gives x.grad 3 and y.grad 2 |
| Findings.TwinFifoDropsNode | micrograd/value.py:57-58 | on `z = x + (w + w)` with x = 2 and w = 1, the value-keyed children set drops `w + w` and w.grad stays 0 |
| Findings.TwinSweepExact | micrograd/value.py:142-148 | on the same graph the reverse topological pass gives w.grad 2 |
| Findings.TwinBackward | micrograd/value.py:57-58 | building that graph with the operators and calling `backward` gives w.grad 0 |
| Findings.TwinBackwardTopo | micrograd/value.py:142-148 | the corrected `backward` on it gives w.grad 2 |
| Findings.LeavesDrain | micrograd/value.py:142-148 | popping leaves from the queue changes no grad |

## Left out

- Floating point: values and grads are mathematical reals, so rounding, overflow, `inf` and `nan` are not modelled.
- `math.exp` and `math.tanh` are uninterpreted functions fixed with the arena (`Graph.mathExp`, `Graph.mathTanh`).
  - `Nn.MlpOutBounded` takes the bound `-1 <= tanh(v) <= 1` as a hypothesis.
- `random.uniform(-1, 1)` is a stream of reals in [-1, 1] passed in as a parameter (`Nn.Uniform`). The generator's algorithm and seeding are not modelled.
- Engine.Graph.Pow: takes an integer exponent only. A float exponent (`a ** 4.0`) is not modelled, and neither is the `assert isinstance(power, int | float)` check.
- `__eq__` against a raw number wraps it in a leaf first (micrograd/value.py:68). `Engine.Equal` compares with the number directly and appends no leaf.
- Optim.SGD.constructor: copies the parameter list into a sequence. The source keeps the caller's list by reference, so later changes to that list would change what `step` and `zero_grad` touch. That aliasing is not modelled.
- Optim.SGD.WithDefaultLr: copies the parameter list in the same way as `Optim.SGD.constructor`, so the same aliasing is not modelled.
- Node identity is an arena index, so two `Value`s are the same object exactly when they are the same index.
- Python's hash-order iteration of a children set is replaced by insertion order (first operand first).
  - On tree-shaped graphs whose children sets hold every operand, the result does not depend on this order (`Fifo.DrainIsChain`).
  - On a graph with shared nodes the FIFO result can depend on it. The input of `Findings.SharedNodeBackward` is chosen so that Python's order and insertion order agree.
- Labels, `__str__`, `__repr__`, `__hash__` itself and the read-only properties are not modelled.
  - The properties are `value`, `grad`, `children`, `operation` and `label`.
  - `__hash__` is modelled only through its effect on children sets.
- `Value` defines no ordering, so `-1 <= out <= 1` in tests/test_nn.py is stated on forward values instead (`Nn.MlpOutBounded`).
- The activation of a neuron is one of `tanh` (the default), `exp` and the identity. Any other callable is not modelled.
- `Module.parameters` is abstract in the source. The model's `Nn.Parameters` covers the three concrete modules.
- `zero_grad` stores the integer 0. The model stores 0.0, which compares and adds the same.
- Exceptions are results: `None` for a failed operation, and a `raised` flag on a backward pass, which keeps the grads changed before the raise.
  - The failed operations are ZeroDivisionError, the length assert of `MSE` and the IndexError of `MLP` with no layers.
- Convergence of training (`final_loss < 0.05` in tests/micrograd/test_optim.py) is not modelled. It depends on floating-point values and random draws.
- The unused `child` parameter of `backward` is not modelled.

## Findings

| source | as written | input that shows it | evidently intended | confidence | as-written member | corrected member |
|---|---|---|---|---|---|---|
| micrograd/value.py:142-148 | `backward` keeps no visited set: a node reached along two paths is queued twice, and each time its closure adds the grad it has accumulated so far | `x = Value(1.0); y = Value(2.0); a = x + y; b = x + a; c = a + b; c.backward()` gives x.grad 4 and y.grad 3 | each closure runs once, after all of its consumers (reverse topological order), giving x.grad 3 and y.grad 2 for `c = 3x + 2y` | high, not executed | Findings.SharedNodeBackward | Findings.SharedNodeBackwardTopo |
| micrograd/value.py:57-58 | children are a `set` keyed by `__hash__`/`__eq__` on the forward value, so an operand whose value equals the other operand's is dropped and `backward` never reaches the nodes beneath it | `x = Value(2.0); w = Value(1.0); z = x + (w + w); z.backward()` gives w.grad 0 | children keyed by identity, so every operand is visited and w.grad is 2 for `z = x + 2w` | high, not executed | Findings.TwinBackward | Findings.TwinBackwardTopo |

Both corrected members run `Engine.Graph.BackwardTopo`. `ChainRule.SweepIsChain` proves
it matches the chain rule on every graph on which no POW closure raises (see
`ChainRule.SweepRaises`). On the first input the hashes of the
values are 1, 2, 3 and 4, so each two-element children set iterates in insertion
order, which is the order the model uses. A network trained on a loss is a graph
of the first kind whenever two consumers of one hidden output both feed the
loss. For example, an `MSE` over several outputs of a layer whose inputs are
hidden outputs has this shape.
