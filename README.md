# Fixed-point XOR network: a Dafny model

This project models the fixed-point reverse-mode gradient engine of
`two_layers_xor_fixedpoint.c`, a small neural network that learns XOR. Every
Unit field is a signed 8-bit C `char`, and a real v is held as v*32. The
circuit's values in [0, 1] become [0, 32]. Parameters and gradients range
over the whole `char` range [-128, 127].

The engine has four parts:

- **Gates.** Multiply, add and a saturating rectifier. Each gate points at
  the Units it was last given and owns an output Unit `{value, grad}`.
- **Circuit.** The fixed graph `ReLu(a*x + b*y + c)`, made of two multiply
  gates, two add gates and a rectifier. Its backward pass runs in strict
  reverse order.
- **Network (the source's `SVM`).** Two hidden circuits read the inputs x,
  y. A third circuit reads the two hidden output Units themselves, as
  pointers. Nine parameter Units belong to the network. It has forward,
  backward (a pull of +1, 0 or -1), parameter update and one training step.
- **Evaluation.** A loop that counts how many examples the network labels
  correctly.

Files:

- `fixed_point.dfy` (module `FixedPoint`): the `char` arithmetic.
  - `Char` is the subset type [-128, 127].
  - `Wrap` stores an `int` into a `char` field, wrapping modulo 256
    (two's complement).
  - `TDiv` and `TRem` are C's truncating `/` and `%`.
  - `Truncate` is C's `double`-to-`char` conversion.
  - Also: the rectifier `ReLu` and the per-gate value functions.
- `gates.dfy` (module `Gates`): class `Unit` and the three gate classes.
  Their forward and backward methods update fields in place.
- `circuit.dfy` (module `Circuits`):
  - class `Circuit`, with its pure specification `Pre`/`Out`/`Flow`;
  - the golden regression run `TestCircuit`.
- `network.dfy` (module `Network`):
  - the parameter record `Params`;
  - the value-level specification of one backward pass (`BackwardGrads`),
    of the update (`UpdateParams`) and of one training step (`Learn`);
  - the prediction count (`Predictions`, `Matches`);
  - class `Svm`, whose methods are proved against those functions.

The value-level functions have no rows of their own in the table below.
The methods and lemmas in its rows are proved against them:

- `Wrap`, `MulValue`, `AddValue`, `Accumulate`, `Step`;
- `Pre`, `Out`, `Flow`;
- `Score`, `BackwardGrads`, `GradsFrom`, `UpdateParams`, `Learn`;
- `Classify`, `Predictions`.

Modelling choices:

- `char` is taken to be signed and 8 bits wide. Each store of an `int`
  expression into a `char` field wraps. This applies to the gate outputs,
  to every gradient `+=`, to every `value +=` and to the `%=` results.
- The source's `double` thresholds `0.7*32` and `0.3*32` are compared as
  exact reals. Their contracts give the integer equivalents:
  - below 22.4 means at most 22;
  - above 9.6 means at least 10;
  - above 22.4 means at least 23.
- The SVM copies circuit 3's output into its own `unit_out`. This is a copy,
  not a pointer (line 240). `Svm.unitOut` is a separate Unit that receives
  the value and the gradient.
- The gates and circuits keep pointers to their inputs. The backward methods
  take ghost parameters naming those borrowed Units so that the contracts
  can speak about them. The C functions take no such arguments.
- The code reduces `b2` twice and never reduces `c2` (line 279). The model
  follows it as written. `UpdateRange`, `UnreducedC2` and `UpdateAsIntended`
  state what the slip does and does not change.

## Model

| member | source | states |
|---|---|---|
| FixedPoint.WrapCongruent | two_layers_xor_fixedpoint.c:27 | storing an int into a char keeps it when it fits and otherwise moves it by a multiple of 256; the stored char is the only one congruent to the int modulo 256 |
| FixedPoint.TDiv | two_layers_xor_fixedpoint.c:27 | the quotient by a positive divisor truncates toward zero: d*q is the largest multiple not past the dividend, on both signs |
| FixedPoint.TRem | two_layers_xor_fixedpoint.c:273 | a == d*TDiv(a, d) + r, and the remainder takes the sign of the dividend with magnitude below d |
| FixedPoint.Truncate | two_layers_xor_fixedpoint.c:181-185 | a double converted to char is truncated toward zero: the result is within 1 of the real, on the side of 0 |
| FixedPoint.ReLu | two_layers_xor_fixedpoint.c:80-82 | the result lies in [0, 32]; it is x when 0 <= x <= 32, 32 above, 0 below; positive exactly when x is |
| FixedPoint.Reduce | two_layers_xor_fixedpoint.c:273 | the char `%= 128` changes only -128, to 0, and always leaves a value in [-127, 127] |
| FixedPoint.MulByOne | two_layers_xor_fixedpoint.c:27 | 32 (1.0) is a two-sided identity of the rescaling multiply |
| FixedPoint.MulHalfHalf | two_layers_xor_fixedpoint.c:27 | 16 * 16 rescales to 8 (0.5 * 0.5 = 0.25) |
| FixedPoint.MulUnitRange | two_layers_xor_fixedpoint.c:27 | a product of two values in [0, 32] does not wrap, stays in [0, 32] and is at most either factor |
| FixedPoint.ReLuMonotone | two_layers_xor_fixedpoint.c:80-82 | the rectifier is monotone and idempotent |
| Gates.Unit.constructor | two_layers_xor_fixedpoint.c:9-12 | a new Unit holds the given value and gradient |
| Gates.MultiplyGate.constructor | two_layers_xor_fixedpoint.c:37-42 | a new gate has no inputs and owns a fresh output Unit |
| Gates.MultiplyGate.Forward | two_layers_xor_fixedpoint.c:22-30 | records both input pointers, sets the output to the wrapped truncating (v0*v1)/32 and its gradient to 0, and returns the output Unit |
| Gates.MultiplyGate.Backward | two_layers_xor_fixedpoint.c:32-35 | values are unchanged; with distinct inputs each gradient grows by the other's value times the output gradient, with no rescale; one input given twice receives both additions |
| Gates.AddGate.constructor | two_layers_xor_fixedpoint.c:65-70 | a new gate has no inputs and owns a fresh output Unit |
| Gates.AddGate.Forward | two_layers_xor_fixedpoint.c:52-58 | records both input pointers, sets the output to the wrapped sum and its gradient to 0 |
| Gates.AddGate.Backward | two_layers_xor_fixedpoint.c:60-63 | values are unchanged; each input gradient grows by the output gradient (twice when one Unit is both inputs) |
| Gates.ReLuGate.constructor | two_layers_xor_fixedpoint.c:96-102 | a new gate has no input and owns a fresh output Unit |
| Gates.ReLuGate.Forward | two_layers_xor_fixedpoint.c:84-89 | records the input pointer, sets the output to ReLu of the input and its gradient to 0 |
| Gates.ReLuGate.Backward | two_layers_xor_fixedpoint.c:91-94 | the input gradient grows by the output gradient exactly when the input value is positive, saturated values included, and is unchanged otherwise |
| Circuits.OutRange | two_layers_xor_fixedpoint.c:130-137 | a circuit's output lies in [0, 32]; for a nonzero top gradient it is positive exactly when the rectifier passes the gradient back |
| Circuits.PreOnUnitRange | two_layers_xor_fixedpoint.c:130-137 | on inputs and parameters in [0, 32] no gate wraps: the pre-activation is the sum of the two truncated products and c, in [0, 96] |
| Circuits.Circuit.constructor | two_layers_xor_fixedpoint.c:122-128 | a new circuit owns five distinct gates and their five distinct output Units |
| Circuits.Circuit.Forward | two_layers_xor_fixedpoint.c:130-137 | wires the gates a*x, b*y, sum, plus c, rectifier; every intermediate is its gate's function of its inputs; the returned output is ReLu(a*x + b*y + c) with zero gradient |
| Circuits.Circuit.Backward | two_layers_xor_fixedpoint.c:139-146 | after a forward: no value changes; the output gradient is the top gradient and the four intermediates hold what the rectifier passes; c, b, y, a, x accumulate the products of the reverse-order pass |
| Circuits.GoldenValues | two_layers_xor_fixedpoint.c:187-203 | the golden run's two forward passes compute 10 and then 18 |
| Circuits.GoldenInputs | two_layers_xor_fixedpoint.c:181-190 | the initialisers 32*0.1, 32*0.2, 32*0.3 and the top gradient 1.0 truncate to 3, 6, 9 and 1 |
| Circuits.TestCircuit | two_layers_xor_fixedpoint.c:176-208 | forward gives 10; backward(1) gives gradients a=3, b=9, c=1, x=3, y=6; after the step-1 update a second forward gives 18 |
| Network.Pull | two_layers_xor_fixedpoint.c:257-264 | the pull is 1 exactly when the label is 1 and the score at most 22, -1 exactly when the label is 0 and the score at least 10, else 0 |
| Network.Predict | two_layers_xor_fixedpoint.c:339 | the predicted label is 1 exactly when the score is at least 23 and 0 exactly when it is at most 22 |
| Network.Encode | two_layers_xor_fixedpoint.c:334-335 | input bit 0 is presented as 0 and bit 1 as 32 |
| Network.Matches | two_layers_xor_fixedpoint.c:340-342 | the count of right guesses among the first n never exceeds n |
| Network.MatchesAll | two_layers_xor_fixedpoint.c:328-345 | all n guesses are counted exactly when every one equals its label |
| Network.MatchesNone | two_layers_xor_fixedpoint.c:328-345 | no guess is counted exactly when every one differs from its label |
| Network.ScoreRange | two_layers_xor_fixedpoint.c:237-242 | both hidden outputs and the score lie in [0, 32] |
| Network.PullCorrects | two_layers_xor_fixedpoint.c:257-264 | for a 0/1 label, no pull implies a right prediction, a wrong prediction is pulled toward the label, and for label 1 no pull is the same as predicting 1 |
| Network.NoPullNoGrads | two_layers_xor_fixedpoint.c:244-269 | with pull 0 every parameter gradient a backward pass leaves is 0 |
| Network.ZeroPullZeroGrads | two_layers_xor_fixedpoint.c:266-268 | the three circuits' backward steps with top gradient 0 leave zeroed gradients at 0 |
| Network.GradsFollowPull | two_layers_xor_fixedpoint.c:244-269 | on inputs in [0, 32] every parameter gradient has the sign of the pull, and is at most 32 (1.0) in size |
| Network.HiddenGradsLocal | two_layers_xor_fixedpoint.c:266-268 | the gradients of a1..c1, and of a2..c2, depend only on the pull, the inputs and that circuit's own parameters, not on what circuit 3 passed back |
| Network.GradsFromBounds | two_layers_xor_fixedpoint.c:266-268 | for inputs and hidden outputs in [0, 32] and a pull in [-1, 1], whatever the pre-activations, every gradient lies in [0, 32] or [-32, 0] following the pull's sign |
| Network.ScaleBounds | two_layers_xor_fixedpoint.c:33-34 | a value in [0, 32] times a step of -1, 0 or 1 fits in a char and keeps the sign of the step |
| Network.UpdateRange | two_layers_xor_fixedpoint.c:271-284 | after any update the eight parameters other than c2 are never -128 |
| Network.UnreducedC2 | two_layers_xor_fixedpoint.c:279 | c2 = -127 with gradient -1 ends at -128, because its reduction is missing |
| Network.UpdateAsIntended | two_layers_xor_fixedpoint.c:277-279 | reducing b2 twice equals reducing it once; c2 differs from a reduced c2 only when it steps to -128 |
| Network.ZeroStepFixes | two_layers_xor_fixedpoint.c:273 | a step with zero gradient keeps a value, and the reduction then changes only -128 |
| Network.LearnStable | two_layers_xor_fixedpoint.c:286-290 | a training step whose pull is 0 leaves parameters other than -128 unchanged |
| Network.Svm.constructor | two_layers_xor_fixedpoint.c:297-326 | three fresh, pairwise separate circuits and nine fresh parameter Units holding the given values with zero gradients |
| Network.Svm.ForwardCircuit1 | two_layers_xor_fixedpoint.c:238 | circuit 1 is wired to x, y, a1, b1, c1; its four intermediate gradients and its output gradient are 0; the snapshot gains its pre-activation and hidden output |
| Network.Svm.ForwardCircuit2 | two_layers_xor_fixedpoint.c:239 | circuit 2 is wired to x, y, a2, b2, c2 with zero intermediate and output gradients; circuit 1's wiring, gradients and snapshot entries are kept |
| Network.Svm.ForwardCircuit3 | two_layers_xor_fixedpoint.c:240 | circuit 3 reads the two hidden output Units themselves, with zero intermediate and output gradients; the hidden output gradients are kept; unitOut receives a copy of its output value and gradient 0 |
| Network.Svm.Forward | two_layers_xor_fixedpoint.c:237-242 | all three circuits hold the values a forward pass computes, and all their intermediate and output gradients are 0; the returned unitOut has gradient 0 and value Score(parameters, x, y) |
| Network.Svm.ZeroGrads1 | two_layers_xor_fixedpoint.c:245-247 | a1, b1, c1 gradients become 0; wiring, values and every other gradient are kept |
| Network.Svm.ZeroGrads2 | two_layers_xor_fixedpoint.c:249-251 | a2, b2, c2 gradients become 0; wiring, values and every other gradient are kept |
| Network.Svm.ZeroGrads3 | two_layers_xor_fixedpoint.c:253-255 | a3, b3, c3 gradients become 0; wiring, values and every other gradient are kept |
| Network.Svm.BackwardCircuit3 | two_layers_xor_fixedpoint.c:266 | a3, b3, c3 accumulate the hidden outputs times the flow of circuit 3 and the flow itself; the two hidden output Units accumulate a3 and b3 times that flow; x and y are untouched |
| Network.Svm.BackwardCircuit2 | two_layers_xor_fixedpoint.c:267 | a2, b2, c2 accumulate x, y times circuit 2's flow and the flow; x and y gradients grow by a2, b2 times the flow |
| Network.Svm.BackwardCircuit1 | two_layers_xor_fixedpoint.c:268 | a1, b1, c1 accumulate x, y times circuit 1's flow and the flow; x and y gradients grow by a1, b1 times the flow |
| Network.Svm.Backward | two_layers_xor_fixedpoint.c:244-269 | after a forward, the parameter gradients equal BackwardGrads of the parameters, inputs and label; no value changes and unitOut is untouched; x and y gradients receive circuit 2's and then circuit 1's contributions |
| Network.Svm.UpdateParams1 | two_layers_xor_fixedpoint.c:273-275 | a1, b1, c1 step by their gradients and are reduced; nothing else changes |
| Network.Svm.UpdateParams2 | two_layers_xor_fixedpoint.c:277-279 | a2 steps and is reduced, b2 steps and is reduced twice, c2 steps and is not reduced |
| Network.Svm.UpdateParams3 | two_layers_xor_fixedpoint.c:281-283 | a3, b3, c3 step by their gradients and are reduced; nothing else changes |
| Network.Svm.ParameterUpdate | two_layers_xor_fixedpoint.c:271-284 | the new parameters are UpdateParams of the old parameters and gradients; the gradients are kept |
| Network.Svm.LearnFrom | two_layers_xor_fixedpoint.c:286-290 | the new parameters are Learn(old parameters, x, y, label) and the gradients are BackwardGrads of the old ones; x and y values are kept, and their gradients receive circuit 2's and then circuit 1's contributions; unitOut keeps the score before the update, with gradient 0 |
| Network.Svm.Present | two_layers_xor_fixedpoint.c:334-339 | the inputs become the example's bits times 32 with zero gradients; the result is Classify(parameters, example); unitOut holds their Score with gradient 0; the parameters are unchanged |
| Network.Svm.Tally | two_layers_xor_fixedpoint.c:334-342 | presenting example i turns the count of right guesses among the first i into the count among the first i+1 |
| Network.Svm.EvalTrainingAccuracy | two_layers_xor_fixedpoint.c:328-345 | parameters are unchanged and the result is the number of the first len examples whose predicted label equals the given label (none when len <= 0) |

## Left out

- `two_layers_xor_floatpoint.c`: the same network over IEEE `float` with a
  sigmoid through `exp`. It is floating-point numerics and is not part of
  this model.
- `getRandomArbitrary`, `srand`/`rand`, `Random_Test_XOR` and `main` are
  not modelled, because they are randomness and a training/restart driver.
  `Network.Svm.constructor` stands for `init_SVM`. It takes the nine initial
  values as a parameter and requires each to lie in [0, 32], the range the
  random draws produce.
- `printf`, `malloc` and `free` are not modelled, and neither are the
  circuits `main` leaks. They are output and memory plumbing. The function
  pointers stored in the structs become ordinary methods.
- `TestCircuit2` is not modelled. `main` never calls it, and it runs
  only the circuit forward pass that `Circuits.Circuit.Forward` models.
- Network.Svm.EvalTrainingAccuracy: returns the integer count of right
  predictions, not the `float` ratio `num_correct / len`. That division by
  `len` is floating point, and it is undefined when `len` is 0. The examples
  are passed as a sequence of bit pairs.
- Doubles: the source's comparisons of a `char` against `0.7*32` and
  `0.3*32` are modelled with exact reals. The model ignores the rounding
  of those two products.
- Circuits.Circuit.Backward: requires a preceding forward pass, with gates
  wired and intermediate gradients zero. The C allocators leave a new gate's
  input pointers and a new circuit's Unit pointers uninitialised. A backward
  before any forward reads those pointers, which is undefined behaviour.
  The model's `null` stands for them, and such a call is not modelled.
- Circuits.Circuit.Forward: requires the five borrowed Units to lie outside
  the circuit. All callers in the source satisfy this.
- Circuits.Circuit.Backward: also requires the five borrowed Units to be
  distinct. All callers in the source satisfy this.
- Network.Svm.Backward: requires x and y to be distinct Units that belong
  to no circuit. The source's callers satisfy this.
- Network.Svm.LearnFrom: requires the same of x and y.
- Network.Svm.Forward: the three circuit calls are split into one helper
  per circuit (`ForwardCircuit1` to `ForwardCircuit3`). The split does not
  change the order of the stores.
- Network.Svm.Backward: the gradient resets and the circuits' backward
  calls are split into helpers (`ZeroGrads1` to `ZeroGrads3`,
  `BackwardCircuit3` to `BackwardCircuit1`). The splits do not change the
  order of the stores.
- Network.Svm.ParameterUpdate: split into `UpdateParams1` to
  `UpdateParams3`, one per circuit. The split does not change the order of
  the stores.
- Network.Svm.Tally: does not state what it leaves in the circuits' Units
  or in the copied score `unitOut`. Those hold the last example's forward
  pass, and nothing reads them before the next forward pass overwrites
  them.
- Network.Svm.EvalTrainingAccuracy: does not state what it leaves in the
  circuits' Units or in `unitOut`, for the same reason.
- Network.Svm.EvalTrainingAccuracy: its loop body is split out as `Tally`,
  which runs `Present`. The split does not change the order of the stores.
