/**
 * The two-layer network that learns XOR: two hidden circuits read the
 * inputs x, y; a third circuit reads the two hidden outputs. The nine
 * parameters are Units owned by the network. Training pulls the score up or
 * down by one step, then moves every parameter by its gradient and reduces
 * it modulo 128.
 */
module Network {
  import opened FixedPoint
  import opened Gates
  import opened Circuits

  /** The nine parameter values (or gradients) of the network. */
  datatype Params = Params(a1: Char, b1: Char, c1: Char,
                           a2: Char, b2: Char, c2: Char,
                           a3: Char, b3: Char, c3: Char)

  /** The output of the first hidden circuit. */
  function Hidden1(p: Params, x: Char, y: Char): Char
  {
    Out(x, y, p.a1, p.b1, p.c1)
  }

  /** The output of the second hidden circuit. */
  function Hidden2(p: Params, x: Char, y: Char): Char
  {
    Out(x, y, p.a2, p.b2, p.c2)
  }

  /** The network's score: the third circuit on the two hidden outputs. */
  function Score(p: Params, x: Char, y: Char): Char
  {
    Out(Hidden1(p, x, y), Hidden2(p, x, y), p.a3, p.b3, p.c3)
  }

  /** The training signal. The thresholds 0.7*32 and 0.3*32 are `double`s in
      the source; an integer score is below 22.4 exactly when it is at most
      22 and above 9.6 exactly when it is at least 10. */
  function Pull(target: int, score: Char): (pull: Char)
    ensures pull == 1 <==> target == 1 && score <= 22
    ensures pull == -1 <==> target == 0 && score >= 10
    ensures -1 <= pull <= 1
  {
    if target == 1 && (score as real) < 0.7 * 32.0 then 1
    else if target == 0 && (score as real) > 0.3 * 32.0 then -1
    else 0
  }

  /** The predicted label: 1 when the score is above 0.7*32. */
  function Predict(score: Char): (predicted: Char)
    ensures predicted == 1 <==> score >= 23
    ensures predicted == 0 <==> score <= 22
  {
    if (score as real) > 0.7 * 32.0 then 1 else 0
  }

  /** The parameter gradients one backward pass leaves: every gradient is
      first zeroed, then each circuit receives the pull as its top gradient;
      the third circuit's inputs are the hidden outputs. */
  function BackwardGrads(p: Params, x: Char, y: Char, target: int): Params
  {
    var h1, h2 := Hidden1(p, x, y), Hidden2(p, x, y);
    GradsFrom(Pull(target, Score(p, x, y)), x, y,
              Pre(x, y, p.a1, p.b1, p.c1), Pre(x, y, p.a2, p.b2, p.c2),
              h1, h2, Pre(h1, h2, p.a3, p.b3, p.c3))
  }

  /** The gradients the three circuits' backward steps leave in zeroed
      parameters, given the pull, the inputs, the hidden outputs and the
      three pre-activations. */
  function GradsFrom(pull: Char, x: Char, y: Char, pre1: Char, pre2: Char,
                     h1: Char, h2: Char, pre3: Char): Params
  {
    var f1, f2, f3 := Flow(pull, pre1), Flow(pull, pre2), Flow(pull, pre3);
    Params(Accumulate(0, x * f1), Accumulate(0, y * f1), Accumulate(0, f1),
           Accumulate(0, x * f2), Accumulate(0, y * f2), Accumulate(0, f2),
           Accumulate(0, h1 * f3), Accumulate(0, h2 * f3), Accumulate(0, f3))
  }

  /** The parameter step as the source writes it: each value moves by its
      gradient and is reduced modulo 128, except that the line meant to
      reduce c2 reduces b2 a second time. */
  function UpdateParams(p: Params, g: Params): Params
  {
    Params(Reduce(Step(p.a1, g.a1)), Reduce(Step(p.b1, g.b1)), Reduce(Step(p.c1, g.c1)),
           Reduce(Step(p.a2, g.a2)), Reduce(Reduce(Step(p.b2, g.b2))), Step(p.c2, g.c2),
           Reduce(Step(p.a3, g.a3)), Reduce(Step(p.b3, g.b3)), Reduce(Step(p.c3, g.c3)))
  }

  /** One training step on one example: forward, backward, update. */
  function Learn(p: Params, x: Char, y: Char, target: int): Params
  {
    UpdateParams(p, BackwardGrads(p, x, y, target))
  }

  /** The parameters with every value that the update's reduction would
      change (-128) excluded from the reduced ones. */
  predicate Reduced(p: Params)
  {
    p.a1 != -128 && p.b1 != -128 && p.c1 != -128 &&
    p.a2 != -128 && p.b2 != -128 &&
    p.a3 != -128 && p.b3 != -128 && p.c3 != -128
  }

  /** The `char` an input bit d is presented as: d*32. */
  function Encode(d: Char): (v: Char)
    ensures d == 0 ==> v == 0
    ensures d == 1 ==> v == One
  {
    Wrap(d * One)
  }

  /** The label the network predicts for one example of bits. */
  function Classify(p: Params, d: (Char, Char)): Char
  {
    Predict(Score(p, Encode(d.0), Encode(d.1)))
  }

  /** The network's predictions for a list of examples. */
  function Predictions(p: Params, data: seq<(Char, Char)>): (r: seq<Char>)
    ensures |r| == |data|
  {
    seq(|data|, i requires 0 <= i < |data| => Classify(p, data[i]))
  }

  /** How many of the first n guesses equal their labels. */
  function Matches(guesses: seq<Char>, labels: seq<Char>, n: nat): (k: nat)
    requires n <= |guesses| && n <= |labels|
    ensures k <= n
  {
    if n == 0 then 0
    else Matches(guesses, labels, n - 1) + (if guesses[n - 1] == labels[n - 1] then 1 else 0)
  }

  /** Every score lies in [0, 32]. */
  lemma ScoreRange(p: Params, x: Char, y: Char)
    ensures 0 <= Hidden1(p, x, y) <= One && 0 <= Hidden2(p, x, y) <= One
    ensures 0 <= Score(p, x, y) <= One
  {
  }

  /** For a 0/1 label no pull means the prediction is already right, and a
      wrong prediction is always pulled toward the label. A right prediction
      of 0 may still be pulled down when its score is in [10, 22]. */
  lemma PullCorrects(target: int, score: Char)
    requires target == 0 || target == 1
    ensures Pull(target, score) == 0 ==> Predict(score) == target
    ensures Predict(score) != target ==> Pull(target, score) == 2 * target - 1
    ensures target == 1 ==> (Pull(target, score) == 0 <==> Predict(score) == 1)
  {
  }

  /** Without a pull no gradient reaches any parameter. */
  lemma NoPullNoGrads(p: Params, x: Char, y: Char, target: int)
    requires Pull(target, Score(p, x, y)) == 0
    ensures BackwardGrads(p, x, y, target) == Params(0, 0, 0, 0, 0, 0, 0, 0, 0)
  {
    var h1, h2 := Hidden1(p, x, y), Hidden2(p, x, y);
    ZeroPullZeroGrads(x, y, Pre(x, y, p.a1, p.b1, p.c1), Pre(x, y, p.a2, p.b2, p.c2),
                      h1, h2, Pre(h1, h2, p.a3, p.b3, p.c3));
  }

  lemma ZeroPullZeroGrads(x: Char, y: Char, pre1: Char, pre2: Char, h1: Char, h2: Char, pre3: Char)
    ensures GradsFrom(0, x, y, pre1, pre2, h1, h2, pre3) == Params(0, 0, 0, 0, 0, 0, 0, 0, 0)
  {
  }

  /** On inputs in [0, 1] every parameter gradient points the way of the
      pull, is at most 1.0 in size, and no accumulation wraps. */
  lemma GradsFollowPull(p: Params, x: Char, y: Char, target: int)
    requires 0 <= x <= One && 0 <= y <= One
    ensures Pull(target, Score(p, x, y)) >= 0 ==> AllWithin(BackwardGrads(p, x, y, target), 0, One)
    ensures Pull(target, Score(p, x, y)) < 0 ==> AllWithin(BackwardGrads(p, x, y, target), -One, 0)
  {
    ScoreRange(p, x, y);
    var h1, h2 := Hidden1(p, x, y), Hidden2(p, x, y);
    GradsFromBounds(Pull(target, Score(p, x, y)), x, y, Pre(x, y, p.a1, p.b1, p.c1),
                    Pre(x, y, p.a2, p.b2, p.c2), h1, h2, Pre(h1, h2, p.a3, p.b3, p.c3));
  }

  /** The gradients of a hidden circuit's parameters depend only on the
      pull, the inputs and that circuit's own parameters: what the third
      circuit passed back into the hidden outputs is overwritten. */
  lemma HiddenGradsLocal(p: Params, q: Params, x: Char, y: Char, target: int)
    requires Pull(target, Score(p, x, y)) == Pull(target, Score(q, x, y))
    ensures var g, h := BackwardGrads(p, x, y, target), BackwardGrads(q, x, y, target);
      (p.a1 == q.a1 && p.b1 == q.b1 && p.c1 == q.c1 ==> g.a1 == h.a1 && g.b1 == h.b1 && g.c1 == h.c1) &&
      (p.a2 == q.a2 && p.b2 == q.b2 && p.c2 == q.c2 ==> g.a2 == h.a2 && g.b2 == h.b2 && g.c2 == h.c2)
  {
  }

  /** Every field of g lies in [lo, hi]. */
  predicate AllWithin(g: Params, lo: int, hi: int)
  {
    lo <= g.a1 <= hi && lo <= g.b1 <= hi && lo <= g.c1 <= hi &&
    lo <= g.a2 <= hi && lo <= g.b2 <= hi && lo <= g.c2 <= hi &&
    lo <= g.a3 <= hi && lo <= g.b3 <= hi && lo <= g.c3 <= hi
  }

  lemma GradsFromBounds(pull: Char, x: Char, y: Char, pre1: Char, pre2: Char,
                        h1: Char, h2: Char, pre3: Char)
    requires -1 <= pull <= 1
    requires 0 <= x <= One && 0 <= y <= One && 0 <= h1 <= One && 0 <= h2 <= One
    ensures pull >= 0 ==> AllWithin(GradsFrom(pull, x, y, pre1, pre2, h1, h2, pre3), 0, One)
    ensures pull < 0 ==> AllWithin(GradsFrom(pull, x, y, pre1, pre2, h1, h2, pre3), -One, 0)
  {
    var f1, f2, f3 := Flow(pull, pre1), Flow(pull, pre2), Flow(pull, pre3);
    ScaleBounds(x, f1);
    ScaleBounds(y, f1);
    ScaleBounds(1, f1);
    ScaleBounds(x, f2);
    ScaleBounds(y, f2);
    ScaleBounds(1, f2);
    ScaleBounds(h1, f3);
    ScaleBounds(h2, f3);
    ScaleBounds(1, f3);
  }

  /** A value in [0, 1] scaled by a unit step -1, 0 or 1 keeps its size and
      takes the sign of the step; it fits in a `char`. */
  lemma ScaleBounds(v: Char, f: Char)
    requires 0 <= v <= One && -1 <= f <= 1
    ensures f >= 0 ==> 0 <= Accumulate(0, v * f) <= One
    ensures f < 0 ==> -One <= Accumulate(0, v * f) <= 0
    ensures Accumulate(0, v * f) == v * f
  {
    assert v * f == if f == 1 then v else if f == 0 then 0 else -v;
  }

  /** After any step the eight reduced parameters lie in [-127, 127]; only
      c2, whose reduction is missing, can reach -128. */
  lemma UpdateRange(p: Params, g: Params)
    ensures Reduced(UpdateParams(p, g))
  {
  }

  /** c2 = -127 with gradient -1 steps to -128, which no reduction undoes. */
  lemma UnreducedC2()
    ensures UpdateParams(Params(0, 0, 0, 0, 0, -127, 0, 0, 0),
                         Params(0, 0, 0, 0, 0, -1, 0, 0, 0)).c2 == -128
  {
  }

  /** The double reduction of b2 is harmless: the update equals the one
      that reduces every parameter exactly once, except at c2 when it steps
      to -128. */
  lemma UpdateAsIntended(p: Params, g: Params)
    ensures var q := UpdateParams(p, g);
      q.b2 == Reduce(Step(p.b2, g.b2)) &&
      (Step(p.c2, g.c2) != -128 ==> q.c2 == Reduce(Step(p.c2, g.c2))) &&
      (Step(p.c2, g.c2) == -128 ==> q.c2 == -128 && Reduce(Step(p.c2, g.c2)) == 0)
  {
  }

  /** Reduction and the step leave a parameter without gradient in place
      unless it is -128. */
  lemma ZeroStepFixes(v: Char)
    ensures Step(v, 0) == v
    ensures Reduce(Step(v, 0)) == (if v == -128 then 0 else v)
  {
  }

  /** An example the network already gets right with a margin teaches
      nothing: a training step leaves reduced parameters unchanged. */
  lemma LearnStable(p: Params, x: Char, y: Char, target: int)
    requires Reduced(p)
    requires Pull(target, Score(p, x, y)) == 0
    ensures Learn(p, x, y, target) == p
  {
    NoPullNoGrads(p, x, y, target);
    ZeroStepFixes(p.a1);
    ZeroStepFixes(p.b2);
  }

  /** All n guesses are counted exactly when each one is right. */
  lemma {:induction false} MatchesAll(guesses: seq<Char>, labels: seq<Char>, n: nat)
    requires n <= |guesses| && n <= |labels|
    ensures Matches(guesses, labels, n) == n <==> forall i :: 0 <= i < n ==> guesses[i] == labels[i]
  {
    if n > 0 {
      MatchesAll(guesses, labels, n - 1);
    }
  }

  /** No guess is counted exactly when every one is wrong. */
  lemma {:induction false} MatchesNone(guesses: seq<Char>, labels: seq<Char>, n: nat)
    requires n <= |guesses| && n <= |labels|
    ensures Matches(guesses, labels, n) == 0 <==> forall i :: 0 <= i < n ==> guesses[i] != labels[i]
  {
    if n > 0 {
      MatchesNone(guesses, labels, n - 1);
    }
  }

  /** The values a forward pass leaves and a backward pass reads: the
      inputs, the parameters, the three pre-activations and the two hidden
      outputs. */
  datatype Level = Level(x: Char, y: Char, p: Params, pre1: Char, pre2: Char,
                         h1: Char, h2: Char, pre3: Char)

  /** The levels are those a forward pass computes from the inputs and the
      parameters. */
  predicate Consistent(l: Level)
  {
    l.pre1 == Pre(l.x, l.y, l.p.a1, l.p.b1, l.p.c1) &&
    l.pre2 == Pre(l.x, l.y, l.p.a2, l.p.b2, l.p.c2) &&
    l.h1 == Hidden1(l.p, l.x, l.y) && l.h2 == Hidden2(l.p, l.x, l.y) &&
    l.pre3 == Pre(l.h1, l.h2, l.p.a3, l.p.b3, l.p.c3)
  }

  /** The network: three circuits and the nine parameter Units it owns. */
  class Svm {
    const a1: Unit
    const b1: Unit
    const c1: Unit
    const a2: Unit
    const b2: Unit
    const c2: Unit
    const a3: Unit
    const b3: Unit
    const c3: Unit

    var unitC1Out: Unit?
    var unitC2Out: Unit?
    /** A copy of the third circuit's output, not a pointer to it. */
    const unitOut: Unit

    const circuit1: Circuit
    const circuit2: Circuit
    const circuit3: Circuit

    /** The nine parameter Units. */
    ghost function Parameters(): set<Unit>
    {
      {a1, b1, c1, a2, b2, c2, a3, b3, c3}
    }

    /** The nine parameters and the output copy are ten distinct Units. */
    ghost predicate Distinct()
    {
      a1 != b1 && a1 != c1 && a1 != a2 && a1 != b2 && a1 != c2 && a1 != a3 && a1 != b3 && a1 != c3 &&
      b1 != c1 && b1 != a2 && b1 != b2 && b1 != c2 && b1 != a3 && b1 != b3 && b1 != c3 &&
      c1 != a2 && c1 != b2 && c1 != c2 && c1 != a3 && c1 != b3 && c1 != c3 &&
      a2 != b2 && a2 != c2 && a2 != a3 && a2 != b3 && a2 != c3 &&
      b2 != c2 && b2 != a3 && b2 != b3 && b2 != c3 &&
      c2 != a3 && c2 != b3 && c2 != c3 &&
      a3 != b3 && a3 != c3 &&
      b3 != c3 &&
      unitOut !in Parameters()
    }

    /** None of the network's own objects belongs to circuit k. */
    ghost predicate Apart(k: Circuit)
    {
      this !in k.Repr && unitOut !in k.Repr &&
      a1 !in k.Repr && b1 !in k.Repr && c1 !in k.Repr &&
      a2 !in k.Repr && b2 !in k.Repr && c2 !in k.Repr &&
      a3 !in k.Repr && b3 !in k.Repr && c3 !in k.Repr
    }

    /** Circuits k and j share no object. */
    static ghost predicate Separate(k: Circuit, j: Circuit)
    {
      k.Repr !! j.Repr
    }

    ghost predicate Valid()
    {
      circuit1.Valid() && circuit2.Valid() && circuit3.Valid() &&
      Separate(circuit1, circuit2) && Separate(circuit1, circuit3) && Separate(circuit2, circuit3) &&
      Distinct() && Apart(circuit1) && Apart(circuit2) && Apart(circuit3)
    }

    /** `u` is none of the network's objects: an input it borrows. */
    ghost predicate Outside(u: Unit)
    {
      u != unitOut && u !in Parameters() &&
      u !in circuit1.Repr && u !in circuit2.Repr && u !in circuit3.Repr
    }

    /** The current parameter values. */
    function Values(): Params
      reads a1, b1, c1, a2, b2, c2, a3, b3, c3
    {
      Params(a1.value, b1.value, c1.value, a2.value, b2.value, c2.value, a3.value, b3.value, c3.value)
    }

    /** The current parameter gradients. */
    function Grads(): Params
      reads a1, b1, c1, a2, b2, c2, a3, b3, c3
    {
      Params(a1.grad, b1.grad, c1.grad, a2.grad, b2.grad, c2.grad, a3.grad, b3.grad, c3.grad)
    }

    /** The pointers a forward call on x, y leaves: each circuit's gates
        point at its inputs and parameters, the hidden outputs feed the third
        circuit. */
    ghost predicate Wiring(x: Unit, y: Unit)
      reads this, circuit1, circuit1.mulg0, circuit1.mulg1, circuit1.addg0, circuit1.addg1, circuit1.sGate
      reads circuit2, circuit2.mulg0, circuit2.mulg1, circuit2.addg0, circuit2.addg1, circuit2.sGate
      reads circuit3, circuit3.mulg0, circuit3.mulg1, circuit3.addg0, circuit3.addg1, circuit3.sGate
    {
      unitC1Out == circuit1.sGate.utop && unitC2Out == circuit2.sGate.utop &&
      circuit1.Wired(x, y, a1, b1, c1) && circuit2.Wired(x, y, a2, b2, c2) &&
      circuit3.Wired(circuit1.sGate.utop, circuit2.sGate.utop, a3, b3, c3)
    }

    /** The values a backward pass reads. */
    ghost function Snapshot(x: Unit, y: Unit): Level
      reads x, y, a1, b1, c1, a2, b2, c2, a3, b3, c3
      reads circuit1.Units(), circuit2.Units(), circuit3.Units()
    {
      Level(x.value, y.value, Values(), circuit1.addg1.utop.value, circuit2.addg1.utop.value,
            circuit1.sGate.utop.value, circuit2.sGate.utop.value, circuit3.addg1.utop.value)
    }

    /** The values a forward call on x, y leaves: all three circuits wired,
        each holding its pre-activation, the hidden outputs, and the copy of
        the score. */
    ghost predicate Computed(x: Unit, y: Unit)
      requires Valid()
      reads this, unitOut, x, y, Parameters(), circuit1.Repr, circuit2.Repr, circuit3.Repr
    {
      var l := Snapshot(x, y);
      Wiring(x, y) && Consistent(l) && unitOut.value == Score(l.p, l.x, l.y)
    }

    /** The state right after a forward call: computed, no gradient yet. */
    ghost predicate Forwarded(x: Unit, y: Unit)
      requires Valid()
      reads this, unitOut, x, y, Parameters(), circuit1.Repr, circuit2.Repr, circuit3.Repr
    {
      Computed(x, y) && circuit1.Fresh() && circuit2.Fresh() && circuit3.Fresh()
    }

    /** A network with the given initial parameter values and zero gradients. */
    constructor (init: Params)
      requires AllWithin(init, 0, One)
      ensures Valid()
      ensures fresh(circuit1.Repr) && fresh(circuit2.Repr) && fresh(circuit3.Repr)
      ensures fresh(a1) && fresh(b1) && fresh(c1) && fresh(a2) && fresh(b2) && fresh(c2)
      ensures fresh(a3) && fresh(b3) && fresh(c3) && fresh(unitOut)
      ensures Values() == init && Grads() == Params(0, 0, 0, 0, 0, 0, 0, 0, 0)
    {
      var pa1 := new Unit(init.a1, 0);
      var pb1 := new Unit(init.b1, 0);
      var pc1 := new Unit(init.c1, 0);
      var pa2 := new Unit(init.a2, 0);
      var pb2 := new Unit(init.b2, 0);
      var pc2 := new Unit(init.c2, 0);
      var pa3 := new Unit(init.a3, 0);
      var pb3 := new Unit(init.b3, 0);
      var pc3 := new Unit(init.c3, 0);
      var o := new Unit(0, 0);
      var k1 := new Circuit();
      var k2 := new Circuit();
      var k3 := new Circuit();
      circuit1, circuit2, circuit3 := k1, k2, k3;
      a1, b1, c1, a2, b2, c2, a3, b3, c3 := pa1, pb1, pc1, pa2, pb2, pc2, pa3, pb3, pc3;
      unitOut := o;
      unitC1Out, unitC2Out := null, null;
    }

    /** The first hidden circuit's forward step on x, y. */
    method ForwardCircuit1(x: Unit, y: Unit)
      requires Valid() && Outside(x) && Outside(y)
      modifies this, circuit1.Repr
      ensures unitC1Out == circuit1.sGate.utop
      ensures circuit1.Wired(x, y, a1, b1, c1) && circuit1.Fresh() && circuit1.sGate.utop.grad == 0
      ensures var l := Snapshot(x, y);
        l == old(Snapshot(x, y)).(pre1 := Pre(l.x, l.y, l.p.a1, l.p.b1, l.p.c1), h1 := Hidden1(l.p, l.x, l.y))
    {
      unitC1Out := circuit1.Forward(x, y, a1, b1, c1);
    }

    /** The second hidden circuit's forward step on x, y. */
    method ForwardCircuit2(x: Unit, y: Unit)
      requires Valid() && Outside(x) && Outside(y)
      requires unitC1Out == circuit1.sGate.utop && circuit1.Wired(x, y, a1, b1, c1) && circuit1.Fresh()
      modifies this, circuit2.Repr
      ensures unitC1Out == circuit1.sGate.utop && unitC2Out == circuit2.sGate.utop
      ensures circuit1.Wired(x, y, a1, b1, c1) && circuit1.Fresh()
      ensures circuit2.Wired(x, y, a2, b2, c2) && circuit2.Fresh()
      ensures circuit1.sGate.utop.grad == old(circuit1.sGate.utop.grad) && circuit2.sGate.utop.grad == 0
      ensures var l := Snapshot(x, y);
        l == old(Snapshot(x, y)).(pre2 := Pre(l.x, l.y, l.p.a2, l.p.b2, l.p.c2), h2 := Hidden2(l.p, l.x, l.y))
    {
      unitC2Out := circuit2.Forward(x, y, a2, b2, c2);
    }

    /** The third circuit's forward step on the hidden outputs, and the copy
        of its output into unitOut. */
    method ForwardCircuit3(x: Unit, y: Unit)
      requires Valid() && Outside(x) && Outside(y)
      requires unitC1Out == circuit1.sGate.utop && circuit1.Wired(x, y, a1, b1, c1) && circuit1.Fresh()
      requires unitC2Out == circuit2.sGate.utop && circuit2.Wired(x, y, a2, b2, c2) && circuit2.Fresh()
      modifies unitOut, circuit3.Repr
      ensures circuit1.Wired(x, y, a1, b1, c1) && circuit1.Fresh()
      ensures circuit2.Wired(x, y, a2, b2, c2) && circuit2.Fresh()
      ensures circuit3.Wired(circuit1.sGate.utop, circuit2.sGate.utop, a3, b3, c3) && circuit3.Fresh()
      ensures circuit1.sGate.utop.grad == old(circuit1.sGate.utop.grad)
      ensures circuit2.sGate.utop.grad == old(circuit2.sGate.utop.grad)
      ensures circuit3.sGate.utop.grad == 0 && unitOut.grad == 0
      ensures var l := Snapshot(x, y);
        l == old(Snapshot(x, y)).(pre3 := Pre(l.h1, l.h2, l.p.a3, l.p.b3, l.p.c3)) &&
        unitOut.value == Out(l.h1, l.h2, l.p.a3, l.p.b3, l.p.c3)
    {
      var o := circuit3.Forward(unitC1Out, unitC2Out, a3, b3, c3);
      unitOut.value, unitOut.grad := o.value, o.grad;
    }

    /** Runs the two hidden circuits on x, y and the third on their outputs,
        and copies the result into unitOut. */
    method Forward(x: Unit, y: Unit) returns (out: Unit)
      requires Valid() && Outside(x) && Outside(y)
      modifies this, unitOut, circuit1.Repr, circuit2.Repr, circuit3.Repr
      ensures Forwarded(x, y)
      ensures circuit1.sGate.utop.grad == 0 && circuit2.sGate.utop.grad == 0 && circuit3.sGate.utop.grad == 0
      ensures out == unitOut && out.grad == 0
      ensures out.value == Score(Values(), x.value, y.value)
    {
      ForwardCircuit1(x, y);
      ForwardCircuit2(x, y);
      ForwardCircuit3(x, y);
      out := unitOut;
    }

    /** Sets the gradients of a1, b1, c1 to zero. */
    method ZeroGrads1(ghost x: Unit, ghost y: Unit)
      requires Valid() && Outside(x) && Outside(y)
      requires Wiring(x, y) && circuit1.Fresh() && circuit2.Fresh() && circuit3.Fresh()
      modifies a1, b1, c1
      ensures Wiring(x, y) && circuit1.Fresh() && circuit2.Fresh() && circuit3.Fresh()
      ensures Snapshot(x, y) == old(Snapshot(x, y))
      ensures unitOut.value == old(unitOut.value) && unitOut.grad == old(unitOut.grad)
      ensures x.grad == old(x.grad) && y.grad == old(y.grad)
      ensures Grads() == old(Grads()).(a1 := 0, b1 := 0, c1 := 0)
    {
      a1.grad := 0;
      b1.grad := 0;
      c1.grad := 0;
    }

    /** Sets the gradients of a2, b2, c2 to zero. */
    method ZeroGrads2(ghost x: Unit, ghost y: Unit)
      requires Valid() && Outside(x) && Outside(y)
      requires Wiring(x, y) && circuit1.Fresh() && circuit2.Fresh() && circuit3.Fresh()
      modifies a2, b2, c2
      ensures Wiring(x, y) && circuit1.Fresh() && circuit2.Fresh() && circuit3.Fresh()
      ensures Snapshot(x, y) == old(Snapshot(x, y))
      ensures unitOut.value == old(unitOut.value) && unitOut.grad == old(unitOut.grad)
      ensures x.grad == old(x.grad) && y.grad == old(y.grad)
      ensures Grads() == old(Grads()).(a2 := 0, b2 := 0, c2 := 0)
    {
      a2.grad := 0;
      b2.grad := 0;
      c2.grad := 0;
    }

    /** Sets the gradients of a3, b3, c3 to zero. */
    method ZeroGrads3(ghost x: Unit, ghost y: Unit)
      requires Valid() && Outside(x) && Outside(y)
      requires Wiring(x, y) && circuit1.Fresh() && circuit2.Fresh() && circuit3.Fresh()
      modifies a3, b3, c3
      ensures Wiring(x, y) && circuit1.Fresh() && circuit2.Fresh() && circuit3.Fresh()
      ensures Snapshot(x, y) == old(Snapshot(x, y))
      ensures unitOut.value == old(unitOut.value) && unitOut.grad == old(unitOut.grad)
      ensures x.grad == old(x.grad) && y.grad == old(y.grad)
      ensures Grads() == old(Grads()).(a3 := 0, b3 := 0, c3 := 0)
    {
      a3.grad := 0;
      b3.grad := 0;
      c3.grad := 0;
    }

    /** The third circuit's backward step: its parameters and the two hidden
        output Units, which are its inputs, receive gradient. */
    method BackwardCircuit3(pull: Char, ghost x: Unit, ghost y: Unit)
      requires Valid() && Outside(x) && Outside(y) && x != y
      requires Wiring(x, y) && circuit1.Fresh() && circuit2.Fresh() && circuit3.Fresh()
      modifies circuit3.Units(), circuit1.sGate.utop, circuit2.sGate.utop, a3, b3, c3
      ensures Wiring(x, y) && circuit1.Fresh() && circuit2.Fresh() && circuit3.Propagated(pull)
      ensures Snapshot(x, y) == old(Snapshot(x, y))
      ensures unitOut.value == old(unitOut.value) && unitOut.grad == old(unitOut.grad)
      ensures x.grad == old(x.grad) && y.grad == old(y.grad)
      ensures var l := Snapshot(x, y);
        var f := Flow(pull, l.pre3);
        circuit1.sGate.utop.grad == Accumulate(old(circuit1.sGate.utop.grad), l.p.a3 * f) &&
        circuit2.sGate.utop.grad == Accumulate(old(circuit2.sGate.utop.grad), l.p.b3 * f)
      ensures var l := Snapshot(x, y);
        var f := Flow(pull, l.pre3);
        Grads() == old(Grads()).(a3 := Accumulate(old(a3.grad), l.h1 * f),
                                 b3 := Accumulate(old(b3.grad), l.h2 * f),
                                 c3 := Accumulate(old(c3.grad), f))
    {
      circuit3.Backward(pull, circuit1.sGate.utop, circuit2.sGate.utop, a3, b3, c3);
    }

    /** The second circuit's backward step: its parameters and the inputs
        receive gradient. */
    method BackwardCircuit2(pull: Char, ghost x: Unit, ghost y: Unit)
      requires Valid() && Outside(x) && Outside(y) && x != y
      requires Wiring(x, y) && circuit1.Fresh() && circuit2.Fresh() && circuit3.Propagated(pull)
      modifies circuit2.Units(), x, y, a2, b2, c2
      ensures Wiring(x, y) && circuit1.Fresh() && circuit2.Propagated(pull) && circuit3.Propagated(pull)
      ensures Snapshot(x, y) == old(Snapshot(x, y))
      ensures unitOut.value == old(unitOut.value) && unitOut.grad == old(unitOut.grad)
      ensures var l := Snapshot(x, y);
        var f := Flow(pull, l.pre2);
        x.grad == Accumulate(old(x.grad), l.p.a2 * f) && y.grad == Accumulate(old(y.grad), l.p.b2 * f) &&
        Grads() == old(Grads()).(a2 := Accumulate(old(a2.grad), l.x * f),
                                 b2 := Accumulate(old(b2.grad), l.y * f),
                                 c2 := Accumulate(old(c2.grad), f))
    {
      circuit2.Backward(pull, x, y, a2, b2, c2);
    }

    /** The first circuit's backward step: its parameters and the inputs
        receive gradient. */
    method BackwardCircuit1(pull: Char, ghost x: Unit, ghost y: Unit)
      requires Valid() && Outside(x) && Outside(y) && x != y
      requires Wiring(x, y) && circuit1.Fresh() && circuit2.Propagated(pull) && circuit3.Propagated(pull)
      modifies circuit1.Units(), x, y, a1, b1, c1
      ensures Wiring(x, y)
      ensures circuit1.Propagated(pull) && circuit2.Propagated(pull) && circuit3.Propagated(pull)
      ensures Snapshot(x, y) == old(Snapshot(x, y))
      ensures unitOut.value == old(unitOut.value) && unitOut.grad == old(unitOut.grad)
      ensures var l := Snapshot(x, y);
        var f := Flow(pull, l.pre1);
        x.grad == Accumulate(old(x.grad), l.p.a1 * f) && y.grad == Accumulate(old(y.grad), l.p.b1 * f) &&
        Grads() == old(Grads()).(a1 := Accumulate(old(a1.grad), l.x * f),
                                 b1 := Accumulate(old(b1.grad), l.y * f),
                                 c1 := Accumulate(old(c1.grad), f))
    {
      circuit1.Backward(pull, x, y, a1, b1, c1);
    }

    /** Zeroes the nine parameter gradients, derives the pull from the copied
        score, and runs the circuits' backward steps in the order 3, 2, 1.
        The hidden circuits then overwrite their output gradients with the
        pull, so what the third circuit passed back to them is discarded. */
    method Backward(target: int, ghost x: Unit, ghost y: Unit)
      requires Valid() && Forwarded(x, y) && Outside(x) && Outside(y) && x != y
      modifies Parameters(), circuit1.Units(), circuit2.Units(), circuit3.Units(), x, y
      ensures Computed(x, y)
      ensures Values() == old(Values()) && x.value == old(x.value) && y.value == old(y.value)
      ensures unitOut.grad == old(unitOut.grad)
      ensures var pull := Pull(target, unitOut.value);
        circuit1.Propagated(pull) && circuit2.Propagated(pull) && circuit3.Propagated(pull)
      ensures Grads() == BackwardGrads(Values(), x.value, y.value, target)
      ensures var p := Values();
        var pull := Pull(target, Score(p, x.value, y.value));
        var f1 := Flow(pull, Pre(x.value, y.value, p.a1, p.b1, p.c1));
        var f2 := Flow(pull, Pre(x.value, y.value, p.a2, p.b2, p.c2));
        x.grad == Accumulate(Accumulate(old(x.grad), p.a2 * f2), p.a1 * f1) &&
        y.grad == Accumulate(Accumulate(old(y.grad), p.b2 * f2), p.b1 * f1)
    {
      ZeroGrads1(x, y);
      ZeroGrads2(x, y);
      ZeroGrads3(x, y);
      assert Grads() == Params(0, 0, 0, 0, 0, 0, 0, 0, 0);
      var pull := Pull(target, unitOut.value);
      BackwardCircuit3(pull, x, y);
      BackwardCircuit2(pull, x, y);
      BackwardCircuit1(pull, x, y);
    }

    /** The step of a1, b1, c1: each moves by its gradient and is reduced
        modulo 128. */
    method UpdateParams1()
      requires Valid()
      modifies a1, b1, c1
      ensures var p, g := old(Values()), old(Grads());
        Values() == p.(a1 := Reduce(Step(p.a1, g.a1)), b1 := Reduce(Step(p.b1, g.b1)),
                       c1 := Reduce(Step(p.c1, g.c1)))
      ensures Grads() == old(Grads())
    {
      a1.value := Step(a1.value, a1.grad); a1.value := Reduce(a1.value);
      b1.value := Step(b1.value, b1.grad); b1.value := Reduce(b1.value);
      c1.value := Step(c1.value, c1.grad); c1.value := Reduce(c1.value);
    }

    /** The step of a2, b2, c2: each moves by its gradient; a2 is reduced
        modulo 128, b2 is reduced twice and c2 not at all. */
    method UpdateParams2()
      requires Valid()
      modifies a2, b2, c2
      ensures var p, g := old(Values()), old(Grads());
        Values() == p.(a2 := Reduce(Step(p.a2, g.a2)), b2 := Reduce(Reduce(Step(p.b2, g.b2))),
                       c2 := Step(p.c2, g.c2))
      ensures Grads() == old(Grads())
    {
      a2.value := Step(a2.value, a2.grad); a2.value := Reduce(a2.value);
      b2.value := Step(b2.value, b2.grad); b2.value := Reduce(b2.value);
      c2.value := Step(c2.value, c2.grad); b2.value := Reduce(b2.value);
    }

    /** The step of a3, b3, c3: each moves by its gradient and is reduced
        modulo 128. */
    method UpdateParams3()
      requires Valid()
      modifies a3, b3, c3
      ensures var p, g := old(Values()), old(Grads());
        Values() == p.(a3 := Reduce(Step(p.a3, g.a3)), b3 := Reduce(Step(p.b3, g.b3)),
                       c3 := Reduce(Step(p.c3, g.c3)))
      ensures Grads() == old(Grads())
    {
      a3.value := Step(a3.value, a3.grad); a3.value := Reduce(a3.value);
      b3.value := Step(b3.value, b3.grad); b3.value := Reduce(b3.value);
      c3.value := Step(c3.value, c3.grad); c3.value := Reduce(c3.value);
    }

    /** Moves every parameter by its gradient with step 1 and reduces it
        modulo 128, reducing b2 a second time in place of c2. */
    method ParameterUpdate()
      requires Valid()
      modifies Parameters()
      ensures Values() == UpdateParams(old(Values()), old(Grads()))
      ensures Grads() == old(Grads())
      ensures unitOut.value == old(unitOut.value) && unitOut.grad == old(unitOut.grad)
    {
      UpdateParams1();
      UpdateParams2();
      UpdateParams3();
    }

    /** One training step: forward, backward, parameter update. */
    method LearnFrom(x: Unit, y: Unit, target: int)
      requires Valid() && Outside(x) && Outside(y) && x != y
      modifies this, unitOut, Parameters(), circuit1.Repr, circuit2.Repr, circuit3.Repr, x, y
      ensures Values() == Learn(old(Values()), x.value, y.value, target)
      ensures x.value == old(x.value) && y.value == old(y.value)
      ensures Grads() == BackwardGrads(old(Values()), x.value, y.value, target)
      ensures unitOut.value == Score(old(Values()), x.value, y.value) && unitOut.grad == 0
      ensures var p := old(Values());
        var pull := Pull(target, Score(p, x.value, y.value));
        var f1 := Flow(pull, Pre(x.value, y.value, p.a1, p.b1, p.c1));
        var f2 := Flow(pull, Pre(x.value, y.value, p.a2, p.b2, p.c2));
        x.grad == Accumulate(Accumulate(old(x.grad), p.a2 * f2), p.a1 * f1) &&
        y.grad == Accumulate(Accumulate(old(y.grad), p.b2 * f2), p.b1 * f1)
    {
      var out := Forward(x, y);
      Backward(target, x, y);
      ParameterUpdate();
    }

    /** Presents one example: its bits scaled by 32 become the inputs, with
        zero gradients, and one forward pass gives the predicted label. */
    method Present(x: Unit, y: Unit, d: (Char, Char)) returns (predicted: Char)
      requires Valid() && Outside(x) && Outside(y) && x != y
      modifies this, unitOut, circuit1.Repr, circuit2.Repr, circuit3.Repr, x, y
      ensures Values() == old(Values())
      ensures predicted == Classify(Values(), d)
      ensures x.value == Encode(d.0) && y.value == Encode(d.1) && x.grad == 0 && y.grad == 0
      ensures unitOut.value == Score(Values(), x.value, y.value) && unitOut.grad == 0
    {
      x.value := Encode(d.0);
      y.value := Encode(d.1);
      x.grad := 0;
      y.grad := 0;
      var out := Forward(x, y);
      predicted := Predict(out.value);
    }

    /** Presents example i and adds one to the count when the predicted
        label equals label i. */
    method Tally(x: Unit, y: Unit, data: seq<(Char, Char)>, labels: seq<Char>, i: nat, count: nat)
      returns (next: nat)
      requires Valid() && Outside(x) && Outside(y) && x != y
      requires i < |data| && i < |labels|
      requires count == Matches(Predictions(Values(), data), labels, i)
      modifies this, unitOut, circuit1.Repr, circuit2.Repr, circuit3.Repr, x, y
      ensures Values() == old(Values())
      ensures next == Matches(Predictions(Values(), data), labels, i + 1)
    {
      var predicted := Present(x, y, data[i]);
      var trueLabel := labels[i];
      next := count;
      if predicted == trueLabel {
        next := next + 1;
      }
    }

    /** Presents the first len examples, bits scaled by 32, and counts the
        ones whose predicted label equals the given one. */
    method EvalTrainingAccuracy(data: seq<(Char, Char)>, labels: seq<Char>, len: Char) returns (numCorrect: nat)
      requires Valid()
      requires len <= |data| && len <= |labels|
      modifies this, unitOut, circuit1.Repr, circuit2.Repr, circuit3.Repr
      ensures Values() == old(Values())
      ensures numCorrect == Matches(Predictions(Values(), data), labels, if len > 0 then len as nat else 0)
    {
      numCorrect := 0;
      var n: nat := if len > 0 then len as nat else 0;
      var x := new Unit(0, 0);
      var y := new Unit(0, 0);
      assert Outside(x) && Outside(y);
      var i := 0;
      while i < n
        invariant i <= n
        invariant numCorrect == Matches(Predictions(Values(), data), labels, i)
      {
        numCorrect := Tally(x, y, data, labels, i, numCorrect);
        i := i + 1;
      }
    }
  }
}
