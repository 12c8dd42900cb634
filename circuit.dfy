/**
 * The fixed circuit ReLu(a*x + b*y + c) built from two multiply gates, two
 * add gates and a rectifier gate. The circuit owns its gates, whose output
 * Units are the intermediate values ax, by, axpby, axpbypc and the output
 * sValue; the inputs x, y and the parameters a, b, c are borrowed.
 */
module Circuits {
  import opened FixedPoint
  import opened Gates

  /** The pre-activation a*x + b*y + c as the gates compute it. */
  function Pre(x: Char, y: Char, a: Char, b: Char, c: Char): Char
  {
    AddValue(AddValue(MulValue(a, x), MulValue(b, y)), c)
  }

  /** The circuit's output value. */
  function Out(x: Char, y: Char, a: Char, b: Char, c: Char): Char
  {
    ReLu(Pre(x, y, a, b, c))
  }

  /** What the rectifier passes back of an output gradient `g` when its
      input is `pre`. */
  function Flow(g: Char, pre: Char): Char
  {
    if pre > 0 then g else 0
  }

  /** The output is always in [0, 32], and it is positive exactly when the
      rectifier lets gradient through. */
  lemma OutRange(x: Char, y: Char, a: Char, b: Char, c: Char, g: Char)
    ensures 0 <= Out(x, y, a, b, c) <= One
    ensures g != 0 ==> (Out(x, y, a, b, c) > 0 <==> Flow(g, Pre(x, y, a, b, c)) == g)
  {
  }

  /** On inputs in [0, 1] no gate wraps: the pre-activation is the plain sum
      of the truncated products and c. */
  lemma PreOnUnitRange(x: Char, y: Char, a: Char, b: Char, c: Char)
    requires 0 <= x <= One && 0 <= y <= One && 0 <= a <= One && 0 <= b <= One && 0 <= c <= One
    ensures Pre(x, y, a, b, c) == TDiv(a * x, One) + TDiv(b * y, One) + c
    ensures 0 <= Pre(x, y, a, b, c) <= 3 * One
  {
    MulUnitRange(a, x);
    MulUnitRange(b, y);
  }

  class Circuit {
    const mulg0: MultiplyGate
    const mulg1: MultiplyGate
    const addg0: AddGate
    const addg1: AddGate
    const sGate: ReLuGate

    var ax: Unit?
    var bY: Unit?  // `by` in the source; `by` is a Dafny keyword
    var axpby: Unit?
    var axpbypc: Unit?
    var sValue: Unit?

    /** The circuit, its gates and the gates' output Units. */
    ghost const Repr: set<object>

    /** The five output Units owned by the gates. */
    ghost function Units(): set<Unit>
    {
      {mulg0.utop, mulg1.utop, addg0.utop, addg1.utop, sGate.utop}
    }

    ghost predicate Valid()
    {
      this in Repr && mulg0 in Repr && mulg1 in Repr && addg0 in Repr && addg1 in Repr && sGate in Repr &&
      mulg0.utop in Repr && mulg1.utop in Repr && addg0.utop in Repr && addg1.utop in Repr &&
      sGate.utop in Repr &&
      mulg0 != mulg1 && addg0 != addg1 &&
      mulg0.utop != mulg1.utop && mulg0.utop != addg0.utop && mulg0.utop != addg1.utop &&
      mulg0.utop != sGate.utop && mulg1.utop != addg0.utop && mulg1.utop != addg1.utop &&
      mulg1.utop != sGate.utop && addg0.utop != addg1.utop && addg0.utop != sGate.utop &&
      addg1.utop != sGate.utop
    }

    /** The borrowed Units are five distinct Units the circuit does not own. */
    ghost predicate Borrowed(x: Unit, y: Unit, a: Unit, b: Unit, c: Unit)
    {
      x !in Repr && y !in Repr && a !in Repr && b !in Repr && c !in Repr &&
      x != y && x != a && x != b && x != c && y != a && y != b && y != c &&
      a != b && a != c && b != c
    }

    /** The pointers a forward call on x, y, a, b, c leaves behind. */
    ghost predicate Wired(x: Unit, y: Unit, a: Unit, b: Unit, c: Unit)
      reads this, mulg0, mulg1, addg0, addg1, sGate
    {
      mulg0.u0 == a && mulg0.u1 == x && mulg1.u0 == b && mulg1.u1 == y &&
      addg0.u0 == mulg0.utop && addg0.u1 == mulg1.utop &&
      addg1.u0 == addg0.utop && addg1.u1 == c &&
      sGate.u0 == addg1.utop &&
      ax == mulg0.utop && bY == mulg1.utop && axpby == addg0.utop &&
      axpbypc == addg1.utop && sValue == sGate.utop
    }

    /** Every intermediate value is its gate's function of its inputs' values. */
    ghost predicate Settled(x: Unit, y: Unit, a: Unit, b: Unit, c: Unit)
      reads Units(), x, y, a, b, c
    {
      mulg0.utop.value == MulValue(a.value, x.value) &&
      mulg1.utop.value == MulValue(b.value, y.value) &&
      addg0.utop.value == AddValue(mulg0.utop.value, mulg1.utop.value) &&
      addg1.utop.value == AddValue(addg0.utop.value, c.value) &&
      sGate.utop.value == ReLu(addg1.utop.value)
    }

    /** The four intermediate gradients are still those a forward call leaves: zero. */
    ghost predicate Fresh()
      reads Units()
    {
      mulg0.utop.grad == 0 && mulg1.utop.grad == 0 &&
      addg0.utop.grad == 0 && addg1.utop.grad == 0
    }

    /** The gradients a backward call with top gradient `g` leaves in the
        owned Units when they start out Fresh: the output holds `g`, and the
        four intermediates hold what the rectifier lets through. */
    ghost predicate Propagated(g: Char)
      reads Units()
    {
      var f := Flow(g, addg1.utop.value);
      sGate.utop.grad == g && addg1.utop.grad == f && addg0.utop.grad == f &&
      mulg0.utop.grad == f && mulg1.utop.grad == f
    }

    constructor ()
      ensures Valid() && fresh(Repr)
    {
      var m0 := new MultiplyGate();
      var m1 := new MultiplyGate();
      var s0 := new AddGate();
      var s1 := new AddGate();
      var r := new ReLuGate();
      mulg0, mulg1, addg0, addg1, sGate := m0, m1, s0, s1, r;
      ax, bY, axpby, axpbypc, sValue := null, null, null, null, null;
      var owned: set<object> := {m0, m1, s0, s1, r};
      Repr := {this} + owned + {m0.utop, m1.utop, s0.utop, s1.utop, r.utop};
    }

    /** Runs the five gates in topological order and returns the output Unit. */
    method Forward(x: Unit, y: Unit, a: Unit, b: Unit, c: Unit) returns (out: Unit)
      requires Valid()
      requires x !in Repr && y !in Repr && a !in Repr && b !in Repr && c !in Repr
      modifies Repr
      ensures Wired(x, y, a, b, c) && Settled(x, y, a, b, c) && Fresh()
      ensures out == sGate.utop && out.grad == 0
      ensures out.value == Out(x.value, y.value, a.value, b.value, c.value)
      ensures addg1.utop.value == Pre(x.value, y.value, a.value, b.value, c.value)
    {
      ax := mulg0.Forward(a, x);
      bY := mulg1.Forward(b, y);
      axpby := addg0.Forward(ax, bY);
      axpbypc := addg1.Forward(axpby, c);
      sValue := sGate.Forward(axpbypc);
      out := sValue;
    }

    /** Sets the output gradient to `gradientTop`, then runs the gates'
        backward steps in reverse order: rectifier, second add, first add,
        then the two multiplies. Each upstream gradient is computed from the
        downstream gradient already updated in this call. */
    method Backward(gradientTop: Char, ghost x: Unit, ghost y: Unit, ghost a: Unit, ghost b: Unit, ghost c: Unit)
      requires Valid() && Wired(x, y, a, b, c) && Borrowed(x, y, a, b, c) && Fresh()
      modifies Units(), x, y, a, b, c
      ensures x.value == old(x.value) && y.value == old(y.value) && a.value == old(a.value)
      ensures b.value == old(b.value) && c.value == old(c.value)
      ensures mulg0.utop.value == old(mulg0.utop.value) && mulg1.utop.value == old(mulg1.utop.value)
      ensures addg0.utop.value == old(addg0.utop.value) && addg1.utop.value == old(addg1.utop.value)
      ensures sGate.utop.value == old(sGate.utop.value)
      ensures Propagated(gradientTop)
      ensures
        var g := Flow(gradientTop, addg1.utop.value);
        c.grad == Accumulate(old(c.grad), g) &&
        b.grad == Accumulate(old(b.grad), y.value * g) &&
        y.grad == Accumulate(old(y.grad), b.value * g) &&
        a.grad == Accumulate(old(a.grad), x.value * g) &&
        x.grad == Accumulate(old(x.grad), a.value * g)
    {
      sValue.grad := gradientTop;
      sGate.Backward();
      addg1.Backward();
      addg0.Backward();
      mulg1.Backward();
      mulg0.Backward();
    }
  }

  /** The pre-activations and outputs of the two forward passes of the
      golden run. */
  lemma GoldenValues()
    ensures Pre(3, 9, 3, 6, 9) == 10 && Out(3, 9, 3, 6, 9) == 10
    ensures Pre(6, 15, 6, 15, 10) == 18 && Out(6, 15, 6, 15, 10) == 18
  {
    assert TDiv(9, 32) == 0 && TDiv(54, 32) == 1;
    assert MulValue(3, 3) == 0 && MulValue(6, 9) == 1;
    assert TDiv(36, 32) == 1 && TDiv(225, 32) == 7;
    assert MulValue(6, 6) == 1 && MulValue(15, 15) == 7;
  }

  /** The C initialisers `(32)*0.1`, `(32)*0.2`, `(32)*0.3` and the top
      gradient `1.0` of the golden run, as truncated to `char`. */
  lemma GoldenInputs()
    ensures Truncate(32.0 * 0.1) == 3 && Truncate(32.0 * 0.2) == 6
    ensures Truncate(32.0 * 0.3) == 9 && Truncate(1.0) == 1
  {
  }

  /** The golden regression run: a = 0.1, b = 0.2, c = 0.3, x = 0.1, y = 0.3
      scaled by 32 and truncated to `char`, one forward pass, backward
      with top gradient 1, one update with step 1 of all five Units, and a
      second forward pass. */
  method TestCircuit() returns (first: Char, grads: seq<Char>, second: Char)
    ensures first == 10
    ensures grads == [3, 9, 1, 3, 6]
    ensures second == 18
  {
    GoldenInputs();
    var a := new Unit(Truncate(32.0 * 0.1), 0);
    var b := new Unit(Truncate(32.0 * 0.2), 0);
    var c := new Unit(Truncate(32.0 * 0.3), 0);
    var x := new Unit(Truncate(32.0 * 0.1), 0);
    var y := new Unit(Truncate(32.0 * 0.3), 0);
    var circuit := new Circuit();

    var out := circuit.Forward(x, y, a, b, c);
    first := out.value;
    assert first == 10 && circuit.addg1.utop.value == 10 by { GoldenValues(); }
    var top := Truncate(1.0);
    circuit.Backward(top, x, y, a, b, c);
    assert Flow(top, circuit.addg1.utop.value) == 1;
    assert c.grad == 1;
    assert a.grad == 3;
    assert b.grad == 9;
    assert x.grad == 3;
    assert y.grad == 6;
    grads := [a.grad, b.grad, c.grad, x.grad, y.grad];

    a.value := Step(a.value, a.grad);
    b.value := Step(b.value, b.grad);
    c.value := Step(c.value, c.grad);
    x.value := Step(x.value, x.grad);
    y.value := Step(y.value, y.grad);
    out := circuit.Forward(x, y, a, b, c);
    second := out.value;
    assert second == 18 by { GoldenValues(); }
  }
}
