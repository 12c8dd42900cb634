/**
 * Units and the three gates of the fixed-point engine. A gate keeps pointers
 * to the Units it was last given (`u0`, `u1`, null until its first forward
 * call) and owns its output Unit `utop`; its backward step adds to the
 * gradients of the Units it points to, which it does not own.
 */
module Gates {
  import opened FixedPoint

  /** A value together with the gradient that flows back to it; both are `char`s. */
  class Unit {
    var value: Char
    var grad: Char

    constructor (value: Char, grad: Char)
      ensures this.value == value && this.grad == grad
    {
      this.value := value;
      this.grad := grad;
    }
  }

  /** Multiplies two Units; the forward rescales by 1/32, the backward does not. */
  class MultiplyGate {
    var u0: Unit?
    var u1: Unit?
    const utop: Unit

    constructor ()
      ensures fresh(utop) && u0 == null && u1 == null
    {
      u0, u1 := null, null;
      utop := new Unit(0, 0);
    }

    method Forward(u0: Unit, u1: Unit) returns (top: Unit)
      modifies this, utop
      ensures this.u0 == u0 && this.u1 == u1 && top == utop
      ensures utop.value == MulValue(old(u0.value), old(u1.value))
      ensures utop.grad == 0
    {
      this.u0 := u0;
      this.u1 := u1;
      utop.value := MulValue(u0.value, u1.value);
      utop.grad := 0;
      top := utop;
    }

    /** Product rule with plain integer products: each input's gradient grows
        by the other input's value times the output gradient. */
    method Backward()
      requires u0 != null && u1 != null && u0 != utop && u1 != utop
      modifies u0, u1
      ensures u0.value == old(u0.value) && u1.value == old(u1.value)
      ensures u0 != u1 ==>
        u0.grad == Accumulate(old(u0.grad), u1.value * utop.grad) &&
        u1.grad == Accumulate(old(u1.grad), u0.value * utop.grad)
      ensures u0 == u1 ==>
        u0.grad == Accumulate(Accumulate(old(u0.grad), u0.value * utop.grad), u0.value * utop.grad)
    {
      u0.grad := Accumulate(u0.grad, u1.value * utop.grad);
      u1.grad := Accumulate(u1.grad, u0.value * utop.grad);
    }
  }

  /** Adds two Units; the gradient passes unchanged to both inputs. */
  class AddGate {
    var u0: Unit?
    var u1: Unit?
    const utop: Unit

    constructor ()
      ensures fresh(utop) && u0 == null && u1 == null
    {
      u0, u1 := null, null;
      utop := new Unit(0, 0);
    }

    method Forward(u0: Unit, u1: Unit) returns (top: Unit)
      modifies this, utop
      ensures this.u0 == u0 && this.u1 == u1 && top == utop
      ensures utop.value == AddValue(old(u0.value), old(u1.value))
      ensures utop.grad == 0
    {
      this.u0 := u0;
      this.u1 := u1;
      utop.value := AddValue(u0.value, u1.value);
      utop.grad := 0;
      top := utop;
    }

    method Backward()
      requires u0 != null && u1 != null && u0 != utop && u1 != utop
      modifies u0, u1
      ensures u0.value == old(u0.value) && u1.value == old(u1.value)
      ensures u0 != u1 ==>
        u0.grad == Accumulate(old(u0.grad), utop.grad) &&
        u1.grad == Accumulate(old(u1.grad), utop.grad)
      ensures u0 == u1 ==>
        u0.grad == Accumulate(Accumulate(old(u0.grad), utop.grad), utop.grad)
    {
      u0.grad := Accumulate(u0.grad, 1 * utop.grad);
      u1.grad := Accumulate(u1.grad, 1 * utop.grad);
    }
  }

  /** The saturating rectifier gate. */
  class ReLuGate {
    var u0: Unit?
    const utop: Unit

    constructor ()
      ensures fresh(utop) && u0 == null
    {
      u0 := null;
      utop := new Unit(0, 0);
    }

    method Forward(u0: Unit) returns (top: Unit)
      modifies this, utop
      ensures this.u0 == u0 && top == utop
      ensures utop.value == ReLu(old(u0.value))
      ensures utop.grad == 0
    {
      this.u0 := u0;
      utop.value := ReLu(u0.value);
      utop.grad := 0;
      top := utop;
    }

    /** The gradient steps at zero only: it passes whenever the input is
        positive, also above the saturation point 32. */
    method Backward()
      requires u0 != null && u0 != utop
      modifies u0
      ensures u0.value == old(u0.value)
      ensures u0.value > 0 ==> u0.grad == Accumulate(old(u0.grad), utop.grad)
      ensures u0.value <= 0 ==> u0.grad == old(u0.grad)
    {
      var s := ReLu(u0.value);
      u0.grad := Accumulate(u0.grad, (if s > 0 then 1 else 0) * utop.grad);
    }
  }
}
