/**
 * The three functions of the C math library that the loss functions call:
 * `std::exp`, `std::log` and `std::log1p`.
 *
 * They are not defined here. A `Library` bundles them as function values, and
 * the subset type `Libm` admits exactly the bundles that obey the few facts the
 * losses rely on. Every model function that calls one of them takes a `Libm`
 * as a parameter, so every property proved about the losses holds for any
 * implementation of exp, log and log1p with these facts.
 */
module Elementary {

  datatype Library = Library(exp: real -> real, log: real -> real, log1p: real -> real)

  /** The facts about exp, log and log1p that the model assumes, and no more. */
  ghost predicate Lawful(m: Library) {
    // exp is positive, strictly increasing, and exp(0) = 1
    && (forall x :: m.exp(x) > 0.0)
    && (forall x, y :: x < y ==> m.exp(x) < m.exp(y))
    && m.exp(0.0) == 1.0
    // log is monotone on the positive reals, and log(1) = 0
    && (forall x, y :: 0.0 < x <= y ==> m.log(x) <= m.log(y))
    && m.log(1.0) == 0.0
    // log1p is positive on the positive reals, and monotone above -1
    && (forall x :: x > 0.0 ==> m.log1p(x) > 0.0)
    && (forall x, y :: -1.0 < x <= y ==> m.log1p(x) <= m.log1p(y))
  }

  type Libm = m: Library | Lawful(m) witness Consistent()

  /**
   * A crude piecewise-rational stand-in that obeys every fact in `Lawful`.
   * It shows that the assumptions are consistent (so no property below holds
   * vacuously); nothing in the model computes with it.
   */
  function Consistent(): (m: Library)
    ensures Lawful(m)
  {
    var m := Library(StandInExp, StandInLog, StandInLog1p);
    assert forall x, y :: x < y ==> m.exp(x) < m.exp(y) by {
      forall x: real, y: real | x < y ensures m.exp(x) < m.exp(y) {
        StandInExpIncreasing(x, y);
      }
    }
    m
  }

  function StandInExp(x: real): (r: real)
    ensures r > 0.0
  {
    if x >= 0.0 then 1.0 + x else 1.0 / (1.0 - x)
  }

  function StandInLog(x: real): real {
    x - 1.0
  }

  function StandInLog1p(x: real): real {
    x
  }

  lemma StandInExpIncreasing(x: real, y: real)
    requires x < y
    ensures StandInExp(x) < StandInExp(y)
  {
    if y < 0.0 {
      ReciprocalDecreasing(1.0 - x, 1.0 - y);
    } else if x < 0.0 {
      ReciprocalDecreasing(1.0 - x, 1.0);
    }
  }

  lemma ReciprocalDecreasing(a: real, b: real)
    requires 0.0 < b < a
    ensures 1.0 / a < 1.0 / b
  {
    assert (1.0 / a) * a == 1.0;
    assert (1.0 / b) * b == 1.0;
  }
}
