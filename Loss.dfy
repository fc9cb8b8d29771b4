/**
 * The scalar loss functions of `src/model/loss.hpp`.
 *
 * Each variant is a triple of pure functions of a raw score `pred` and a
 * label `truth`: `...Evaluate` (the loss), `...Gradient` (its derivative with
 * respect to `pred`) and `...Predict` (the reported prediction for a score).
 * Doubles are modelled as `real`. The variants that call exp, log or log1p take
 * the math library as a parameter `m: Libm` (see module Elementary), and the
 * ±18 cut-offs and the 0.0001 clamp appear only as branch conditions.
 * `CHECK(...)` guards become `requires` clauses.
 */
module Loss {
  import opened Elementary

  /** The clamp applied to a probability before taking its logarithm. */
  const Epsilon: real := 0.0001

  /** Beyond this magnitude the log(1 + exp(-a)) terms use tail formulas. */
  const Cutoff: real := 18.0

  /** `std::max` on doubles. */
  function Max(a: real, b: real): real {
    if a < b then b else a
  }

  predicate IsBinaryLabel(truth: real) {
    truth == 0.0 || truth == 1.0
  }

  // ---------------------------------------------------------------- Square

  /** l(a, y) = (y - a)^2 */
  function SquareEvaluate(pred: real, truth: real): (r: real)
    ensures r >= 0.0
    ensures r == 0.0 <==> pred == truth
  {
    var err := truth - pred;
    ProductIsZero(err, err);
    err * err
  }

  /** A product is zero exactly when a factor is. */
  lemma ProductIsZero(x: real, y: real)
    ensures x * y == 0.0 <==> x == 0.0 || y == 0.0
  {
  }

  function SquareGradient(pred: real, truth: real): (r: real)
    ensures r > 0.0 <==> pred > truth
    ensures r < 0.0 <==> pred < truth
  {
    -2.0 * (truth - pred)
  }

  /**
   * The gradient is the derivative of the loss: moving the score by h changes
   * the loss by exactly gradient * h plus the second-order term h^2.
   */
  lemma SquareGradientIsDerivative(pred: real, truth: real, h: real)
    ensures SquareEvaluate(pred + h, truth)
         == SquareEvaluate(pred, truth) + SquareGradient(pred, truth) * h + h * h
  {
  }

  lemma SquareExamples()
    ensures SquareEvaluate(3.0, 1.0) == 4.0
    ensures SquareGradient(3.0, 1.0) == 4.0
  {
  }

  /** The reported prediction is the label the score fits exactly. */
  function SquarePredict(x: real): (r: real)
    ensures SquareEvaluate(x, r) == 0.0
    ensures SquareGradient(x, r) == 0.0
  {
    x
  }

  // ---------------------------------------------------------------- Logistic

  /** The probability the score `pred` assigns to the label `truth`. */
  function LabelProbability(pred: real, truth: real): real {
    if truth == 1.0 then pred else 1.0 - pred
  }

  /**
   * l(p, y) = -y log(p) - (1 - y) log(1 - p), each probability clamped
   * at Epsilon so that log never sees 0.
   */
  function LogisticEvaluate(m: Libm, pred: real, truth: real): (r: real)
    requires 0.0 <= pred <= 1.0
    requires IsBinaryLabel(truth)
    ensures r == -(truth * m.log(Max(Epsilon, pred)) + (1.0 - truth) * m.log(Max(Epsilon, 1.0 - pred)))
    ensures 0.0 <= r <= -m.log(Epsilon)
  {
    if truth == 0.0 then
      -m.log(Max(Epsilon, 1.0 - pred))
    else if truth == 1.0 then
      -m.log(Max(Epsilon, pred))
    else
      assert false; 0.0
  }

  /**
   * The argument of the logarithm is the clamped probability of the true
   * label, which lies in [Epsilon, 1]; so log is never applied to 0.
   */
  lemma LogisticLogArgument(m: Libm, pred: real, truth: real)
    requires 0.0 <= pred <= 1.0
    requires IsBinaryLabel(truth)
    ensures Epsilon <= Max(Epsilon, LabelProbability(pred, truth)) <= 1.0
    ensures LogisticEvaluate(m, pred, truth) == -m.log(Max(Epsilon, LabelProbability(pred, truth)))
  {
  }

  /** The more probability the score gives to the true label, the smaller the loss. */
  lemma LogisticEvaluateMonotone(m: Libm, p: real, q: real, truth: real)
    requires 0.0 <= p <= 1.0 && 0.0 <= q <= 1.0
    requires IsBinaryLabel(truth)
    requires LabelProbability(p, truth) <= LabelProbability(q, truth)
    ensures LogisticEvaluate(m, q, truth) <= LogisticEvaluate(m, p, truth)
  {
  }

  /** A certain, wrong prediction is charged -log(Epsilon), not infinity. */
  lemma LogisticClampExample(m: Libm)
    ensures LogisticEvaluate(m, 1.0, 0.0) == -m.log(Epsilon)
    ensures LogisticEvaluate(m, 0.0, 1.0) == -m.log(Epsilon)
    ensures LogisticEvaluate(m, 1.0, 1.0) == 0.0
  {
  }

  /**
   * (p - y) / (p (1 - p)); the strict bounds on p keep the denominator
   * positive. The result is -1/p for y = 1 and 1/(1 - p) for y = 0.
   */
  function LogisticGradient(pred: real, truth: real): (r: real)
    requires 0.0 < pred < 1.0
    requires IsBinaryLabel(truth)
    ensures truth == 1.0 ==> r == -1.0 / pred
    ensures truth == 0.0 ==> r == 1.0 / (1.0 - pred)
    ensures r > 0.0 <==> pred > truth
    ensures r < 0.0 <==> pred < truth
  {
    var d := pred * (1.0 - pred);
    assert d > 0.0;
    (pred - truth) / d
  }

  /**
   * The score is reported unchanged: it is the probability of label 1 that
   * evaluate charges for, so it picks label 1 exactly when it gives that
   * label at least as much probability as label 0.
   */
  function LogisticPredict(x: real): (r: real)
    ensures r == LabelProbability(x, 1.0)
    ensures r >= 0.5 <==> LabelProbability(x, 1.0) >= LabelProbability(x, 0.0)
  {
    x
  }

  /** A prediction of at least 1/2 makes label 1 the cheaper one, and at most 1/2 label 0. */
  lemma LogisticPredictPicksLabel(m: Libm, x: real)
    requires 0.0 <= x <= 1.0
    ensures LogisticPredict(x) >= 0.5 ==> LogisticEvaluate(m, x, 1.0) <= LogisticEvaluate(m, x, 0.0)
    ensures LogisticPredict(x) <= 0.5 ==> LogisticEvaluate(m, x, 0.0) <= LogisticEvaluate(m, x, 1.0)
  {
  }

  // ---------------------------------------------------------------- CrossEntropy

  /**
   * l(a, y) = (1 - y) a + log(1 + exp(-a)), with log(1 + exp(-a)) replaced
   * by exp(-a) above the cut-off and by -a below it.
   */
  function CrossEntropyEvaluate(m: Libm, pred: real, truth: real): (r: real)
    ensures r > (1.0 - truth) * pred
    ensures pred < -Cutoff ==> r == -truth * pred
  {
    var ret := (1.0 - truth) * pred;
    if pred > Cutoff then
      ret + m.exp(-pred)
    else if pred < -Cutoff then
      ret - pred
    else
      ret + m.log1p(m.exp(-pred))
  }

  /**
   * The cross-entropy loss is the log loss of the score with label +1,
   * shifted by the linear term (1 - y) a: its tail term is computed by the
   * same three branches as LogEvaluate.
   */
  lemma CrossEntropyIsShiftedLogLoss(m: Libm, pred: real, truth: real)
    ensures CrossEntropyEvaluate(m, pred, truth) == (1.0 - truth) * pred + LogEvaluate(m, pred, 1.0)
  {
  }

  /**
   * For the positive label the loss is positive; for label 0 it is positive
   * for every non-negative score and zero below the low cut-off. Label 0 with
   * a score in [-Cutoff, 0) is left out: there the sign depends on
   * log1p(exp(-a)) >= -a, which is not among the assumed facts.
   */
  lemma CrossEntropyEvaluatePositive(m: Libm, pred: real, truth: real)
    requires truth == 1.0 || (truth == 0.0 && !(-Cutoff <= pred < 0.0))
    ensures CrossEntropyEvaluate(m, pred, truth) >= 0.0
    ensures truth == 1.0 ==> CrossEntropyEvaluate(m, pred, truth) > 0.0
    ensures truth == 0.0 && pred >= 0.0 ==> CrossEntropyEvaluate(m, pred, truth) > 0.0
    ensures truth == 0.0 && pred < -Cutoff ==> CrossEntropyEvaluate(m, pred, truth) == 0.0
  {
  }

  /**
   * Far above the cut-off the loss is the linear term plus exp(-a), the tail
   * approximation of log(1 + exp(-a)); with label 0 at a = 30 it is
   * 30 + exp(-30).
   */
  lemma CrossEntropyTailExample(m: Libm)
    ensures CrossEntropyEvaluate(m, 30.0, 1.0) == m.exp(-30.0)
    ensures CrossEntropyEvaluate(m, 30.0, 0.0) == 30.0 + m.exp(-30.0)
    ensures CrossEntropyGradient(m, 30.0, 1.0) == 0.0
  {
  }

  /** sigmoid(x) = 1 / (1 + exp(-x)) */
  function CrossEntropyPredict(m: Libm, x: real): (r: real)
    ensures 0.0 < r < 1.0
    ensures x == 0.0 ==> r == 0.5
  {
    1.0 / (1.0 + m.exp(-x))
  }

  /** The sigmoid is strictly increasing. */
  lemma CrossEntropyPredictMonotone(m: Libm, x: real, y: real)
    requires x < y
    ensures CrossEntropyPredict(m, x) < CrossEntropyPredict(m, y)
  {
    assert m.exp(-y) < m.exp(-x);
    Elementary.ReciprocalDecreasing(1.0 + m.exp(-x), 1.0 + m.exp(-y));
  }

  /**
   * (1 - y) - 1 / (1 + exp(a)), written as sigmoid(a) - y, with sigmoid(a)
   * replaced by exp(a) below the cut-off and by 1 above it.
   */
  function CrossEntropyGradient(m: Libm, pred: real, truth: real): (r: real)
    ensures -truth < r <= 1.0 - truth
    ensures pred > Cutoff ==> r == 1.0 - truth
  {
    if pred < -Cutoff then
      m.exp(pred) - truth
    else if pred > Cutoff then
      1.0 - truth
    else
      1.0 / (1.0 + m.exp(-pred)) - truth
  }

  /**
   * gradient + y is the approximated sigmoid of the score: exactly the
   * prediction in the middle range, exp(a) below the cut-off and 1 above it.
   * In particular it does not depend on the label.
   */
  lemma CrossEntropyGradientIsPredictMinusTruth(m: Libm, pred: real, truth: real)
    ensures -Cutoff <= pred <= Cutoff ==>
      CrossEntropyGradient(m, pred, truth) + truth == CrossEntropyPredict(m, pred)
    ensures pred < -Cutoff ==> CrossEntropyGradient(m, pred, truth) + truth == m.exp(pred)
    ensures CrossEntropyGradient(m, pred, truth) + truth == CrossEntropyGradient(m, pred, 0.0)
  {
  }

  // ---------------------------------------------------------------- Log

  /**
   * l(a, y) = log(1 + exp(-z)) with z = a y, replaced by exp(-z) above the
   * cut-off and by -z below it.
   */
  function LogEvaluate(m: Libm, pred: real, truth: real): (r: real)
    ensures r > 0.0
    ensures pred * truth < -Cutoff ==> r > Cutoff
    ensures pred * truth > Cutoff ==> r < 1.0
  {
    var z := pred * truth;
    if z > Cutoff then
      m.exp(-z)
    else if z < -Cutoff then
      -z
    else
      m.log1p(m.exp(-z))
  }

  /** At score 0 the loss is log1p(exp(0)) = log1p(1), i.e. ln 2. */
  lemma LogEvaluateAtZero(m: Libm, truth: real)
    ensures LogEvaluate(m, 0.0, truth) == m.log1p(1.0)
  {
  }

  /**
   * -y / (1 + exp(z)), replaced by -y exp(-z) above the cut-off and by -y
   * below it. The gradient is -y scaled by a weight in (0, 1]: it points
   * against the label and is never larger than the label in magnitude.
   */
  function LogGradient(m: Libm, pred: real, truth: real): (r: real)
    ensures truth > 0.0 ==> -truth <= r < 0.0
    ensures truth < 0.0 ==> 0.0 < r <= -truth
    ensures truth == 0.0 ==> r == 0.0
    ensures pred * truth < -Cutoff ==> r == -truth
  {
    var z := pred * truth;
    if z > Cutoff then
      var e := m.exp(-z);
      assert 0.0 < e < 1.0 by { assert m.exp(-z) < m.exp(0.0); }
      assert truth < 0.0 ==> -truth * e <= -truth * 1.0;
      assert truth > 0.0 ==> -truth * e >= -truth * 1.0;
      -truth * e
    else if z < -Cutoff then
      -truth
    else
      -truth / (1.0 + m.exp(z))
  }

  /** In the middle range the gradient is -y sigmoid(-z), the sigmoid of CrossEntropyPredict. */
  lemma LogGradientIsScaledSigmoid(m: Libm, pred: real, truth: real)
    requires -Cutoff <= pred * truth <= Cutoff
    ensures LogGradient(m, pred, truth) == -truth * CrossEntropyPredict(m, -(pred * truth))
  {
  }

  /** The raw margin score is reported unchanged; its sign is the predicted label. */
  function LogPredict(x: real): (r: real)
    ensures r == x
  {
    x
  }

  /** A non-negative prediction makes label +1 the cheaper one, a non-positive one label -1. */
  lemma LogPredictPicksLabel(m: Libm, x: real)
    ensures LogPredict(x) >= 0.0 ==> LogEvaluate(m, x, 1.0) <= LogEvaluate(m, x, -1.0)
    ensures LogPredict(x) <= 0.0 ==> LogEvaluate(m, x, -1.0) <= LogEvaluate(m, x, 1.0)
  {
  }

  // ---------------------------------------------------------------- Hinge

  /** l(a, y) = max(0, 1 - a y) */
  function HingeEvaluate(pred: real, truth: real): (r: real)
    ensures r == Max(0.0, 1.0 - pred * truth)
    ensures r >= 0.0
    ensures r == 0.0 <==> pred * truth >= 1.0
  {
    var z := pred * truth;
    if z > 1.0 then 0.0 else 1.0 - z
  }

  /**
   * 0 beyond the margin, -y up to and including it: at the kink z = 1 the
   * gradient is the one of the sub-margin side.
   */
  function HingeGradient(pred: real, truth: real): (r: real)
    ensures HingeEvaluate(pred, truth) > 0.0 ==> r == -truth
    ensures pred * truth == 1.0 ==> r == -truth
    ensures pred * truth > 1.0 ==> r == 0.0
  {
    var z := pred * truth;
    if z > 1.0 then 0.0 else -truth
  }

  /**
   * The gradient is a subgradient of the (convex) loss everywhere, the kink
   * included: the loss never falls below its linearisation at `pred`.
   */
  lemma HingeGradientIsSubgradient(pred: real, truth: real, h: real)
    ensures HingeEvaluate(pred + h, truth) >= HingeEvaluate(pred, truth) + HingeGradient(pred, truth) * h
  {
  }

  /** On each side of the kink the loss is linear with slope equal to the gradient. */
  lemma HingeGradientIsDerivative(pred: real, truth: real, h: real)
    requires (pred * truth > 1.0) == ((pred + h) * truth > 1.0)
    ensures HingeEvaluate(pred + h, truth) == HingeEvaluate(pred, truth) + HingeGradient(pred, truth) * h
  {
  }

  lemma HingeExamples()
    ensures HingeEvaluate(2.0, 1.0) == 0.0
    ensures HingeEvaluate(0.0, 1.0) == 1.0
    ensures HingeEvaluate(1.0, 1.0) == 0.0 && HingeGradient(1.0, 1.0) == -1.0
  {
  }

  /**
   * The raw score is reported unchanged; its sign is the predicted label:
   * it is non-negative exactly when label +1 costs no more than label -1.
   */
  function HingePredict(x: real): (r: real)
    ensures r == x
    ensures r >= 0.0 <==> HingeEvaluate(x, 1.0) <= HingeEvaluate(x, -1.0)
  {
    x
  }

  // ---------------------------------------------------------------- SquaredHinge

  /** l(a, y) = 1/2 max(0, 1 - a y)^2 */
  function SquaredHingeEvaluate(pred: real, truth: real): (r: real)
    ensures r == 0.5 * HingeEvaluate(pred, truth) * HingeEvaluate(pred, truth)
    ensures r >= 0.0
    ensures r == 0.0 <==> pred * truth >= 1.0
  {
    var z := pred * truth;
    if z > 1.0 then
      0.0
    else
      var d := 1.0 - z;
      ProductIsZero(d, d);
      0.5 * d * d
  }

  /** -y (1 - z) below the margin, 0 beyond it; continuous, and 0 at the margin. */
  function SquaredHingeGradient(pred: real, truth: real): (r: real)
    ensures r == -truth * HingeEvaluate(pred, truth)
  {
    var z := pred * truth;
    if z > 1.0 then 0.0 else -truth * (1.0 - z)
  }

  /**
   * The gradient is the derivative of the loss: the first-order remainder
   * E(p + h) - E(p) - G(p) h lies between 0 (convexity) and y^2 h^2 / 2
   * (Lipschitz gradient), so it vanishes to second order in h.
   */
  lemma SquaredHingeGradientIsDerivative(pred: real, truth: real, h: real)
    ensures 0.0 <= SquaredHingeEvaluate(pred + h, truth) - SquaredHingeEvaluate(pred, truth)
                   - SquaredHingeGradient(pred, truth) * h
                <= 0.5 * (truth * h) * (truth * h)
  {
  }

  lemma SquaredHingeExamples()
    ensures SquaredHingeEvaluate(2.0, 1.0) == 0.0
    ensures SquaredHingeEvaluate(0.0, 1.0) == 0.5
    ensures SquaredHingeEvaluate(1.0, 1.0) == 0.0 && SquaredHingeGradient(1.0, 1.0) == 0.0
  {
  }

  /**
   * The raw score is reported unchanged; its sign is the predicted label:
   * it is non-negative exactly when label +1 costs no more than label -1.
   */
  function SquaredHingePredict(x: real): (r: real)
    ensures r == x
    ensures r >= 0.0 <==> SquaredHingeEvaluate(x, 1.0) <= SquaredHingeEvaluate(x, -1.0)
  {
    x
  }

  // ---------------------------------------------------------------- Dispatch

  /** The variants, in the order of the `LossType` enumeration. */
  datatype LossKind = Square | Logistic | Log | Hinge | SquaredHinge | CrossEntropy

  /** The `LossType` enumerator of each variant: SQUARE = 0, ..., CROSS_ENTROPY = 5. */
  function TagOf(k: LossKind): (tag: int)
    ensures 0 <= tag <= 5
  {
    match k
    case Square => 0
    case Logistic => 1
    case Log => 2
    case Hinge => 3
    case SquaredHinge => 4
    case CrossEntropy => 5
  }

  /**
   * `Loss::create`: the variant whose enumerator is `tag`, and Square for any
   * value outside the enumeration.
   */
  function Create(tag: int): (k: LossKind)
    ensures 0 <= tag <= 5 ==> TagOf(k) == tag
    ensures !(0 <= tag <= 5) ==> k == Square
  {
    if tag == 0 then Square
    else if tag == 1 then Logistic
    else if tag == 5 then CrossEntropy
    else if tag == 2 then Log
    else if tag == 3 then Hinge
    else if tag == 4 then SquaredHinge
    else Square
  }

  /** Creating from a variant's own enumerator gives back that variant. */
  lemma CreateTagOf(k: LossKind)
    ensures Create(TagOf(k)) == k
  {
  }

  /** `loss_type()`: the name each variant reports. */
  function Name(k: LossKind): (r: string)
    ensures |r| > 0
    ensures (r == "Square") == (TagOf(k) == 0)
  {
    match k
    case Square => "Square"
    case Logistic => "Logistic"
    case Log => "Log"
    case Hinge => "Hinge"
    case SquaredHinge => "SquaredHinge"
    case CrossEntropy => "CrossEntropy"
  }

  /** No two variants report the same name. */
  lemma NameInjective(k: LossKind, k': LossKind)
    requires Name(k) == Name(k')
    ensures k == k'
  {
  }

  /** The name of what `create` builds for each enumerator, and for an unknown one. */
  lemma CreateNames(tag: int)
    ensures tag == 0 ==> Name(Create(tag)) == "Square"
    ensures tag == 1 ==> Name(Create(tag)) == "Logistic"
    ensures tag == 2 ==> Name(Create(tag)) == "Log"
    ensures tag == 3 ==> Name(Create(tag)) == "Hinge"
    ensures tag == 4 ==> Name(Create(tag)) == "SquaredHinge"
    ensures tag == 5 ==> Name(Create(tag)) == "CrossEntropy"
    ensures !(0 <= tag <= 5) ==> Name(Create(tag)) == "Square"
  {
  }

  /** The `CHECK`s guarding `evaluate`: only Logistic has any. */
  predicate EvaluateAllowed(k: LossKind, pred: real, truth: real) {
    k == Logistic ==> 0.0 <= pred <= 1.0 && IsBinaryLabel(truth)
  }

  /** The `CHECK`s guarding `gradient`: only Logistic has any. */
  predicate GradientAllowed(k: LossKind, pred: real, truth: real) {
    k == Logistic ==> 0.0 < pred < 1.0 && IsBinaryLabel(truth)
  }

  /** `evaluate` called through the `Loss` interface. */
  function Evaluate(k: LossKind, m: Libm, pred: real, truth: real): (r: real)
    requires EvaluateAllowed(k, pred, truth)
    ensures k != CrossEntropy ==> r >= 0.0
    ensures k == Log ==> r > 0.0
    ensures k == Logistic ==> r <= -m.log(Epsilon)
    ensures k == CrossEntropy ==> r > (1.0 - truth) * pred
  {
    match k
    case Square => SquareEvaluate(pred, truth)
    case Logistic => LogisticEvaluate(m, pred, truth)
    case Log => LogEvaluate(m, pred, truth)
    case Hinge => HingeEvaluate(pred, truth)
    case SquaredHinge => SquaredHingeEvaluate(pred, truth)
    case CrossEntropy => CrossEntropyEvaluate(m, pred, truth)
  }

  /** `gradient` called through the `Loss` interface. */
  function Gradient(k: LossKind, m: Libm, pred: real, truth: real): (r: real)
    requires GradientAllowed(k, pred, truth)
    ensures (k == Square || k == Logistic) ==> (r > 0.0 <==> pred > truth) && (r < 0.0 <==> pred < truth)
    ensures (k == Log || k == Hinge || k == SquaredHinge) ==>
      (truth > 0.0 ==> r <= 0.0) && (truth < 0.0 ==> r >= 0.0)
    ensures k == CrossEntropy ==> -truth < r <= 1.0 - truth
  {
    match k
    case Square => SquareGradient(pred, truth)
    case Logistic => LogisticGradient(pred, truth)
    case Log => LogGradient(m, pred, truth)
    case Hinge => HingeGradient(pred, truth)
    case SquaredHinge => SquaredHingeGradient(pred, truth)
    case CrossEntropy => CrossEntropyGradient(m, pred, truth)
  }

  /** `predict` called through the `Loss` interface: the identity except for CrossEntropy. */
  function Predict(k: LossKind, m: Libm, x: real): (r: real)
    ensures k != CrossEntropy ==> r == x
    ensures k == CrossEntropy ==> 0.0 < r < 1.0
  {
    match k
    case Square => SquarePredict(x)
    case Logistic => LogisticPredict(x)
    case Log => LogPredict(x)
    case Hinge => HingePredict(x)
    case SquaredHinge => SquaredHingePredict(x)
    case CrossEntropy => CrossEntropyPredict(m, x)
  }

  /**
   * Every variant's loss is non-negative wherever Logistic's `CHECK`s hold,
   * for CrossEntropy with label 0 or 1, except CrossEntropy with label 0 and
   * a score in [-Cutoff, 0), whose sign depends on log1p(exp(-a)) >= -a (not
   * among the assumed facts).
   */
  lemma EvaluateNonNegative(k: LossKind, m: Libm, pred: real, truth: real)
    requires EvaluateAllowed(k, pred, truth)
    requires k == CrossEntropy ==> truth == 1.0 || (truth == 0.0 && !(-Cutoff <= pred < 0.0))
    ensures Evaluate(k, m, pred, truth) >= 0.0
  {
  }
}
