# Scalar loss functions of libcf, in Dafny

This project models `src/model/loss.hpp`, the family of scalar loss functions of
libcf; the learners that call them are not part of this model. There are six variants: Square,
Logistic, CrossEntropy, Log, Hinge and SquaredHinge. Each one has three operations:

- `evaluate(pred, truth)` gives the loss;
- `gradient(pred, truth)` gives the loss's derivative with respect to the score;
- `predict(x)` gives the reported prediction for a raw score.

Each variant also reports a name (`loss_type`). The factory `Loss::create` maps a
`LossType` tag to a variant.

Everything in the source is a pure function of its arguments, so the model is too.
It has two modules:

- `Elementary` (Elementary.dfy) stands for the C math library calls `std::exp`,
  `std::log` and `std::log1p`. They are not defined. `Library` bundles three
  `real -> real` function values. The subset type `Libm` admits only bundles that
  obey seven facts:
  - exp is positive;
  - exp is strictly increasing;
  - exp(0) = 1;
  - log is monotone on the positive reals;
  - log(1) = 0;
  - log1p is positive on the positive reals;
  - log1p is monotone above -1.

  Every variant that calls the math library takes an `m: Libm`. So every property
  below holds for any exp, log and log1p that obey these facts. `Consistent` is a
  crude piecewise-rational bundle. It only shows that the seven facts can all hold
  together; no loss is computed with it.
- `Loss` (Loss.dfy) holds the six variants as functions named `<Variant>Evaluate`,
  `<Variant>Gradient` and `<Variant>Predict`. It also holds:
  - the datatype `LossKind`, with its constructors in the order of the `LossType`
    enumeration;
  - `TagOf` (the enumerator value of each kind);
  - `Create` (the factory) and `Name` (`loss_type`);
  - `Evaluate`, `Gradient` and `Predict`, which dispatch on `LossKind` the way the
    virtual calls through `Loss` do.

  Scores and labels are `real`. The constants 0.0001 (`Epsilon`) and 18 (`Cutoff`)
  are the source's. They appear only as branch conditions and as the clamp. The
  source's `CHECK` guards become `requires` clauses: on Logistic's evaluate and
  gradient, and, through `EvaluateAllowed` and `GradientAllowed`, on the dispatching
  `Evaluate` and `Gradient`.

Square's `gradient(3, 1)` is `+4`: line 46 computes `-2 * (truth - pred)`, the
derivative of `(truth - pred)^2`. `SquareExamples` proves it.

## Model

| member | source | states |
|---|---|---|
| `Loss.SquareEvaluate` | src/model/loss.hpp:40-43 | the squared error is never negative, and is zero exactly when the score equals the label |
| `Loss.SquareGradient` | src/model/loss.hpp:45-47 | the gradient is positive exactly when the score overshoots the label, negative exactly when it undershoots |
| `Loss.SquareGradientIsDerivative` | src/model/loss.hpp:40-47 | moving the score by h changes the loss by exactly gradient·h + h², so the gradient is the derivative of the loss |
| `Loss.SquarePredict` | src/model/loss.hpp:49-51 | the reported prediction is the label the score fits exactly: loss and gradient both vanish there |
| `Loss.SquareExamples` | src/model/loss.hpp:40-47 | evaluate(3, 1) = 4 and gradient(3, 1) = +4 |
| `Loss.LogisticEvaluate` | src/model/loss.hpp:65-74 | under the CHECKs the result equals the documented -y·log(p) - (1-y)·log(1-p), with each probability clamped at 0.0001; it lies between 0 and -log(0.0001); the trailing `return 0.` is unreachable |
| `Loss.LogisticLogArgument` | src/model/loss.hpp:68-72 | log is applied to the clamped probability of the true label, which lies in [0.0001, 1] |
| `Loss.LogisticEvaluateMonotone` | src/model/loss.hpp:65-74 | the more probability the score gives the true label, the smaller the loss |
| `Loss.LogisticClampExample` | src/model/loss.hpp:69-71 | a certain wrong prediction costs -log(0.0001), not infinity; a certain right one costs 0 |
| `Loss.LogisticGradient` | src/model/loss.hpp:76-80 | under the strict CHECK the denominator is positive; the result is -1/p for label 1 and 1/(1-p) for label 0, so its sign is that of pred - truth |
| `Loss.LogisticPredict` | src/model/loss.hpp:82-84 | the score is reported unchanged, as the probability of label 1 that evaluate charges for; it is at least 1/2 exactly when label 1 gets at least as much probability as label 0 |
| `Loss.LogisticPredictPicksLabel` | src/model/loss.hpp:65-84 | a prediction of at least 1/2 makes label 1 no more costly than label 0, and one of at most 1/2 the reverse |
| `Loss.CrossEntropyEvaluate` | src/model/loss.hpp:101-108 | every branch exceeds the linear term (1-y)·a; below -18 the loss is exactly -y·a |
| `Loss.CrossEntropyIsShiftedLogLoss` | src/model/loss.hpp:101-108 | the loss is (1-y)·a plus the Log loss of the score with label 1, that is, the same three-branch tail |
| `Loss.CrossEntropyEvaluatePositive` | src/model/loss.hpp:101-108 | the loss is positive for label 1; for label 0 it is positive for every score a ≥ 0 and exactly 0 below -18 |
| `Loss.CrossEntropyTailExample` | src/model/loss.hpp:101-116 | at a = 30 the loss is exp(-30) for label 1 and 30 + exp(-30) for label 0; gradient(30, 1) = 0 |
| `Loss.CrossEntropyPredict` | src/model/loss.hpp:118-120 | the sigmoid lies strictly between 0 and 1, and is 1/2 at 0 |
| `Loss.CrossEntropyPredictMonotone` | src/model/loss.hpp:118-120 | the sigmoid is strictly increasing |
| `Loss.CrossEntropyGradient` | src/model/loss.hpp:110-116 | the gradient lies in (-y, 1-y], and is exactly 1-y above 18 |
| `Loss.CrossEntropyGradientIsPredictMinusTruth` | src/model/loss.hpp:110-120 | gradient + y is predict(a) in the middle range and exp(a) below -18, and does not depend on the label |
| `Loss.LogEvaluate` | src/model/loss.hpp:136-143 | the loss is positive in every branch; it exceeds 18 when z < -18 and is below 1 when z > 18 |
| `Loss.LogEvaluateAtZero` | src/model/loss.hpp:136-143 | at score 0 the loss is log1p(1), i.e. ln 2 |
| `Loss.LogGradient` | src/model/loss.hpp:145-154 | the gradient is -y scaled by a weight in (0, 1]: it has the sign opposite to the label, is at most the label in magnitude, and is exactly -y when z < -18 |
| `Loss.LogGradientIsScaledSigmoid` | src/model/loss.hpp:145-151 | in the middle range the gradient is -y·sigmoid(-z), with the sigmoid of CrossEntropy's predict |
| `Loss.LogPredict` | src/model/loss.hpp:156-158 | the raw margin score is reported unchanged |
| `Loss.LogPredictPicksLabel` | src/model/loss.hpp:136-158 | a non-negative prediction makes label +1 no more costly than label -1, and a non-positive one the reverse |
| `Loss.HingeEvaluate` | src/model/loss.hpp:175-180 | the loss is max(0, 1 - a·y), never negative, and zero exactly when the margin a·y is at least 1 |
| `Loss.HingeGradient` | src/model/loss.hpp:182-187 | the gradient is -y wherever the loss is positive and at the kink z = 1, and 0 beyond the margin |
| `Loss.HingeGradientIsSubgradient` | src/model/loss.hpp:175-187 | the gradient is a subgradient everywhere, the kink included: the loss never falls below its linearisation |
| `Loss.HingeGradientIsDerivative` | src/model/loss.hpp:175-187 | on each side of the kink the loss is linear with slope equal to the gradient |
| `Loss.HingeExamples` | src/model/loss.hpp:175-187 | evaluate(2, 1) = 0, evaluate(0, 1) = 1, and at the margin the loss is 0 while the gradient is -1 |
| `Loss.HingePredict` | src/model/loss.hpp:189-191 | the raw score is reported unchanged; it is non-negative exactly when label +1 costs no more than label -1 |
| `Loss.SquaredHingeEvaluate` | src/model/loss.hpp:206-212 | the loss is half the square of the Hinge loss, never negative, and zero exactly when z ≥ 1 |
| `Loss.SquaredHingeGradient` | src/model/loss.hpp:214-219 | the gradient is -y times the Hinge loss, so it is 0 from the margin on and -y(1 - z) below it |
| `Loss.SquaredHingeGradientIsDerivative` | src/model/loss.hpp:206-219 | the first-order remainder E(p+h) - E(p) - G(p)·h lies between 0 and y²h²/2, so the gradient is the derivative of the loss |
| `Loss.SquaredHingeExamples` | src/model/loss.hpp:206-219 | evaluate(2, 1) = 0, evaluate(0, 1) = 1/2, and evaluate and gradient are both 0 at the margin |
| `Loss.SquaredHingePredict` | src/model/loss.hpp:221-223 | the raw score is reported unchanged; it is non-negative exactly when label +1 costs no more than label -1 |
| `Loss.TagOf` | src/model/loss.hpp:10-17 | the `LossType` enumerators are 0 to 5 |
| `Loss.Create` | src/model/loss.hpp:226-243 | for a tag in 0..5, `create` returns the variant with that enumerator; for any other tag it returns Square |
| `Loss.CreateTagOf` | src/model/loss.hpp:226-243 | creating from a variant's own enumerator gives back that variant |
| `Loss.Name` | src/model/loss.hpp:36-38 | every variant's `loss_type` is non-empty, and it is "Square" exactly for the variant with enumerator 0; the other bodies are at lines 61-63, 96-98, 131-133, 171-173 and 202-204 |
| `Loss.NameInjective` | src/model/loss.hpp:25 | no two variants report the same `loss_type` |
| `Loss.CreateNames` | src/model/loss.hpp:226-243 | the tags SQUARE through CROSS_ENTROPY give the variants named "Square", "Logistic", "Log", "Hinge", "SquaredHinge" and "CrossEntropy", and an unknown tag gives "Square" |
| `Loss.Evaluate` | src/model/loss.hpp:26 | `evaluate` through the interface, under Logistic's CHECKs: non-negative for every variant but CrossEntropy, positive for Log, at most -log(0.0001) for Logistic, and above the linear term (1-y)·a for CrossEntropy |
| `Loss.Gradient` | src/model/loss.hpp:27 | `gradient` through the interface, under Logistic's strict CHECK: for Square and Logistic its sign is that of pred - truth; for Log, Hinge and SquaredHinge it never points the same way as the label; for CrossEntropy it lies in (-y, 1-y] |
| `Loss.Predict` | src/model/loss.hpp:28 | predict is the identity for every variant except CrossEntropy, whose prediction lies in (0, 1) |
| `Loss.EvaluateNonNegative` | src/model/loss.hpp:26 | the loss of every variant is non-negative wherever Logistic's CHECKs hold, for CrossEntropy with label 0 or 1, with the one CrossEntropy exception listed below |

## Left out

- Floating point: rounding, overflow, underflow, NaN and infinity are not modelled. Doubles are reals. How accurate the ±18 tail formulas are is not stated; the cut-offs are only branch conditions.
- `std::exp`, `std::log` and `std::log1p` are parameters obeying the seven facts above, not definitions. Nothing about the accuracy of the tail formulas follows from those facts.
- Gradients of Logistic, CrossEntropy and Log are not proved to be the derivatives of their losses. That would need calculus facts about exp and log that are not assumed. Their closed forms, signs and bounds are proved instead.
- EvaluateNonNegative: does not cover CrossEntropy with label 0 and a score in [-18, 0). There the loss is a + log1p(exp(-a)) with a negative, and its sign depends on log1p(exp(-a)) ≥ -a, which is not among the assumed facts. For a ≥ 0 both terms are non-negative and the lemma covers it.
- CrossEntropyEvaluatePositive: covers the same cases as EvaluateNonNegative and no more, for the same reason.
- `CHECK` failures abort the program in the source. The model states the checks as preconditions and does not model the abort.
- Log, Hinge, SquaredHinge and CrossEntropy do not check their labels in the source. The model accepts any real label, as the code does. The {-1, +1} and {0, 1} label sets appear only where a lemma needs them.
- `std::shared_ptr`, the virtual dispatch through `Loss` and the `std::string` returned by `loss_type` are plumbing. A datatype and `match` replace them.
- `std::max` on doubles is `Max` on reals; the two differ only for NaN.
