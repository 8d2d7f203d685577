# Tension-exponential spline segment

This project models `BasisExponentialTension`, one segment of a tension spline as the
CreditAnalytics library implements it. The segment is stored as four coefficients A, B, C, D over
its inelastic ordinates [left, right], with a tension sigma. In the local ordinate
u = sigma * (x - left) it is the curve

    f(u) = D + C * u + B * exp(-u) + A * exp(u).

The segment is calibrated in one of two ways:

- terminally, from the left value, the left slope and the right value;
- chained, from what the previous segment reports at `left` plus the right value.

It evaluates its value and its derivatives of order 0 to 3, locally or in the original ordinate.
It reports its coefficients locally or globally. It builds the 4 x 3 Jacobian of A, B, C, D with
respect to the three calibration inputs once and caches it. It composes that Jacobian by the chain
rule into the 1 x 3 Jacobian of a point value.

Every calibration divides by the common denominator F * F - 2 * F * g - 1, with g = sigma * span
and F = exp(g). `TensionBasis.DenominatorNonzero` proves that this denominator is never zero when
sigma * span is nonzero. The class invariant therefore follows from a nonzero tension alone.

Files:

- `tension_basis.dfy` (module `TensionBasis`): the closed-form algebra on values, with the
  calibration and sensitivity lemmas.
- `spline.dfy` (module `Spline`): the class with its mutable coefficients and Jacobian cache.
- `exponential.dfy`: the laws assumed of `exp`.
- `algo_diff.dfy`: the Wengert Jacobian ledger.
- `number_util.dfy`: validity of a double.
- `wrappers.dfy`: `Option`.

Where the code departs from what a tension-spline segment is expected to satisfy, the model
follows the code. The expectations are that f(right) equals the right value, that slope and
convexity are continuous in x at a knot, and that the cache is refreshed after a recalibration.
The departures are:

- The terminal calibration sets C from the raw left slope, while A uses the slope divided by
  sigma. As a result:
  - the left slope is reproduced in the local ordinate, not in the original one;
  - the value at `right` is the right value plus span * leftSlope * (sigma - 1), not the right
    value itself.

  `TensionBasis.TerminalFit` proves both, and proves that the right value is met exactly if and
  only if the slope is zero or sigma is one.
- The chained calibration asks the predecessor for its derivatives with `local = true`. The
  chained segment's slope and convexity in the original ordinate therefore equal the
  predecessor's local slope and convexity, not its global ones. The global slope is continuous
  at the knot only when the predecessor's sigma is one or the slope is zero.
  `Spline.ChainedKnot` proves this.
- Without a predecessor, the chained calibration re-solves A alone. This does not pin the right
  value: from all-zero coefficients the value at `right` is F * F * rightValue divided by the
  denominator (`TensionBasis.RepinnedFromZero`).
- Neither calibration clears the cached Jacobian. After a recalibration the cache keeps the old
  base values, while its partials (which depend only on sigma and the span) stay unchanged.
- The Jacobian's slope column is a partial with respect to the localized slope
  leftDeriv[0] / sigma. Against that column, `TensionBasis.TerminalSensitivity` proves:
  - rows A, B and D are exact;
  - row C is not the derivative of the terminal formula for C, and differs from it by exactly
    alpha * dL + (sigma - 1) * ds.

  Against the raw calibration input leftDeriv[0], `TensionBasis.TerminalRawSlopeSensitivity`
  proves:
  - the slope entries of rows A and B are off by the factor 1 / sigma;
  - row D's slope entry is 0 either way;
  - row C's true raw-slope partial is (j[2][1] + sigma - 1) / sigma, with j[2][1] its
    slope entry.
- When no tension parameter is given, the code leaves sigma undefined (NaN). The model instead
  requires a resolved, nonzero tension at construction.

## Model

All source paths are under `CreditAnalytics/2.1/src/org/drip/math/spline/`.

| member | source | states |
|---|---|---|
| Spline.ResolveTension | CreditAnalytics/2.1/src/org/drip/math/spline/BasisExponentialTension.java:76-81 | A tension is resolved if and only if one of the three parameters is present. "DenormalizedTension" wins and is taken as is. Otherwise "Tension", or else "NormalizedTension", is taken so that sigma * span equals it. |
| Spline.BasisExponentialTension.constructor | CreditAnalytics/2.1/src/org/drip/math/spline/BasisExponentialTension.java:68-81 | Keeps the ordinates and the resolved tension, starts with no cached Jacobian, and establishes the invariant (nonzero denominator). |
| Spline.BasisExponentialTension.CalcValue | CreditAnalytics/2.1/src/org/drip/math/spline/BasisExponentialTension.java:305-316 | Fails exactly outside the segment. |
| Spline.BasisExponentialTension.CalcOrderedDerivative | CreditAnalytics/2.1/src/org/drip/math/spline/BasisExponentialTension.java:263-303 | Fails exactly for order 4 and above or outside the segment. Any order up to 0 gives calcValue. For orders 1 to 3 the non-local result is sigma^order times the local derivative. |
| Spline.BasisExponentialTension.Rescaled | CreditAnalytics/2.1/src/org/drip/math/spline/BasisExponentialTension.java:269-302 | In the segment, orders 1 to 3 give the local derivative when local, and sigma^order times it otherwise. |
| Spline.ChainedKnot | CreditAnalytics/2.1/src/org/drip/math/spline/BasisExponentialTension.java:158-170 | A segment calibrated against another segment's report at its left ordinate has, in the original ordinate, the reporter's local slope and convexity there. Its global slope equals the reporter's global slope if and only if the reporter's sigma is 1 or that slope is 0. |
| Spline.PowerRescale | CreditAnalytics/2.1/src/org/drip/math/spline/BasisExponentialTension.java:280-298 | derivative * sigma * ... * sigma, with one to three factors of sigma, is sigma^n * derivative. |
| Spline.BasisExponentialTension.GetIndexedCoefficient | CreditAnalytics/2.1/src/org/drip/math/spline/BasisExponentialTension.java:233-261 | Fails exactly for index 4 and above. Any index below 1 (negative ones included) gives D locally and D - sigma * C * left globally. |
| Spline.BasisExponentialTension.IndexedCoefficientsGiveValue | CreditAnalytics/2.1/src/org/drip/math/spline/BasisExponentialTension.java:242-260 | Indices 3, 2, 1, 0 read back A, B, C, D locally, and the global coefficients globally. Evaluated at u, the local ones give calcValue(x). The global ones give the same value as D' + C' * x + B' * exp(-sigma x) + A' * exp(sigma x). |
| Spline.BasisExponentialTension.Report | CreditAnalytics/2.1/src/org/drip/math/spline/BasisExponentialTension.java:158-163 | What this segment answers to a successor's queries at x: calcValue and the local first and second derivatives, or a failure exactly outside the segment. |
| Spline.BasisExponentialTension.Calibrate | CreditAnalytics/2.1/src/org/drip/math/spline/BasisExponentialTension.java:94-132 | Succeeds if and only if both values and leftDeriv[0] are valid and the array has at least two entries. On failure A..D are unchanged. On success the coefficients are the terminal solution, with B = -A, C = leftDeriv[0] - 2A and D = leftValue. Then calcValue(left) is the left value, the local slope at left is leftDeriv[0], and calcValue(right) is the terminal right value. The cache is untouched. |
| Spline.BasisExponentialTension.CalibrateChained | CreditAnalytics/2.1/src/org/drip/math/spline/BasisExponentialTension.java:134-182 | Fails exactly for an invalid right value or a failing predecessor, leaving A..D unchanged. Without a predecessor A alone is re-solved and B, C, D are kept. With one, the segment takes the predecessor's value, its local slope / sigma and its local convexity / sigma^2 at left, and hits the right value at right. The cache is untouched. |
| Spline.BasisExponentialTension.CalcJacobian | CreditAnalytics/2.1/src/org/drip/math/spline/BasisExponentialTension.java:184-231 | Returns the cached ledger unchanged when there is one. Otherwise builds exactly the ledger with base values A, B, C, D and the analytic partials, and caches it. |
| Spline.FillJacobian | CreditAnalytics/2.1/src/org/drip/math/spline/BasisExponentialTension.java:193-228 | The ledger filled row by row is 4 x 3, with base values A, B, C, D and rows (-α, -αg, α), (α, αg, -α), (α, 1 + 2αg, -2α), (1, 0, 0). |
| Spline.BasisExponentialTension.CalcValueJacobian | CreditAnalytics/2.1/src/org/drip/math/spline/BasisExponentialTension.java:318-386 | Fails exactly outside the segment. Otherwise a 1 x 3 ledger whose base value is calcValue(x) and whose partials are the chain rule through the coefficient Jacobian at u. It uses the cache. When the cache was absent, it is afterwards exactly the ledger with base values A, B, C, D and the analytic partials; otherwise it is unchanged. |
| Spline.ValueJacobian | CreditAnalytics/2.1/src/org/drip/math/spline/BasisExponentialTension.java:330-378 | Each partial is exp(u) * dA + exp(-u) * dB + u * dC + 1 * dD for its column of the coefficient ledger, and the base value is the given point value. |
| TensionBasis.DenominatorNonzero | CreditAnalytics/2.1/src/org/drip/math/spline/BasisExponentialTension.java:110-111 | F * F - 2 * F * g - 1 is nonzero whenever g = sigma * span is nonzero. |
| TensionBasis.AtLeft | CreditAnalytics/2.1/src/org/drip/math/spline/BasisExponentialTension.java:284-315 | At u = 0 the value is A + B + D, the local slope is A - B + C and the local convexity is A + B. |
| TensionBasis.TerminalFit | CreditAnalytics/2.1/src/org/drip/math/spline/BasisExponentialTension.java:104-114 | The terminal coefficients reproduce the left value and the raw slope (locally) at u = 0. At u = g the value is the right value plus span * leftSlope * (sigma - 1), which is the right value if and only if the slope is 0 or sigma is 1. |
| TensionBasis.ChainedFit | CreditAnalytics/2.1/src/org/drip/math/spline/BasisExponentialTension.java:158-170 | The chained coefficients give, at u = 0, the left value, slope / sigma and convexity / sigma^2, and the right value at u = g. |
| TensionBasis.ChainedGlobalAtLeft | CreditAnalytics/2.1/src/org/drip/math/spline/BasisExponentialTension.java:160-170 | Rescaled by sigma and sigma^2, the chained coefficients' local slope and convexity at u = 0 are the reported slope and convexity. |
| TensionBasis.RepinnedFromZero | CreditAnalytics/2.1/src/org/drip/math/spline/BasisExponentialTension.java:145-149 | From all-zero coefficients, the re-solve without a predecessor attains F * F * rightValue / denominator at u = g, not rightValue. |
| TensionBasis.RepinnedIsTerminalA | CreditAnalytics/2.1/src/org/drip/math/spline/BasisExponentialTension.java:145-149 | Without a predecessor B, C, D are kept, and A is the terminal A for left value A + B + D and left slope sigma * (A - B + C). |
| TensionBasis.TerminalSensitivity | CreditAnalytics/2.1/src/org/drip/math/spline/BasisExponentialTension.java:204-228 | Bumping the inputs of the terminal calibration (left value by dL, localized slope by ds, right value by dR) moves A, B, D by exactly their Jacobian rows applied to the bumps. It moves C by its row plus alpha * dL + (sigma - 1) * ds. |
| TensionBasis.TerminalRawSlopeSensitivity | CreditAnalytics/2.1/src/org/drip/math/spline/BasisExponentialTension.java:204-228 | Bumping the raw slope leftDeriv[0] by dS moves A and B by their slope entries times dS / sigma, and C by its slope entry plus sigma - 1, times dS / sigma. D does not move. |
| TensionBasis.JacobianDot | CreditAnalytics/2.1/src/org/drip/math/spline/BasisExponentialTension.java:204-228 | The rows applied to bumps give α·r, -α·r, ds - 2α·r - α·dL and dL, with r = dR - dL - g·ds. |
| TensionBasis.TerminalADelta | CreditAnalytics/2.1/src/org/drip/math/spline/BasisExponentialTension.java:104-111 | A of the terminal fit is affine in the inputs, with slope alpha * (dR - dL - g * ds). |
| TensionBasis.TerminalValueSensitivity | CreditAnalytics/2.1/src/org/drip/math/spline/BasisExponentialTension.java:330-378 | The point value of the terminal fit moves by the composed point-value partials applied to the bumps, plus u * (alpha * dL + (sigma - 1) * ds). The right-value column is exact. |
| TensionBasis.GlobalForm | CreditAnalytics/2.1/src/org/drip/math/spline/BasisExponentialTension.java:252-260 | The global coefficients (A/E, B·E, σC, D - σC·left with E = exp(σ·left)) evaluated at x give the value at u = σ(x - left). |
| TensionBasis.TensionEquation | CreditAnalytics/2.1/src/org/drip/math/spline/BasisExponentialTension.java:274-302 | The local derivatives solve the tension equation: f - f'' = D + C·u and f' - f''' = C. |

## Left out

- Floating point: values are `real`. IEEE rounding, infinities and NaN are not modelled.
  `NumberUtil.IsValid` is the `Finite` case of a `Double` datatype.
- The NaN initial coefficients: the model starts A..D at 0, so the model has nothing that
  corresponds to uncalibrated evaluation yielding NaN.
- `Math.exp` is a parameter of the segment, with the laws `IsExp` states: exp(0) = 1, positivity,
  the addition law, and exp(x) >= 1 + x + x^2/2 for x >= 0.
- Constructor: null ordinates or null parameters (an exception) cannot arise with Dafny values.
  The constructor requires left < right, a resolved tension and a nonzero tension. The code leaves
  sigma undefined when no tension parameter is present.
- `InelasticOrdinates`, `BasisSplineElasticParams` and `ElasticCoefficients` are not part of this
  model. They become a (left, right) record with a closed `InSegment`, a name-to-value map, and a
  `Predecessor` value: the predecessor's answers, or a failure standing for any exception it
  throws.
- Wengert Jacobian failures: construction and every `setWengert` or accumulate in lines 193-228
  and 363-378 are taken to succeed. Not modelled as a result:
  - the null results these failures produce;
  - the half-filled ledger that line 193 would leave in the cache when a later write fails.
- The Wengert Jacobian class is not part of this model. A ledger is a record of base values and a
  partials matrix.
- Logging (lines 116-129, 151-153, 172-174), `printStackTrace`, `displayString` (388-410) and
  the `main` driver (412-479): these are output and demonstration code.
- `numCoefficients` and `numParameters` (83-91) are the constants `NumWengerts` and
  `NumParameters`.
- Spline.BasisExponentialTension.GetIndexedCoefficient: requires the class invariant, because the
  global form divides by exp(sigma * left), which is positive only by the laws of `exp`.
