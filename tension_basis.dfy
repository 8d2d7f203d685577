/** The closed-form algebra of one tension-exponential segment. In the local
    ordinate u = sigma * (x - left) the segment is

      f(u) = D + C * u + B * exp(-u) + A * exp(u),

    and with g = sigma * span and F = exp(g) every calibration divides by the
    common denominator F * F - 2 * F * g - 1. */
module TensionBasis {
  import opened Exponential

  datatype Coefficients = Coefficients(a: real, b: real, c: real, d: real)

  /** The segment shape at the local ordinate u, given the basis values
      ep = exp(u) and em = exp(-u). */
  function Shape(co: Coefficients, ep: real, em: real, u: real): real {
    co.d + co.c * u + co.b * em + co.a * ep
  }

  /** The segment's value at the local ordinate u. */
  function Value(co: Coefficients, exp: real -> real, u: real): real {
    Shape(co, exp(u), exp(-u), u)
  }

  /** The derivative of the given order with respect to the local ordinate u;
      orders up to zero give the value itself. */
  function LocalDerivative(co: Coefficients, exp: real -> real, u: real, order: int): real
    requires order <= 3
  {
    if order == 3 then -co.b * exp(-u) + co.a * exp(u)
    else if order == 2 then co.b * exp(-u) + co.a * exp(u)
    else if order == 1 then co.c - co.b * exp(-u) + co.a * exp(u)
    else Value(co, exp, u)
  }

  /** sigma^n for the conversion of local derivatives to the original ordinate. */
  function Power(sigma: real, n: nat): real {
    if n == 0 then 1.0 else sigma * Power(sigma, n - 1)
  }

  /** A derivative of the given order in the local ordinate, taken to the
      original ordinate: sigma^order times it. */
  function Rescale(sigma: real, order: nat, derivative: real): real {
    Power(sigma, order) * derivative
  }

  /** F * F - 2 * F * g - 1 for given F and g. */
  function Quadratic(f: real, g: real): real {
    f * f - 2.0 * f * g - 1.0
  }

  /** The common denominator: Quadratic at g = sigma * span and F = exp(g). */
  function Denominator(sigma: real, span: real, exp: real -> real): real {
    Quadratic(exp(LocalSpan(sigma, span)), LocalSpan(sigma, span))
  }

  /** alpha = F / (F * F - 2 * F * g - 1), the scale of every Jacobian entry. */
  function Alpha(sigma: real, span: real, exp: real -> real): real
    requires Denominator(sigma, span, exp) != 0.0
  {
    exp(sigma * span) / Denominator(sigma, span, exp)
  }

  /** Terminal calibration from the left value, the left slope (the first entry
      of the derivative array) and the right value. */
  function TerminalCoefficients(leftValue: real, leftSlope: real, rightValue: real,
                                sigma: real, span: real, exp: real -> real): Coefficients
    requires sigma != 0.0 && Denominator(sigma, span, exp) != 0.0
  {
    var localizedLeftSlope := leftSlope / sigma;
    var g := sigma * span;
    var f := exp(g);
    var a := f * (rightValue - leftValue - g * localizedLeftSlope) / Denominator(sigma, span, exp);
    Coefficients(a, -a, leftSlope - 2.0 * a, leftValue)
  }

  /** Chained calibration against a predecessor that reported its value, its
      local slope and its local convexity at this segment's left ordinate. */
  function ChainedCoefficients(leftValue: real, slope: real, convexity: real, rightValue: real,
                               sigma: real, span: real, exp: real -> real): Coefficients
    requires sigma != 0.0 && Denominator(sigma, span, exp) != 0.0
  {
    var localizedLeftSlope := slope / sigma;
    var localizedLeftConvexity := convexity / sigma / sigma;
    var g := sigma * span;
    var f := exp(g);
    var a := (f * (rightValue - leftValue - g * localizedLeftSlope)
              - localizedLeftConvexity * (1.0 - f + f * g)) / Denominator(sigma, span, exp);
    Coefficients(a, localizedLeftConvexity - a, localizedLeftSlope + localizedLeftConvexity - 2.0 * a,
                 leftValue - localizedLeftConvexity)
  }

  /** Chained calibration without a predecessor: A is re-solved from the left
      value A + B + D and local slope A - B + C that the current coefficients
      imply; B, C and D are kept. */
  function RepinnedCoefficients(co: Coefficients, rightValue: real,
                                sigma: real, span: real, exp: real -> real): Coefficients
    requires Denominator(sigma, span, exp) != 0.0
  {
    var leftValue := co.a + co.b + co.d;
    var localizedLeftSlope := co.a - co.b + co.c;
    var g := sigma * span;
    var f := exp(g);
    co.(a := f * (rightValue - leftValue - g * localizedLeftSlope) / Denominator(sigma, span, exp))
  }

  /** The analytic 4 x 3 partials of A, B, C, D (rows) with respect to the left
      value, the localized left slope and the right value (columns). */
  function JacobianRows(sigma: real, span: real, exp: real -> real): (rows: seq<seq<real>>)
    requires Denominator(sigma, span, exp) != 0.0
    ensures IsPartialsBlock(rows)
  {
    RowsOf(Alpha(sigma, span, exp), sigma * span)
  }

  /** The partials block for a given alpha and g = sigma * span. */
  function RowsOf(alpha: real, g: real): (rows: seq<seq<real>>)
    ensures IsPartialsBlock(rows)
  {
    [[-alpha, -alpha * g, alpha],
     [alpha, alpha * g, -alpha],
     [alpha, 1.0 + 2.0 * alpha * g, -2.0 * alpha],
     [1.0, 0.0, 0.0]]
  }

  /** A 4 x 3 block of coefficient partials. */
  predicate IsPartialsBlock(rows: seq<seq<real>>) {
    |rows| == 4 && forall i :: 0 <= i < 4 ==> |rows[i]| == 3
  }

  /** One row of partials applied to the bumps of the three inputs. */
  function Dot(row: seq<real>, dL: real, ds: real, dR: real): real
    requires |row| == 3
  {
    row[0] * dL + row[1] * ds + row[2] * dR
  }

  /** Chain rule at the local ordinate u: the partial of the point value with
      respect to input k, through df/dA = exp(u) = ep, df/dB = exp(-u) = em,
      df/dC = u and df/dD = 1. */
  function ChainRule(rows: seq<seq<real>>, ep: real, em: real, u: real, k: nat): real
    requires IsPartialsBlock(rows) && k < 3
  {
    ep * rows[0][k] + em * rows[1][k] + u * rows[2][k] + 1.0 * rows[3][k]
  }

  /** The three partials of the point value at u. */
  function PointValuePartials(rows: seq<seq<real>>, exp: real -> real, u: real): (p: seq<real>)
    requires IsPartialsBlock(rows)
    ensures |p| == 3 && forall k :: 0 <= k < 3 ==> p[k] == ChainRule(rows, exp(u), exp(-u), u, k)
  {
    [ChainRule(rows, exp(u), exp(-u), u, 0), ChainRule(rows, exp(u), exp(-u), u, 1),
     ChainRule(rows, exp(u), exp(-u), u, 2)]
  }

  /** g = sigma * span, the right ordinate in the local ordinate. */
  function LocalSpan(sigma: real, span: real): real {
    sigma * span
  }

  /** The value at the right ordinate that terminal calibration attains:
      the right value plus span * leftSlope * (sigma - 1). */
  function TerminalRightValue(rightValue: real, leftSlope: real, sigma: real, span: real): real {
    rightValue + span * leftSlope * (sigma - 1.0)
  }

  /** A slope in the original ordinate, as a slope in the local ordinate. */
  function LocalizedSlope(slope: real, sigma: real): real
    requires sigma != 0.0
  {
    slope / sigma
  }

  /** A convexity in the original ordinate, as one in the local ordinate. */
  function LocalizedConvexity(convexity: real, sigma: real): real
    requires sigma != 0.0
  {
    convexity / sigma / sigma
  }

  /** The local ordinate u = sigma * (x - left) of the point x. */
  function LocalOrdinate(sigma: real, left: real, x: real): real {
    sigma * (x - left)
  }

  /** The coefficients of exp(sigma * x), exp(-sigma * x), x and 1 in the
      original ordinate: A / E, B * E, sigma * C and D - sigma * C * left, with
      E = exp(sigma * left). */
  function GlobalCoefficients(co: Coefficients, sigma: real, left: real, exp: real -> real): Coefficients
    requires IsExp(exp)
  {
    ExpPositive(exp, sigma * left);
    var e := exp(sigma * left);
    Coefficients(co.a / e, co.b * e, co.c * sigma, co.d - sigma * co.c * left)
  }

  /** A curve given by coefficients in the original ordinate, evaluated at x. */
  function GlobalValue(gc: Coefficients, sigma: real, exp: real -> real, x: real): real {
    Shape(gc, exp(sigma * x), exp(-(sigma * x)), x)
  }

  // ---------------------------------------------------------------------------
  // Algebraic facts behind the calibrations, first on plain reals

  /** If x * (F*F - 2*F*g - 1) == F * n then x * (F - 1/F - 2*g) == n. */
  lemma Unscale(x: real, n: real, f: real, fi: real, g: real)
    requires f > 0.0 && f * fi == 1.0
    requires x * (f * f - 2.0 * f * g - 1.0) == f * n
    ensures x * (f - fi - 2.0 * g) == n
  {
    calc {
      f * (x * (f - fi - 2.0 * g));
      x * (f * f - f * fi - 2.0 * f * g);
      x * (f * f - 2.0 * f * g - 1.0);
      f * n;
    }
  }

  lemma DivMul(p: real, q: real)
    requires q != 0.0
    ensures (p / q) * q == p
  {
  }

  lemma ZeroProduct(x: real, y: real, z: real)
    requires x != 0.0
    ensures x * y * z == 0.0 <==> y == 0.0 || z == 0.0
  {
    if y != 0.0 && z != 0.0 {
      assert x * y != 0.0;
    }
  }

  /** The right-ordinate residual of the terminal formulas. */
  lemma TerminalResidual(leftValue: real, leftSlope: real, rightValue: real,
                         sigma: real, span: real, f: real, fi: real, a: real, den: real)
    requires sigma != 0.0 && f > 0.0 && f * fi == 1.0
    requires den == f * f - 2.0 * f * (sigma * span) - 1.0
    requires a * den == f * (rightValue - leftValue - (sigma * span) * (leftSlope / sigma))
    ensures Shape(Coefficients(a, -a, leftSlope - 2.0 * a, leftValue), f, fi, sigma * span)
            == rightValue + span * leftSlope * (sigma - 1.0)
  {
    var g := sigma * span;
    var s := leftSlope / sigma;
    Unscale(a, rightValue - leftValue - g * s, f, fi, g);
    TerminalShape(a, leftSlope, leftValue, f, fi, g);
    SlopeResidual(leftSlope, sigma, span, s);
  }

  /** The terminal shape at g, grouped by A. */
  lemma TerminalShape(a: real, leftSlope: real, leftValue: real, f: real, fi: real, g: real)
    ensures Shape(Coefficients(a, -a, leftSlope - 2.0 * a, leftValue), f, fi, g)
            == leftValue + leftSlope * g + a * (f - fi - 2.0 * g)
  {
  }

  /** With s = leftSlope / sigma and g = sigma * span,
      leftSlope * g - g * s = span * leftSlope * (sigma - 1). */
  lemma SlopeResidual(leftSlope: real, sigma: real, span: real, s: real)
    requires sigma != 0.0 && s == leftSlope / sigma
    ensures leftSlope * (sigma * span) - (sigma * span) * s == span * leftSlope * (sigma - 1.0)
  {
    assert sigma * s == leftSlope;
    Scale(span, leftSlope, sigma * s);
  }

  lemma Scale(x: real, p: real, q: real)
    requires p == q
    ensures x * p == x * q
  {
  }

  /** The right-ordinate residual of the chained formulas. */
  lemma ChainedResidual(leftValue: real, s: real, k: real, rightValue: real,
                        g: real, f: real, fi: real, a: real, den: real)
    requires f > 0.0 && f * fi == 1.0
    requires den == f * f - 2.0 * f * g - 1.0
    requires a * den == f * (rightValue - leftValue - g * s) - k * (1.0 - f + f * g)
    ensures Shape(Coefficients(a, k - a, s + k - 2.0 * a, leftValue - k), f, fi, g) == rightValue
  {
    var n := rightValue - leftValue - g * s - k * (fi - 1.0 + g);
    assert f * n == f * (rightValue - leftValue - g * s) - k * (1.0 - f + f * g) by {
      calc {
        f * n;
        f * (rightValue - leftValue - g * s) - k * (f * fi - f + f * g);
      }
    }
    Unscale(a, n, f, fi, g);
    calc {
      Shape(Coefficients(a, k - a, s + k - 2.0 * a, leftValue - k), f, fi, g);
      (leftValue - k) + (s + k - 2.0 * a) * g + (k - a) * fi + a * f;
      leftValue - k + s * g + k * g + k * fi + a * (f - fi - 2.0 * g);
      leftValue - k + s * g + k * g + k * fi + n;
      rightValue;
    }
  }

  /** The rows applied to the bumps, with dr = dR - dL - g * ds. */
  lemma RowsDot(alpha: real, g: real, dL: real, ds: real, dR: real)
    ensures var rows := RowsOf(alpha, g);
      var dr := dR - dL - g * ds;
      && Dot(rows[0], dL, ds, dR) == alpha * dr
      && Dot(rows[1], dL, ds, dR) == -(alpha * dr)
      && Dot(rows[2], dL, ds, dR) == ds - 2.0 * (alpha * dr) - alpha * dL
      && Dot(rows[3], dL, ds, dR) == dL
  {
  }

  /** Moving the numerator of F * n / den by dn moves the quotient by F / den * dn. */
  lemma QuotientShift(f: real, den: real, n: real, n': real, dn: real)
    requires den != 0.0 && n' - n == dn
    ensures f * n' / den - f * n / den == f / den * dn
  {
  }

  lemma SlopeShift(s: real, sigma: real, ds: real, g: real)
    requires sigma != 0.0
    ensures g * ((s + sigma * ds) / sigma) == g * (s / sigma) + g * ds
  {
    assert (s + sigma * ds) / sigma == s / sigma + ds;
  }

  /** The point value is linear in the coefficients, and regrouping by input
      gives the chain rule through the rows. */
  lemma ShapeDifference(co: Coefficients, bumped: Coefficients, rows: seq<seq<real>>,
                        ep: real, em: real, u: real, dL: real, ds: real, dR: real, extra: real)
    requires IsPartialsBlock(rows)
    requires bumped.a - co.a == Dot(rows[0], dL, ds, dR)
    requires bumped.b - co.b == Dot(rows[1], dL, ds, dR)
    requires bumped.c - co.c == Dot(rows[2], dL, ds, dR) + extra
    requires bumped.d - co.d == Dot(rows[3], dL, ds, dR)
    ensures Shape(bumped, ep, em, u) - Shape(co, ep, em, u)
            == ChainRule(rows, ep, em, u, 0) * dL + ChainRule(rows, ep, em, u, 1) * ds
               + ChainRule(rows, ep, em, u, 2) * dR + u * extra
  {
    ShapeByRows(co, bumped, rows, ep, em, u, dL, ds, dR, extra);
    Regroup(rows, ep, em, u, dL, ds, dR, extra, Shape(bumped, ep, em, u) - Shape(co, ep, em, u));
  }

  lemma ShapeByRows(co: Coefficients, bumped: Coefficients, rows: seq<seq<real>>,
                    ep: real, em: real, u: real, dL: real, ds: real, dR: real, extra: real)
    requires IsPartialsBlock(rows)
    requires bumped.a - co.a == Dot(rows[0], dL, ds, dR)
    requires bumped.b - co.b == Dot(rows[1], dL, ds, dR)
    requires bumped.c - co.c == Dot(rows[2], dL, ds, dR) + extra
    requires bumped.d - co.d == Dot(rows[3], dL, ds, dR)
    ensures Shape(bumped, ep, em, u) - Shape(co, ep, em, u)
            == Dot(rows[3], dL, ds, dR) + (Dot(rows[2], dL, ds, dR) * u + u * extra)
               + (Dot(rows[1], dL, ds, dR) * em + em * 0.0) + (Dot(rows[0], dL, ds, dR) * ep + ep * 0.0)
  {
    ShapeDelta(co, bumped, ep, em, u, Dot(rows[0], dL, ds, dR), Dot(rows[1], dL, ds, dR),
               Dot(rows[2], dL, ds, dR), Dot(rows[3], dL, ds, dR), extra);
  }

  /** The shape is linear in the coefficients. */
  lemma ShapeDelta(co: Coefficients, bumped: Coefficients, ep: real, em: real, u: real,
                   da: real, db: real, dc: real, dd: real, extra: real)
    requires bumped.a - co.a == da && bumped.b - co.b == db
    requires bumped.c - co.c == dc + extra && bumped.d - co.d == dd
    ensures Shape(bumped, ep, em, u) - Shape(co, ep, em, u)
            == dd + (dc * u + u * extra) + (db * em + em * 0.0) + (da * ep + ep * 0.0)
  {
    MulDiff(ep, bumped.a, co.a, da, 0.0);
    MulDiff(em, bumped.b, co.b, db, 0.0);
    MulDiff(u, bumped.c, co.c, dc, extra);
  }

  /** The twelve products regrouped by input. */
  lemma Regroup(rows: seq<seq<real>>, ep: real, em: real, u: real, dL: real, ds: real, dR: real,
                extra: real, total: real)
    requires IsPartialsBlock(rows)
    requires total == Dot(rows[3], dL, ds, dR) + (Dot(rows[2], dL, ds, dR) * u + u * extra)
                      + (Dot(rows[1], dL, ds, dR) * em + em * 0.0) + (Dot(rows[0], dL, ds, dR) * ep + ep * 0.0)
    ensures total
            == ChainRule(rows, ep, em, u, 0) * dL + ChainRule(rows, ep, em, u, 1) * ds
               + ChainRule(rows, ep, em, u, 2) * dR + u * extra
  {
    ExpandRows(rows, ep, em, u, dL, ds, dR, extra);
    CollectColumns(rows, ep, em, u, dL, ds, dR, extra);
  }

  lemma ExpandRows(rows: seq<seq<real>>, ep: real, em: real, u: real, dL: real, ds: real, dR: real,
                   extra: real)
    requires IsPartialsBlock(rows)
    ensures Dot(rows[3], dL, ds, dR) + (Dot(rows[2], dL, ds, dR) * u + u * extra)
              + (Dot(rows[1], dL, ds, dR) * em + em * 0.0) + (Dot(rows[0], dL, ds, dR) * ep + ep * 0.0)
            == Expanded(rows, ep, em, u, dL, ds, dR) + u * extra
  {
    DotScaled(rows[0], dL, ds, dR, ep);
    DotScaled(rows[1], dL, ds, dR, em);
    DotScaled(rows[2], dL, ds, dR, u);
  }

  lemma CollectColumns(rows: seq<seq<real>>, ep: real, em: real, u: real, dL: real, ds: real, dR: real,
                       extra: real)
    requires IsPartialsBlock(rows)
    ensures Expanded(rows, ep, em, u, dL, ds, dR) + u * extra
            == ChainRule(rows, ep, em, u, 0) * dL + ChainRule(rows, ep, em, u, 1) * ds
               + ChainRule(rows, ep, em, u, 2) * dR + u * extra
  {
    ChainScaled(rows, ep, em, u, 0, dL);
    ChainScaled(rows, ep, em, u, 1, ds);
    ChainScaled(rows, ep, em, u, 2, dR);
  }

  /** All twelve products of a basis value, a partial and a bump. */
  function Expanded(rows: seq<seq<real>>, ep: real, em: real, u: real, dL: real, ds: real, dR: real): real
    requires IsPartialsBlock(rows)
  {
    rows[3][0] * dL + rows[3][1] * ds + rows[3][2] * dR
    + (u * rows[2][0] * dL + u * rows[2][1] * ds + u * rows[2][2] * dR)
    + (em * rows[1][0] * dL + em * rows[1][1] * ds + em * rows[1][2] * dR)
    + (ep * rows[0][0] * dL + ep * rows[0][1] * ds + ep * rows[0][2] * dR)
  }

  lemma MulDiff(x: real, p: real, q: real, r: real, e: real)
    requires p - q == r + e
    ensures p * x - q * x == r * x + x * e
  {
    assert p * x - q * x == (p - q) * x;
  }

  lemma DotScaled(row: seq<real>, dL: real, ds: real, dR: real, x: real)
    requires |row| == 3
    ensures Dot(row, dL, ds, dR) * x == x * row[0] * dL + x * row[1] * ds + x * row[2] * dR
  {
  }

  lemma ChainScaled(rows: seq<seq<real>>, ep: real, em: real, u: real, k: nat, v: real)
    requires IsPartialsBlock(rows) && k < 3
    ensures ChainRule(rows, ep, em, u, k) * v
            == ep * rows[0][k] * v + em * rows[1][k] * v + u * rows[2][k] * v + rows[3][k] * v
  {
  }

  /** The original-ordinate form of the shape. */
  lemma GlobalShape(co: Coefficients, sigma: real, left: real, x: real,
                    e: real, ei: real, ep: real, em: real, ex: real, emx: real)
    requires e > 0.0 && e * ei == 1.0 && ex == ep * e && emx == em * ei
    ensures (co.d - sigma * co.c * left) + (co.c * sigma) * x + (co.b * e) * emx + (co.a / e) * ex
            == Shape(co, ep, em, sigma * (x - left))
  {
    assert (co.a / e) * ex == co.a * ep;
    assert (co.b * e) * emx == co.b * em;
  }

  lemma Distribute(sigma: real, x: real, left: real)
    ensures sigma * x == sigma * (x - left) + sigma * left
    ensures -(sigma * x) == -(sigma * (x - left)) + -(sigma * left)
  {
  }

  /** x * x, kept behind a function so that facts about it stay linear. */
  function Sq(x: real): real {
    x * x
  }

  lemma ProductPositive(x: real, y: real, p: real)
    requires x > 0.0 && y > 0.0 && p == x * y
    ensures p > 0.0
  {
  }

  lemma SquarePositive(x: real)
    requires x > 0.0
    ensures Sq(x) > 0.0
  {
    ProductPositive(x, x, Sq(x));
  }

  lemma SquareMonotone(w: real, m: real)
    requires w >= m >= 0.0
    ensures Sq(w) >= Sq(m)
  {
    ProductNonnegative(w - m, w + m, Sq(w) - Sq(m));
  }

  lemma ProductNonnegative(x: real, y: real, p: real)
    requires x >= 0.0 && y >= 0.0 && p == x * y
    ensures p >= 0.0
  {
  }

  lemma ShiftSquare(f: real, g: real)
    ensures f * f - 2.0 * f * g - 1.0 == Sq(f - g) - Sq(g) - 1.0
  {
  }

  lemma HalfSquare(g: real)
    ensures Sq(1.0 + Sq(g) / 2.0) == 1.0 + Sq(g) + Sq(Sq(g) / 2.0)
  {
  }

  /** For g > 0 and F at least 1 + g + g^2/2, F*F - 2*F*g - 1 is positive:
      it equals (F - g)^2 - g^2 - 1, which is at least (g^2/2)^2. */
  lemma QuadraticPositive(g: real, f: real)
    requires g > 0.0 && f >= 1.0 + g + g * g / 2.0
    ensures f * f - 2.0 * f * g - 1.0 > 0.0
  {
    SquarePositive(g);
    SquarePositive(Sq(g) / 2.0);
    SquareMonotone(f - g, 1.0 + Sq(g) / 2.0);
    HalfSquare(g);
    ShiftSquare(f, g);
  }

  /** With F * Fi = 1 and Fi*Fi - 2*Fi*h - 1 > 0, F*F + 2*F*h - 1 is negative. */
  lemma ReciprocalNegative(f: real, fi: real, h: real)
    requires fi > 0.0 && f * fi == 1.0 && fi * fi - 2.0 * fi * h - 1.0 > 0.0
    ensures f * f + 2.0 * f * h - 1.0 < 0.0
  {
    SquarePositive(fi);
    ReciprocalScaled(f, fi, h);
    NegativeFactor(f * f + 2.0 * f * h - 1.0, Sq(fi));
  }

  lemma ReciprocalScaled(f: real, fi: real, h: real)
    requires f * fi == 1.0
    ensures (f * f + 2.0 * f * h - 1.0) * Sq(fi) == -(fi * fi - 2.0 * fi * h - 1.0)
  {
    assert (f * fi) * (f * fi) == 1.0;
  }

  lemma NegativeFactor(x: real, y: real)
    requires y > 0.0 && x * y < 0.0
    ensures x < 0.0
  {
  }

  /** The common denominator vanishes only when g = sigma * span is zero. */
  lemma DenominatorNonzero(sigma: real, span: real, exp: real -> real)
    requires IsExp(exp) && sigma * span != 0.0
    ensures Denominator(sigma, span, exp) != 0.0
  {
    var g := sigma * span;
    if g > 0.0 {
      ExpTaylor(exp, g);
      QuadraticPositive(g, exp(g));
    } else {
      ExpTaylor(exp, -g);
      ExpNeg(exp, g);
      QuadraticPositive(-g, exp(-g));
      ReciprocalNegative(exp(g), exp(-g), -g);
    }
  }

  // ---------------------------------------------------------------------------
  // The calibrations

  /** The value and slope at u = 0 read off the coefficients. */
  lemma AtLeft(co: Coefficients, exp: real -> real)
    requires IsExp(exp)
    ensures Value(co, exp, 0.0) == co.a + co.b + co.d
    ensures LocalDerivative(co, exp, 0.0, 1) == co.a - co.b + co.c
    ensures LocalDerivative(co, exp, 0.0, 2) == co.a + co.b
  {
    assert -0.0 == 0.0;
  }

  /** Terminal calibration reproduces the left value and (in the local ordinate)
      the raw left slope; at the right ordinate it misses the right value by
      span * leftSlope * (sigma - 1), so it meets it exactly when the slope is
      zero or sigma is one. */
  lemma TerminalFit(leftValue: real, leftSlope: real, rightValue: real,
                    sigma: real, span: real, exp: real -> real)
    requires IsExp(exp) && sigma != 0.0 && span > 0.0 && Denominator(sigma, span, exp) != 0.0
    ensures var co := TerminalCoefficients(leftValue, leftSlope, rightValue, sigma, span, exp);
      && Value(co, exp, 0.0) == leftValue
      && LocalDerivative(co, exp, 0.0, 1) == leftSlope
      && Value(co, exp, LocalSpan(sigma, span)) == TerminalRightValue(rightValue, leftSlope, sigma, span)
      && (Value(co, exp, LocalSpan(sigma, span)) == rightValue <==> leftSlope == 0.0 || sigma == 1.0)
  {
    AtLeft(TerminalCoefficients(leftValue, leftSlope, rightValue, sigma, span, exp), exp);
    TerminalAtRight(leftValue, leftSlope, rightValue, sigma, span, exp);
    ZeroProduct(span, leftSlope, sigma - 1.0);
  }

  lemma TerminalAtRight(leftValue: real, leftSlope: real, rightValue: real,
                        sigma: real, span: real, exp: real -> real)
    requires IsExp(exp) && sigma != 0.0 && Denominator(sigma, span, exp) != 0.0
    ensures var co := TerminalCoefficients(leftValue, leftSlope, rightValue, sigma, span, exp);
      Value(co, exp, sigma * span) == rightValue + span * leftSlope * (sigma - 1.0)
  {
    var co := TerminalCoefficients(leftValue, leftSlope, rightValue, sigma, span, exp);
    var g := sigma * span;
    ExpNeg(exp, g);
    var top := exp(g) * (rightValue - leftValue - g * (leftSlope / sigma));
    DivMul(top, Denominator(sigma, span, exp));
    TerminalResidual(leftValue, leftSlope, rightValue, sigma, span, exp(g), exp(-g), co.a,
                     Denominator(sigma, span, exp));
  }

  /** Chained calibration takes over the predecessor's value, and its local
      slope and convexity rescaled to this segment's sigma, at u = 0, and hits
      the right value at u = sigma * span. */
  lemma ChainedFit(leftValue: real, slope: real, convexity: real, rightValue: real,
                   sigma: real, span: real, exp: real -> real)
    requires IsExp(exp) && sigma != 0.0 && Denominator(sigma, span, exp) != 0.0
    ensures var co := ChainedCoefficients(leftValue, slope, convexity, rightValue, sigma, span, exp);
      && Value(co, exp, 0.0) == leftValue
      && LocalDerivative(co, exp, 0.0, 1) == LocalizedSlope(slope, sigma)
      && LocalDerivative(co, exp, 0.0, 2) == LocalizedConvexity(convexity, sigma)
      && Value(co, exp, LocalSpan(sigma, span)) == rightValue
  {
    AtLeft(ChainedCoefficients(leftValue, slope, convexity, rightValue, sigma, span, exp), exp);
    ChainedAtRight(leftValue, slope, convexity, rightValue, sigma, span, exp);
  }

  /** In the original ordinate (sigma^n times the local derivative) the chained
      coefficients have, at u = 0, exactly the reported slope and convexity. */
  lemma ChainedGlobalAtLeft(leftValue: real, slope: real, convexity: real, rightValue: real,
                            sigma: real, span: real, exp: real -> real)
    requires IsExp(exp) && sigma != 0.0 && Denominator(sigma, span, exp) != 0.0
    ensures var co := ChainedCoefficients(leftValue, slope, convexity, rightValue, sigma, span, exp);
      && Rescale(sigma, 1, LocalDerivative(co, exp, 0.0, 1)) == slope
      && Rescale(sigma, 2, LocalDerivative(co, exp, 0.0, 2)) == convexity
  {
    var co := ChainedCoefficients(leftValue, slope, convexity, rightValue, sigma, span, exp);
    assert LocalDerivative(co, exp, 0.0, 1) == LocalizedSlope(slope, sigma)
        && LocalDerivative(co, exp, 0.0, 2) == LocalizedConvexity(convexity, sigma) by {
      ChainedFit(leftValue, slope, convexity, rightValue, sigma, span, exp);
    }
    Unlocalize(slope, convexity, sigma, LocalDerivative(co, exp, 0.0, 1), LocalDerivative(co, exp, 0.0, 2));
  }

  /** Rescaling a localized slope or convexity gives it back. */
  lemma Unlocalize(slope: real, convexity: real, sigma: real, l1: real, l2: real)
    requires sigma != 0.0 && l1 == LocalizedSlope(slope, sigma) && l2 == LocalizedConvexity(convexity, sigma)
    ensures Rescale(sigma, 1, l1) == slope
    ensures Rescale(sigma, 2, l2) == convexity
  {
    assert Power(sigma, 1) == sigma * 1.0;
    assert Power(sigma, 2) == sigma * Power(sigma, 1);
    assert Power(sigma, 2) * l2 == sigma * (sigma * (convexity / sigma / sigma));
  }

  /** A slope s, rescaled by a tension t, is still s exactly when t is one or s is zero. */
  lemma RescaleFixed(t: real, s: real)
    ensures Rescale(t, 1, s) == s <==> t == 1.0 || s == 0.0
  {
    assert Power(t, 1) == t * 1.0;
    ZeroProduct(1.0, s, t - 1.0);
  }

  lemma ChainedAtRight(leftValue: real, slope: real, convexity: real, rightValue: real,
                       sigma: real, span: real, exp: real -> real)
    requires IsExp(exp) && sigma != 0.0 && Denominator(sigma, span, exp) != 0.0
    ensures var co := ChainedCoefficients(leftValue, slope, convexity, rightValue, sigma, span, exp);
      Value(co, exp, sigma * span) == rightValue
  {
    var co := ChainedCoefficients(leftValue, slope, convexity, rightValue, sigma, span, exp);
    var g := sigma * span;
    ExpNeg(exp, g);
    var s := slope / sigma;
    var k := convexity / sigma / sigma;
    var f := exp(g);
    var top := f * (rightValue - leftValue - g * s) - k * (1.0 - f + f * g);
    DivMul(top, Denominator(sigma, span, exp));
    ChainedResidual(leftValue, s, k, rightValue, g, f, exp(-g), co.a, Denominator(sigma, span, exp));
  }

  /** Without a predecessor only A moves, and it moves to the terminal A for the
      left value A + B + D and the left slope sigma * (A - B + C) that the old
      coefficients imply. */
  lemma RepinnedIsTerminalA(co: Coefficients, rightValue: real,
                            sigma: real, span: real, exp: real -> real)
    requires sigma != 0.0 && Denominator(sigma, span, exp) != 0.0
    ensures var r := RepinnedCoefficients(co, rightValue, sigma, span, exp);
      && r.b == co.b && r.c == co.c && r.d == co.d
      && r.a == TerminalCoefficients(co.a + co.b + co.d, sigma * (co.a - co.b + co.c), rightValue,
                                     sigma, span, exp).a
  {
    assert sigma * (co.a - co.b + co.c) / sigma == co.a - co.b + co.c;
  }

  /** Without a predecessor the re-solve does not pin the right value: from
      all-zero coefficients the value at u = g is F * F * rightValue divided by
      the denominator, not rightValue. */
  lemma RepinnedFromZero(rightValue: real, sigma: real, span: real, exp: real -> real)
    requires Denominator(sigma, span, exp) != 0.0
    ensures var f := exp(LocalSpan(sigma, span));
      Value(RepinnedCoefficients(Coefficients(0.0, 0.0, 0.0, 0.0), rightValue, sigma, span, exp),
            exp, LocalSpan(sigma, span))
        == f * f * rightValue / Denominator(sigma, span, exp)
  {
  }

  /** Moving every input of the terminal calibration moves the coefficients
      linearly: bumping the left value by dL, the localized left slope by ds
      (the raw slope by sigma * ds) and the right value by dR changes A, B and D
      by exactly the Jacobian rows applied to the bumps, and C by its row plus
      alpha * dL + (sigma - 1) * ds. */
  lemma TerminalSensitivity(leftValue: real, leftSlope: real, rightValue: real,
                            dL: real, ds: real, dR: real,
                            sigma: real, span: real, exp: real -> real)
    requires sigma != 0.0 && Denominator(sigma, span, exp) != 0.0
    ensures var co := TerminalCoefficients(leftValue, leftSlope, rightValue, sigma, span, exp);
      var bumped := TerminalCoefficients(leftValue + dL, leftSlope + sigma * ds, rightValue + dR,
                                         sigma, span, exp);
      var j := JacobianRows(sigma, span, exp);
      var alpha := Alpha(sigma, span, exp);
      && bumped.a - co.a == Dot(j[0], dL, ds, dR)
      && bumped.b - co.b == Dot(j[1], dL, ds, dR)
      && bumped.c - co.c == Dot(j[2], dL, ds, dR) + (alpha * dL + (sigma - 1.0) * ds)
      && bumped.d - co.d == Dot(j[3], dL, ds, dR)
  {
    TerminalADelta(leftValue, leftSlope, rightValue, dL, ds, dR, sigma, span, exp);
    JacobianDot(sigma, span, exp, dL, ds, dR);
  }

  /** Against the raw left slope leftDeriv[0] rather than the localized one,
      the slope column of the Jacobian is off by the factor 1 / sigma: bumping
      the raw slope by dS moves A and B by their slope entries times dS / sigma,
      C by its slope entry plus sigma - 1, times dS / sigma, and leaves D. */
  lemma TerminalRawSlopeSensitivity(leftValue: real, leftSlope: real, rightValue: real, dS: real,
                                    sigma: real, span: real, exp: real -> real)
    requires sigma != 0.0 && Denominator(sigma, span, exp) != 0.0
    ensures var co := TerminalCoefficients(leftValue, leftSlope, rightValue, sigma, span, exp);
      var bumped := TerminalCoefficients(leftValue, leftSlope + dS, rightValue, sigma, span, exp);
      var j := JacobianRows(sigma, span, exp);
      && bumped.a - co.a == j[0][1] * (dS / sigma)
      && bumped.b - co.b == j[1][1] * (dS / sigma)
      && bumped.c - co.c == (j[2][1] + (sigma - 1.0)) * (dS / sigma)
      && bumped.d == co.d
  {
    RawA(leftValue, leftSlope, rightValue, dS, sigma, span, exp);
    RawB(leftValue, leftSlope, rightValue, dS, sigma, span, exp);
    RawC(leftValue, leftSlope, rightValue, dS, sigma, span, exp);
  }

  /** The A part of TerminalRawSlopeSensitivity. */
  lemma RawA(leftValue: real, leftSlope: real, rightValue: real, dS: real,
             sigma: real, span: real, exp: real -> real)
    requires sigma != 0.0 && Denominator(sigma, span, exp) != 0.0
    ensures TerminalCoefficients(leftValue, leftSlope + dS, rightValue, sigma, span, exp).a
            - TerminalCoefficients(leftValue, leftSlope, rightValue, sigma, span, exp).a
            == JacobianRows(sigma, span, exp)[0][1] * (dS / sigma)
  {
    var da := TerminalCoefficients(leftValue, leftSlope + dS, rightValue, sigma, span, exp).a
              - TerminalCoefficients(leftValue, leftSlope, rightValue, sigma, span, exp).a;
    TerminalRawADelta(leftValue, leftSlope, rightValue, dS, sigma, span, exp);
    RawSlopeRows(Alpha(sigma, span, exp), sigma * span, sigma, dS / sigma, dS, da);
  }

  /** The B part of TerminalRawSlopeSensitivity. */
  lemma RawB(leftValue: real, leftSlope: real, rightValue: real, dS: real,
             sigma: real, span: real, exp: real -> real)
    requires sigma != 0.0 && Denominator(sigma, span, exp) != 0.0
    ensures TerminalCoefficients(leftValue, leftSlope + dS, rightValue, sigma, span, exp).b
            - TerminalCoefficients(leftValue, leftSlope, rightValue, sigma, span, exp).b
            == JacobianRows(sigma, span, exp)[1][1] * (dS / sigma)
  {
    var da := TerminalCoefficients(leftValue, leftSlope + dS, rightValue, sigma, span, exp).a
              - TerminalCoefficients(leftValue, leftSlope, rightValue, sigma, span, exp).a;
    TerminalRawADelta(leftValue, leftSlope, rightValue, dS, sigma, span, exp);
    RawSlopeRows(Alpha(sigma, span, exp), sigma * span, sigma, dS / sigma, dS, da);
  }

  /** The C part of TerminalRawSlopeSensitivity. */
  lemma RawC(leftValue: real, leftSlope: real, rightValue: real, dS: real,
             sigma: real, span: real, exp: real -> real)
    requires sigma != 0.0 && Denominator(sigma, span, exp) != 0.0
    ensures TerminalCoefficients(leftValue, leftSlope + dS, rightValue, sigma, span, exp).c
            - TerminalCoefficients(leftValue, leftSlope, rightValue, sigma, span, exp).c
            == (JacobianRows(sigma, span, exp)[2][1] + (sigma - 1.0)) * (dS / sigma)
  {
    var da := TerminalCoefficients(leftValue, leftSlope + dS, rightValue, sigma, span, exp).a
              - TerminalCoefficients(leftValue, leftSlope, rightValue, sigma, span, exp).a;
    TerminalRawADelta(leftValue, leftSlope, rightValue, dS, sigma, span, exp);
    RawSlopeRows(Alpha(sigma, span, exp), sigma * span, sigma, dS / sigma, dS, da);
  }

  /** A of the terminal fit under a raw slope bump dS. */
  lemma TerminalRawADelta(leftValue: real, leftSlope: real, rightValue: real, dS: real,
                          sigma: real, span: real, exp: real -> real)
    requires sigma != 0.0 && Denominator(sigma, span, exp) != 0.0
    ensures TerminalCoefficients(leftValue, leftSlope + dS, rightValue, sigma, span, exp).a
            - TerminalCoefficients(leftValue, leftSlope, rightValue, sigma, span, exp).a
            == Alpha(sigma, span, exp) * -(sigma * span * (dS / sigma))
  {
    var g := sigma * span;
    var n := rightValue - leftValue - g * (leftSlope / sigma);
    var n' := rightValue - leftValue - g * ((leftSlope + dS) / sigma);
    DivSum(leftSlope, dS, sigma);
    QuotientShift(exp(g), Denominator(sigma, span, exp), n, n', -(g * (dS / sigma)));
  }

  /** Division by s distributes over a sum. */
  lemma DivSum(p: real, q: real, s: real)
    requires s != 0.0
    ensures (p + q) / s == p / s + q / s
  {
    assert (p / s) * s == p && (q / s) * s == q;
    assert (p / s + q / s) * s == p + q;
  }

  /** The raw slope bump in terms of the slope entries of RowsOf(alpha, g). */
  lemma RawSlopeRows(alpha: real, g: real, sigma: real, ds: real, dS: real, da: real)
    requires sigma != 0.0 && ds == dS / sigma && da == alpha * -(g * ds)
    ensures var rows := RowsOf(alpha, g);
      && da == rows[0][1] * ds
      && -da == rows[1][1] * ds
      && dS - 2.0 * da == (rows[2][1] + (sigma - 1.0)) * ds
  {
    assert sigma * ds == dS;
  }

  lemma JacobianDot(sigma: real, span: real, exp: real -> real, dL: real, ds: real, dR: real)
    requires Denominator(sigma, span, exp) != 0.0
    ensures var j := JacobianRows(sigma, span, exp);
      var alpha := Alpha(sigma, span, exp);
      var dr := dR - dL - sigma * span * ds;
      && Dot(j[0], dL, ds, dR) == alpha * dr
      && Dot(j[1], dL, ds, dR) == -(alpha * dr)
      && Dot(j[2], dL, ds, dR) == ds - 2.0 * (alpha * dr) - alpha * dL
      && Dot(j[3], dL, ds, dR) == dL
  {
    RowsDot(Alpha(sigma, span, exp), sigma * span, dL, ds, dR);
  }

  lemma TerminalADelta(leftValue: real, leftSlope: real, rightValue: real,
                       dL: real, ds: real, dR: real,
                       sigma: real, span: real, exp: real -> real)
    requires sigma != 0.0 && Denominator(sigma, span, exp) != 0.0
    ensures TerminalCoefficients(leftValue + dL, leftSlope + sigma * ds, rightValue + dR, sigma, span, exp).a
            - TerminalCoefficients(leftValue, leftSlope, rightValue, sigma, span, exp).a
            == Alpha(sigma, span, exp) * (dR - dL - sigma * span * ds)
  {
    var g := sigma * span;
    var n := rightValue - leftValue - g * (leftSlope / sigma);
    var n' := rightValue + dR - (leftValue + dL) - g * ((leftSlope + sigma * ds) / sigma);
    SlopeShift(leftSlope, sigma, ds, g);
    QuotientShift(exp(g), Denominator(sigma, span, exp), n, n', dR - dL - g * ds);
  }

  /** The point value of the terminal fit responds to the bumps as the chain
      rule through the Jacobian rows says, up to the row C discrepancy
      u * (alpha * dL + (sigma - 1) * ds). In particular, the right-value column
      is exact. */
  lemma TerminalValueSensitivity(leftValue: real, leftSlope: real, rightValue: real,
                                 dL: real, ds: real, dR: real, u: real,
                                 sigma: real, span: real, exp: real -> real)
    requires sigma != 0.0 && Denominator(sigma, span, exp) != 0.0
    ensures var co := TerminalCoefficients(leftValue, leftSlope, rightValue, sigma, span, exp);
      var bumped := TerminalCoefficients(leftValue + dL, leftSlope + sigma * ds, rightValue + dR,
                                         sigma, span, exp);
      var p := PointValuePartials(JacobianRows(sigma, span, exp), exp, u);
      var alpha := Alpha(sigma, span, exp);
      Value(bumped, exp, u) - Value(co, exp, u)
        == p[0] * dL + p[1] * ds + p[2] * dR + u * (alpha * dL + (sigma - 1.0) * ds)
  {
    var co := TerminalCoefficients(leftValue, leftSlope, rightValue, sigma, span, exp);
    var bumped := TerminalCoefficients(leftValue + dL, leftSlope + sigma * ds, rightValue + dR,
                                       sigma, span, exp);
    TerminalSensitivity(leftValue, leftSlope, rightValue, dL, ds, dR, sigma, span, exp);
    ShapeDifference(co, bumped, JacobianRows(sigma, span, exp), exp(u), exp(-u), u, dL, ds, dR,
                    Alpha(sigma, span, exp) * dL + (sigma - 1.0) * ds);
  }

  /** The coefficients in the original ordinate x describe the same curve:
      the global coefficients, evaluated at x, give the value at the local
      ordinate u = sigma * (x - left). */
  lemma GlobalForm(co: Coefficients, sigma: real, left: real, x: real, exp: real -> real)
    requires IsExp(exp)
    ensures GlobalValue(GlobalCoefficients(co, sigma, left, exp), sigma, exp, x)
      == Value(co, exp, LocalOrdinate(sigma, left, x))
  {
    var u := sigma * (x - left);
    Distribute(sigma, x, left);
    ExpSplit(exp, u, sigma * left, sigma * x);
    ExpSplit(exp, -u, -(sigma * left), -(sigma * x));
    ExpNeg(exp, sigma * left);
    GlobalShape(co, sigma, left, x, exp(sigma * left), exp(-(sigma * left)), exp(u), exp(-u),
                exp(sigma * x), exp(-(sigma * x)));
  }

  /** The derivatives solve the tension equation: the value minus the second
      derivative is D + C * u, and the first minus the third derivative is C. */
  lemma TensionEquation(co: Coefficients, exp: real -> real, u: real)
    ensures Value(co, exp, u) - LocalDerivative(co, exp, u, 2) == co.d + co.c * u
    ensures LocalDerivative(co, exp, u, 1) - LocalDerivative(co, exp, u, 3) == co.c
  {
  }

}
