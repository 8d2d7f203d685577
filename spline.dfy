/** The tension-exponential basis spline segment: four coefficients A, B, C, D
    over the inelastic ordinates [left, right], a tension sigma, and a lazily
    built 4 x 3 Jacobian of the coefficients with respect to the left value,
    the localized left slope (leftDeriv[0] / sigma) and the right value. */
module Spline {
  import opened Wrappers
  import opened NumberUtil
  import opened Exponential
  import opened AlgoDiff
  import opened TensionBasis

  /** The number of coefficients (and Wengert outputs) of the segment. */
  const NumWengerts: nat := 4

  /** The number of calibration inputs: left value, localized left slope, right value. */
  const NumParameters: nat := 3

  /** The inelastic ordinates of the segment. */
  datatype Ordinates = Ordinates(left: real, right: real) {

    predicate Valid() {
      left < right
    }

    function Span(): real {
      right - left
    }

    /** isInSegment, taken as the closed interval. */
    predicate InSegment(x: real) {
      left <= x <= right
    }
  }

  /** The elastic parameters of the segment, by name. */
  type ElasticParams = map<string, real>

  /** The tension named by the parameters, in priority order: "DenormalizedTension"
      as is, otherwise "Tension" or else "NormalizedTension" divided by the span;
      None when none of the three is given. */
  function ResolveTension(params: ElasticParams, span: real): (sigma: Option<real>)
    requires span != 0.0
    ensures sigma.Some? <==>
      "DenormalizedTension" in params || "Tension" in params || "NormalizedTension" in params
    ensures "DenormalizedTension" in params ==> sigma == Some(params["DenormalizedTension"])
    ensures "DenormalizedTension" !in params && "Tension" in params ==>
      sigma.Some? && sigma.value * span == params["Tension"]
    ensures "DenormalizedTension" !in params && "Tension" !in params && "NormalizedTension" in params ==>
      sigma.Some? && sigma.value * span == params["NormalizedTension"]
  {
    if "DenormalizedTension" in params then Some(params["DenormalizedTension"])
    else if "Tension" in params then Some(params["Tension"] / span)
    else if "NormalizedTension" in params then Some(params["NormalizedTension"] / span)
    else None
  }

  /** What a predecessor segment reports at this segment's left ordinate when
      asked for its value and its local first and second derivatives, or that it
      failed to answer. */
  datatype Predecessor =
    | NoPredecessor
    | Knot(value: real, slope: real, convexity: real)
    | Failing

  class BasisExponentialTension {
    var a: real
    var b: real
    var c: real
    var d: real
    const sigma: real
    const io: Ordinates
    /** Math.exp, given as a function that obeys the laws of IsExp. */
    const exp: real -> real
    /** The cached Jacobian of the coefficients; None until first built. */
    var microJacobian: Option<WengertJacobian>

    /** The tension is resolved and nonzero, the common denominator is therefore
        nonzero, and a cached Jacobian holds the analytic partials. */
    ghost predicate Valid()
      reads this
    {
      && io.Valid() && sigma != 0.0 && IsExp(exp)
      && Denominator(sigma, io.Span(), exp) != 0.0
      && (microJacobian.Some? ==>
            && microJacobian.value.Shaped(NumWengerts, NumParameters)
            && microJacobian.value.partials == JacobianRows(sigma, io.Span(), exp))
    }

    constructor (io: Ordinates, params: ElasticParams, exp: real -> real)
      requires io.Valid() && IsExp(exp)
      requires ResolveTension(params, io.Span()).Some? && ResolveTension(params, io.Span()).value != 0.0
      ensures Valid()
      ensures this.io == io && this.exp == exp && sigma == ResolveTension(params, io.Span()).value
      ensures microJacobian == None
    {
      this.io := io;
      this.exp := exp;
      sigma := ResolveTension(params, io.Span()).value;
      a, b, c, d := 0.0, 0.0, 0.0, 0.0;
      microJacobian := None;
      new;
      ProductNonzero(sigma, io.Span());
      DenominatorNonzero(sigma, io.Span(), exp);
    }

    function Coeffs(): Coefficients
      reads this
    {
      Coefficients(a, b, c, d)
    }

    /** The local ordinate u = sigma * (x - left). */
    function Localize(x: real): real
      reads this
    {
      LocalOrdinate(sigma, io.left, x)
    }

    /** calcValue: None (the exception) outside the segment. */
    function CalcValue(x: real): (v: Option<real>)
      reads this
      ensures v.Some? <==> io.InSegment(x)
    {
      if io.InSegment(x) then Some(Value(Coeffs(), exp, Localize(x))) else None
    }

    /** calcOrderedDerivative: None for order 4 and above or outside the segment;
        orders up to zero give the value; orders 1 to 3 in the local ordinate,
        or rescaled by sigma^order to the original ordinate. */
    function CalcOrderedDerivative(x: real, order: int, local: bool): (r: Option<real>)
      reads this
      ensures r.Some? <==> order < 4 && io.InSegment(x)
      ensures order <= 0 ==> r == CalcValue(x)
      ensures r.Some? && local ==> r.value == LocalDerivative(Coeffs(), exp, Localize(x), order)
      ensures r.Some? && 1 <= order && !local ==>
        r.value == Rescale(sigma, order as nat, LocalDerivative(Coeffs(), exp, Localize(x), order))
    {
      if 4 <= order || !io.InSegment(x) then None
      else
        var derivative := LocalDerivative(Coeffs(), exp, Localize(x), order);
        PowerRescale(derivative, sigma);
        if local || order <= 0 then Some(derivative)
        else if order == 3 then Some(derivative * sigma * sigma * sigma)
        else if order == 2 then Some(derivative * sigma * sigma)
        else Some(derivative * sigma)
    }

    /** getIndexedCoefficient: None for index 4 and above. Index 3, 2, 1 name
        A, B, C and any other index D, either locally or as the coefficients of
        exp(sigma * x), exp(-sigma * x), x and 1 in the original ordinate. */
    function GetIndexedCoefficient(index: int, local: bool): (r: Option<real>)
      requires Valid()
      reads this
      ensures r.Some? <==> index < 4
      ensures r.Some? && local && index < 1 ==> r.value == d
      ensures r.Some? && !local && index < 1 ==> r.value == d - sigma * c * io.left
    {
      if 4 <= index then None
      else
        var co := if local then Coeffs() else GlobalCoefficients(Coeffs(), sigma, io.left, exp);
        Some(if index == 3 then co.a else if index == 2 then co.b else if index == 1 then co.c else co.d)
    }

    /** The four coefficients as getIndexedCoefficient reports them. */
    function IndexedCoefficients(local: bool): Coefficients
      requires Valid()
      reads this
    {
      Coefficients(GetIndexedCoefficient(3, local).value, GetIndexedCoefficient(2, local).value,
                   GetIndexedCoefficient(1, local).value, GetIndexedCoefficient(0, local).value)
    }

    /** The report of this segment when it serves as the predecessor of the
        segment starting at x: its value and local slope and convexity there,
        or a failure when x is outside this segment. */
    function Report(x: real): (p: Predecessor)
      reads this
      ensures p.Failing? <==> !io.InSegment(x)
      ensures !p.NoPredecessor?
      ensures p.Knot? ==>
        (&& Some(p.value) == CalcValue(x)
         && Some(p.slope) == CalcOrderedDerivative(x, 1, true)
         && Some(p.convexity) == CalcOrderedDerivative(x, 2, true))
    {
      if io.InSegment(x) then
        Knot(CalcValue(x).value, CalcOrderedDerivative(x, 1, true).value,
             CalcOrderedDerivative(x, 2, true).value)
      else Failing
    }

    /** In the segment, orders 1 to 3 are the local derivative, rescaled by
        sigma^order in the original ordinate. */
    lemma Rescaled(x: real, order: int)
      requires io.InSegment(x) && 1 <= order <= 3
      ensures CalcOrderedDerivative(x, order, true) == Some(LocalDerivative(Coeffs(), exp, Localize(x), order))
      ensures CalcOrderedDerivative(x, order, false)
        == Some(Rescale(sigma, order as nat, LocalDerivative(Coeffs(), exp, Localize(x), order)))
    {
    }

    /** The coefficients read back through getIndexedCoefficient evaluate to
        calcValue: the local ones at u = sigma * (x - left), the global ones at
        x itself. */
    lemma IndexedCoefficientsGiveValue(x: real)
      requires Valid() && io.InSegment(x)
      ensures IndexedCoefficients(true) == Coeffs()
      ensures IndexedCoefficients(false) == GlobalCoefficients(Coeffs(), sigma, io.left, exp)
      ensures Value(IndexedCoefficients(true), exp, Localize(x)) == CalcValue(x).value
      ensures GlobalValue(IndexedCoefficients(false), sigma, exp, x) == CalcValue(x).value
    {
      GlobalForm(Coeffs(), sigma, io.left, x, exp);
    }

    /** The first calibrate: from the left value, the left derivative array and
        the right value. It refuses invalid inputs and leaves the coefficients
        as they were; it never touches the cached Jacobian. */
    method Calibrate(leftValue: Double, leftDeriv: Option<seq<Double>>, rightValue: Double)
      returns (ok: bool)
      requires Valid()
      modifies this`a, this`b, this`c, this`d
      ensures Valid()
      ensures ok <==> IsValid(leftValue) && leftDeriv.Some? && |leftDeriv.value| >= 2
                      && IsValid(leftDeriv.value[0]) && IsValid(rightValue)
      ensures !ok ==> Coeffs() == old(Coeffs())
      ensures ok ==> Coeffs() == TerminalCoefficients(leftValue.value, leftDeriv.value[0].value,
                                                      rightValue.value, sigma, io.Span(), exp)
      ensures ok ==> b == -a && c == leftDeriv.value[0].value - 2.0 * a && d == leftValue.value
      ensures ok ==>
        (&& CalcValue(io.left) == Some(leftValue.value)
         && CalcOrderedDerivative(io.left, 1, true) == Some(leftDeriv.value[0].value)
         && CalcValue(io.right)
            == Some(TerminalRightValue(rightValue.value, leftDeriv.value[0].value, sigma, io.Span())))
      ensures microJacobian == old(microJacobian)
    {
      if !IsValid(leftValue) || leftDeriv.None? || 2 > |leftDeriv.value|
         || !IsValid(leftDeriv.value[0]) || !IsValid(rightValue) {
        return false;
      }
      var left, leftSlope, right := leftValue.value, leftDeriv.value[0].value, rightValue.value;
      var s, span, ex := sigma, io.Span(), exp;
      var localizedLeftSlope := leftSlope / s;
      var g := s * span;
      var f := ex(g);
      TerminalAssignments(left, leftSlope, right, s, span, ex, localizedLeftSlope, g, f);
      a := f * (right - left - g * localizedLeftSlope) / (f * f - 2.0 * f * g - 1.0);
      b := -1.0 * a;
      c := leftSlope - 2.0 * a;
      d := left;
      assert Coeffs() == TerminalCoefficients(left, leftSlope, right, s, span, ex);
      TerminalFit(left, leftSlope, right, s, span, ex);
      EndOrdinates(s, io.left, io.right, span);
      return true;
    }

    /** The second calibrate: continuity with a predecessor, or without one a
        re-solve of A alone. An invalid right value or a failing predecessor
        leaves the coefficients as they were; the cached Jacobian is never
        touched. */
    method CalibrateChained(prev: Predecessor, rightValue: Double) returns (ok: bool)
      requires Valid()
      modifies this`a, this`b, this`c, this`d
      ensures Valid()
      ensures ok <==> IsValid(rightValue) && !prev.Failing?
      ensures !ok ==> Coeffs() == old(Coeffs())
      ensures ok && prev.NoPredecessor? ==>
        Coeffs() == RepinnedCoefficients(old(Coeffs()), rightValue.value, sigma, io.Span(), exp)
      ensures ok && prev.NoPredecessor? ==> b == old(b) && c == old(c) && d == old(d)
      ensures ok && prev.Knot? ==>
        Coeffs() == ChainedCoefficients(prev.value, prev.slope, prev.convexity, rightValue.value,
                                        sigma, io.Span(), exp)
      ensures ok && prev.Knot? ==>
        (&& CalcValue(io.left) == Some(prev.value)
         && CalcOrderedDerivative(io.left, 1, true) == Some(LocalizedSlope(prev.slope, sigma))
         && CalcOrderedDerivative(io.left, 2, true) == Some(LocalizedConvexity(prev.convexity, sigma))
         && CalcValue(io.right) == Some(rightValue.value))
      ensures microJacobian == old(microJacobian)
    {
      if !IsValid(rightValue) {
        return false;
      }
      var right := rightValue.value;
      var s, span, ex := sigma, io.Span(), exp;
      var g := s * span;
      var f := ex(g);
      match prev
      case Failing =>
        return false;
      case NoPredecessor =>
        var leftValue := a + b + d;
        var localizedLeftSlope := a - b + c;
        RepinnedAssignment(Coeffs(), right, s, span, ex, leftValue, localizedLeftSlope, g, f);
        a := f * (right - leftValue - g * localizedLeftSlope) / (f * f - 2.0 * f * g - 1.0);
        return true;
      case Knot(leftValue, slope, convexity) =>
        var localizedLeftSlope := slope / s;
        var localizedLeftConvexity := convexity / s / s;
        ChainedAssignments(leftValue, slope, convexity, right, s, span, ex,
                           localizedLeftSlope, localizedLeftConvexity, g, f);
        a := (f * (right - leftValue - g * localizedLeftSlope)
              - localizedLeftConvexity * (1.0 - f + f * g)) / (f * f - 2.0 * f * g - 1.0);
        b := localizedLeftConvexity - a;
        c := localizedLeftSlope + localizedLeftConvexity - 2.0 * a;
        d := leftValue - localizedLeftConvexity;
        ChainedFit(leftValue, slope, convexity, right, s, span, ex);
        EndOrdinates(s, io.left, io.right, span);
        return true;
    }

    /** calcJacobian: the cached Jacobian when there is one; otherwise the base
        values A, B, C, D and the analytic partials, which are then cached. */
    method CalcJacobian() returns (wj: WengertJacobian)
      requires Valid()
      modifies this`microJacobian
      ensures Valid()
      ensures wj.Shaped(NumWengerts, NumParameters)
      ensures wj.partials == JacobianRows(sigma, io.Span(), exp)
      ensures old(microJacobian).Some? ==> wj == old(microJacobian).value
      ensures old(microJacobian).None? ==> wj == WengertJacobian([a, b, c, d], JacobianRows(sigma, io.Span(), exp))
      ensures microJacobian == Some(wj)
    {
      if microJacobian.Some? {
        return microJacobian.value;
      }
      var s, span, ex := sigma, io.Span(), exp;
      var g := s * span;
      var f := ex(g);
      AlphaAssignment(s, span, ex, g, f);
      var alpha := f / Quadratic(f, g);
      var w := FillJacobian(a, b, c, d, alpha, g);
      microJacobian := Some(w);
      return w;
    }

    /** calcValueJacobian: None outside the segment; otherwise the value at x
        and its partials with respect to the three calibration inputs, by the
        chain rule through the (cached or freshly built) coefficient Jacobian. */
    method CalcValueJacobian(x: real) returns (r: Option<WengertJacobian>)
      requires Valid()
      modifies this`microJacobian
      ensures Valid()
      ensures r.Some? <==> io.InSegment(x)
      ensures r.Some? ==>
        (&& r.value.Shaped(1, NumParameters)
         && r.value.wengerts == [CalcValue(x).value]
         && r.value.partials == [PointValuePartials(JacobianRows(sigma, io.Span(), exp), exp, Localize(x))])
      ensures !io.InSegment(x) || old(microJacobian).Some? ==> microJacobian == old(microJacobian)
      ensures io.InSegment(x) && old(microJacobian).None? ==>
        microJacobian == Some(WengertJacobian([a, b, c, d], JacobianRows(sigma, io.Span(), exp)))
    {
      if !io.InSegment(x) {
        return None;
      }
      var wj;
      if microJacobian.None? {
        wj := CalcJacobian();
      } else {
        wj := microJacobian.value;
      }
      var value := ValueJacobian(wj, CalcValue(x).value, exp, Localize(x));
      return Some(value);
    }
  }

  /** A segment chained to p at its left ordinate (the coefficients that
      CalibrateChained(p.Report(left), rightValue) sets) has, in the original
      ordinate, the slope and convexity that p reports in p's LOCAL ordinate.
      Its global slope therefore equals p's global slope exactly when p's
      tension is one or the slope is zero. */
  lemma ChainedKnot(p: BasisExponentialTension, s: BasisExponentialTension, rightValue: real)
    requires p.Valid() && s.Valid() && p.io.InSegment(s.io.left)
    requires var k := p.Report(s.io.left);
      s.Coeffs() == ChainedCoefficients(k.value, k.slope, k.convexity, rightValue,
                                        s.sigma, s.io.Span(), s.exp)
    ensures s.CalcOrderedDerivative(s.io.left, 1, false) == p.CalcOrderedDerivative(s.io.left, 1, true)
    ensures s.CalcOrderedDerivative(s.io.left, 2, false) == p.CalcOrderedDerivative(s.io.left, 2, true)
    ensures s.CalcOrderedDerivative(s.io.left, 1, false) == p.CalcOrderedDerivative(s.io.left, 1, false)
      <==> p.sigma == 1.0 || p.CalcOrderedDerivative(s.io.left, 1, true) == Some(0.0)
  {
    var x := s.io.left;
    var k := p.Report(x);
    EndOrdinates(s.sigma, x, s.io.right, s.io.Span());
    assert s.Localize(x) == 0.0;
    ChainedGlobalAtLeft(k.value, k.slope, k.convexity, rightValue, s.sigma, s.io.Span(), s.exp);
    s.Rescaled(x, 1);
    s.Rescaled(x, 2);
    p.Rescaled(x, 1);
    RescaleFixed(p.sigma, k.slope);
  }

  /** derivative * sigma * ... * sigma, as calcOrderedDerivative writes it, is
      sigma^n * derivative. */
  lemma PowerRescale(v: real, s: real)
    ensures v * s == Power(s, 1) * v
    ensures v * s * s == Power(s, 2) * v
    ensures v * s * s * s == Power(s, 3) * v
  {
    assert Power(s, 1) == s;
    assert Power(s, 2) == s * s;
    assert Power(s, 3) == s * (s * s);
  }

  /** The ledger calcJacobian fills in: base values A, B, C, D and, row by
      row, the analytic partials for alpha and g. */
  method FillJacobian(a: real, b: real, c: real, d: real, alpha: real, g: real)
    returns (w: WengertJacobian)
    ensures w.Shaped(NumWengerts, NumParameters)
    ensures w.wengerts == [a, b, c, d]
    ensures w.partials == RowsOf(alpha, g)
  {
    w := Zero(NumWengerts, NumParameters);
    w := w.SetWengert(0, a).SetWengert(1, b).SetWengert(2, c).SetWengert(3, d);
    BaseValues(Zero(NumWengerts, NumParameters), a, b, c, d);
    RowFill(w, 0, -alpha, -alpha * g, alpha);
    w := w.Accumulate(0, 0, -alpha).Accumulate(0, 1, -alpha * g).Accumulate(0, 2, alpha);
    RowFill(w, 1, alpha, alpha * g, -alpha);
    w := w.Accumulate(1, 0, alpha).Accumulate(1, 1, alpha * g).Accumulate(1, 2, -alpha);
    RowFill(w, 2, alpha, 1.0 + 2.0 * alpha * g, -2.0 * alpha);
    w := w.Accumulate(2, 0, alpha).Accumulate(2, 1, 1.0 + 2.0 * alpha * g).Accumulate(2, 2, -2.0 * alpha);
    RowFill(w, 3, 1.0, 0.0, 0.0);
    w := w.Accumulate(3, 0, 1.0).Accumulate(3, 1, 0.0).Accumulate(3, 2, 0.0);
    Assembled(Zero(NumWengerts, NumParameters).partials, [-alpha, -alpha * g, alpha],
              [alpha, alpha * g, -alpha], [alpha, 1.0 + 2.0 * alpha * g, -2.0 * alpha], [1.0, 0.0, 0.0]);
  }

  /** The ledger calcValueJacobian fills in from the coefficient Jacobian
      wj: the point value, and its partial with respect to each calibration
      input by the chain rule with df/dA = exp(u), df/dB = exp(-u), df/dC = u
      and df/dD = 1. */
  method ValueJacobian(wj: WengertJacobian, pointValue: real, exp: real -> real, u: real)
    returns (value: WengertJacobian)
    requires wj.Shaped(NumWengerts, NumParameters)
    ensures value.Shaped(1, NumParameters)
    ensures value.wengerts == [pointValue]
    ensures value.partials == [PointValuePartials(wj.partials, exp, u)]
  {
    var dvda, dvdb, dvdc, dvdd := exp(u), exp(-u), u, 1.0;
    var dadLeftNode, dbdLeftNode := wj.FirstDerivative(0, 0), wj.FirstDerivative(1, 0);
    var dcdLeftNode, dddLeftNode := wj.FirstDerivative(2, 0), wj.FirstDerivative(3, 0);
    var dadLeftSlope, dbdLeftSlope := wj.FirstDerivative(0, 1), wj.FirstDerivative(1, 1);
    var dcdLeftSlope, dddLeftSlope := wj.FirstDerivative(2, 1), wj.FirstDerivative(3, 1);
    var dadRightNode, dbdRightNode := wj.FirstDerivative(0, 2), wj.FirstDerivative(1, 2);
    var dcdRightNode, dddRightNode := wj.FirstDerivative(2, 2), wj.FirstDerivative(3, 2);
    value := Zero(1, NumParameters);
    value := value.SetWengert(0, pointValue);
    var leftNode := dvda * dadLeftNode + dvdb * dbdLeftNode + dvdc * dcdLeftNode + dvdd * dddLeftNode;
    var leftSlope := dvda * dadLeftSlope + dvdb * dbdLeftSlope + dvdc * dcdLeftSlope + dvdd * dddLeftSlope;
    var rightNode := dvda * dadRightNode + dvdb * dbdRightNode + dvdc * dcdRightNode + dvdd * dddRightNode;
    RowFill(value, 0, leftNode, leftSlope, rightNode);
    value := value.Accumulate(0, 0, leftNode).Accumulate(0, 1, leftSlope).Accumulate(0, 2, rightNode);
    assert leftNode == ChainRule(wj.partials, exp(u), exp(-u), u, 0);
    assert leftSlope == ChainRule(wj.partials, exp(u), exp(-u), u, 1);
    assert rightNode == ChainRule(wj.partials, exp(u), exp(-u), u, 2);
  }

  /** The ends of the segment in the local ordinate: 0 and sigma * span. */
  lemma EndOrdinates(sigma: real, left: real, right: real, span: real)
    requires span == right - left
    ensures LocalOrdinate(sigma, left, left) == 0.0
    ensures LocalOrdinate(sigma, left, right) == LocalSpan(sigma, span)
  {
  }

  /** The terminal calibration written step by step, with g = sigma * span and
      F = exp(g), is TerminalCoefficients. */
  lemma TerminalAssignments(leftValue: real, leftSlope: real, rightValue: real,
                            sigma: real, span: real, exp: real -> real,
                            localizedLeftSlope: real, g: real, f: real)
    requires sigma != 0.0 && Denominator(sigma, span, exp) != 0.0
    requires localizedLeftSlope == leftSlope / sigma && g == sigma * span && f == exp(g)
    ensures f * f - 2.0 * f * g - 1.0 != 0.0
    ensures var a := f * (rightValue - leftValue - g * localizedLeftSlope) / (f * f - 2.0 * f * g - 1.0);
      TerminalCoefficients(leftValue, leftSlope, rightValue, sigma, span, exp)
        == Coefficients(a, -1.0 * a, leftSlope - 2.0 * a, leftValue)
  {
  }

  /** The re-solve of A without a predecessor, written step by step, is
      RepinnedCoefficients. */
  lemma RepinnedAssignment(co: Coefficients, rightValue: real,
                           sigma: real, span: real, exp: real -> real,
                           leftValue: real, localizedLeftSlope: real, g: real, f: real)
    requires Denominator(sigma, span, exp) != 0.0
    requires leftValue == co.a + co.b + co.d && localizedLeftSlope == co.a - co.b + co.c
    requires g == sigma * span && f == exp(g)
    ensures f * f - 2.0 * f * g - 1.0 != 0.0
    ensures RepinnedCoefficients(co, rightValue, sigma, span, exp)
      == co.(a := f * (rightValue - leftValue - g * localizedLeftSlope) / (f * f - 2.0 * f * g - 1.0))
  {
  }

  /** The chained calibration, written step by step, is ChainedCoefficients. */
  lemma ChainedAssignments(leftValue: real, slope: real, convexity: real, rightValue: real,
                           sigma: real, span: real, exp: real -> real,
                           localizedLeftSlope: real, localizedLeftConvexity: real, g: real, f: real)
    requires sigma != 0.0 && Denominator(sigma, span, exp) != 0.0
    requires localizedLeftSlope == slope / sigma && localizedLeftConvexity == convexity / sigma / sigma
    requires g == sigma * span && f == exp(g)
    ensures f * f - 2.0 * f * g - 1.0 != 0.0
    ensures var a := (f * (rightValue - leftValue - g * localizedLeftSlope)
                      - localizedLeftConvexity * (1.0 - f + f * g)) / (f * f - 2.0 * f * g - 1.0);
      ChainedCoefficients(leftValue, slope, convexity, rightValue, sigma, span, exp)
        == Coefficients(a, localizedLeftConvexity - a, localizedLeftSlope + localizedLeftConvexity - 2.0 * a,
                        leftValue - localizedLeftConvexity)
  {
  }

  /** alpha = F / (F * F - 2 * F * g - 1), written step by step, gives the
      analytic partials block. */
  lemma AlphaAssignment(sigma: real, span: real, exp: real -> real, g: real, f: real)
    requires Denominator(sigma, span, exp) != 0.0
    requires g == sigma * span && f == exp(g)
    ensures Quadratic(f, g) != 0.0
    ensures JacobianRows(sigma, span, exp) == RowsOf(f / Quadratic(f, g), g)
  {
    assert Denominator(sigma, span, exp) == Quadratic(f, g);
    assert Alpha(sigma, span, exp) == f / Quadratic(f, g);
  }

  /** Four rows written into a block of four rows make up the block. */
  lemma Assembled(p: seq<seq<real>>, r0: seq<real>, r1: seq<real>, r2: seq<real>, r3: seq<real>)
    requires |p| == 4
    ensures p[0 := r0][1 := r1][2 := r2][3 := r3] == [r0, r1, r2, r3]
  {
  }

  /** The base values set one by one are A, B, C, D. */
  lemma BaseValues(w: WengertJacobian, a: real, b: real, c: real, d: real)
    requires |w.wengerts| == 4
    ensures w.SetWengert(0, a).SetWengert(1, b).SetWengert(2, c).SetWengert(3, d).wengerts == [a, b, c, d]
  {
  }

  /** Accumulating x, y and z into the three entries of a zero row of the
      ledger sets that row to [x, y, z]; nothing else changes. */
  lemma RowFill(w: WengertJacobian, i: nat, x: real, y: real, z: real)
    requires i < |w.partials| && |w.partials[i]| == 3
    requires w.partials[i][0] == 0.0 && w.partials[i][1] == 0.0 && w.partials[i][2] == 0.0
    ensures var filled := w.Accumulate(i, 0, x).Accumulate(i, 1, y).Accumulate(i, 2, z);
      filled.wengerts == w.wengerts && filled.partials == w.partials[i := [x, y, z]]
  {
    var filled := w.Accumulate(i, 0, x).Accumulate(i, 1, y).Accumulate(i, 2, z);
    assert filled.partials[i] == [x, y, z];
  }

  lemma ProductNonzero(x: real, y: real)
    requires x != 0.0 && y > 0.0
    ensures x * y != 0.0
  {
  }
}
