/** Double-precision inputs as the calibration guards see them: either a finite
    real number or one of the non-finite values (NaN, plus or minus infinity). */
module NumberUtil {

  datatype Double = Finite(value: real) | NonFinite

  /** NumberUtil.IsValid: the value is finite. */
  predicate IsValid(x: Double) {
    x.Finite?
  }

}
