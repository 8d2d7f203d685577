/** The Wengert Jacobian ledger: a base value for each of `rows` outputs and the
    first partial of each output with respect to each of `cols` inputs. */
module AlgoDiff {

  datatype WengertJacobian = WengertJacobian(wengerts: seq<real>, partials: seq<seq<real>>) {

    /** The ledger has `rows` outputs and `cols` inputs. */
    predicate Shaped(rows: nat, cols: nat) {
      |wengerts| == rows && |partials| == rows &&
      forall i :: 0 <= i < rows ==> |partials[i]| == cols
    }

    /** setWengert: overwrite the base value of output `i`. */
    function SetWengert(i: nat, v: real): WengertJacobian
      requires i < |wengerts|
    {
      WengertJacobian(wengerts[i := v], partials)
    }

    /** accumulatePartialFirstDerivative: add `v` to the partial of output `i`
        with respect to input `k`. */
    function Accumulate(i: nat, k: nat, v: real): WengertJacobian
      requires i < |partials| && k < |partials[i]|
    {
      WengertJacobian(wengerts, partials[i := partials[i][k := partials[i][k] + v]])
    }

    /** getFirstDerivative: the partial of output `i` with respect to input `k`. */
    function FirstDerivative(i: nat, k: nat): real
      requires i < |partials| && k < |partials[i]|
    {
      partials[i][k]
    }
  }

  /** A freshly constructed ledger: every base value and every partial is zero. */
  function Zero(rows: nat, cols: nat): (w: WengertJacobian)
    ensures w.Shaped(rows, cols)
    ensures forall i :: 0 <= i < rows ==> w.wengerts[i] == 0.0
    ensures forall i, k :: 0 <= i < rows && 0 <= k < cols ==> w.partials[i][k] == 0.0
  {
    WengertJacobian(seq(rows, _ => 0.0), seq(rows, _ => seq(cols, _ => 0.0)))
  }

}
