/** The two layer kinds of nntlib (`layer.hpp`): a fully connected layer, whose
    weight row `j` holds the bias followed by one weight per input, and a
    dropout layer, which replaces inputs by a fixed value when a unit draw
    falls below the dropout probability.

    Scalars are reals. The activation function and its derivative are
    parameters. `forward` and `backward` write into buffers the caller owns;
    a buffer is passed in and its new contents returned. */
module Layer {
  import opened Utils

  type Vector = seq<real>
  type Matrix = seq<seq<real>>

  /** An activation function `f` together with its derivative `df`. */
  datatype Activation = Activation(f: real -> real, df: real -> real)

  // ---------------------------------------------------------------------------
  // Random numbers
  // ---------------------------------------------------------------------------

  /** Every draw of the generator lies in [0, 1). */
  ghost predicate UnitDraws(oracle: nat -> real) {
    forall i: nat :: 0.0 <= oracle(i) < 1.0
  }

  /** `n` consecutive draws starting at position `from`. */
  function Draws(oracle: nat -> real, from: nat, n: nat): (u: seq<real>)
    ensures |u| == n
  {
    seq(n, i requires 0 <= i < n => oracle(from + i))
  }

  /** A random number generator: the `k`-th value it produces is `oracle(k)`,
      and `position` counts the values produced so far. */
  class Rng {
    const oracle: nat -> real
    var position: nat

    ghost predicate Valid() {
      UnitDraws(oracle)
    }

    constructor(oracle: nat -> real, seed: nat)
      requires UnitDraws(oracle)
      ensures this.oracle == oracle && position == seed && Valid()
    {
      this.oracle := oracle;
      position := seed;
    }

    /** One unit draw, `uniform_real_distribution(0, 1)(rng)`. */
    method Next() returns (u: real)
      requires Valid()
      modifies this
      ensures u == oracle(old(position)) && position == old(position) + 1
      ensures 0.0 <= u < 1.0
    {
      u := oracle(position);
      position := position + 1;
    }
  }

  // ---------------------------------------------------------------------------
  // Fully connected layer: specification functions
  // ---------------------------------------------------------------------------

  /** Half-width of the initial weight range, `0.2 / (n_input + 1)`. */
  function InitWidth(nInput: nat): real {
    0.2 / ((nInput + 1) as real)
  }

  /** `uniform_real_distribution(lo, hi)` applied to the unit draw `u`. */
  function Uniform(lo: real, hi: real, u: real): real {
    lo + u * (hi - lo)
  }

  /** One weight row: `n_input + 1` consecutive draws mapped into
      `[-width, width)`. */
  function InitRow(nInput: nat, oracle: nat -> real, from: nat): (row: Vector)
    ensures |row| == nInput + 1
  {
    seq(nInput + 1, i requires 0 <= i < nInput + 1 =>
      Uniform(-InitWidth(nInput), InitWidth(nInput), oracle(from + i)))
  }

  /** The weights the constructor draws, row after row. */
  function InitWeights(nInput: nat, nOutput: nat, oracle: nat -> real, from: nat): (w: Matrix)
    ensures |w| == nOutput
  {
    seq(nOutput, j requires 0 <= j < nOutput => InitRow(nInput, oracle, from + j * (nInput + 1)))
  }

  lemma UniformInRange(w: real, u: real)
    requires w > 0.0 && 0.0 <= u < 1.0
    ensures -w <= Uniform(-w, w, u) < w
  {
    assert u * (w - -w) == 2.0 * (u * w);
    assert u * w < w;
    assert 0.0 <= u * w;
  }

  /** The constructor yields `n_output` rows of `n_input + 1` weights, each in
      `[-0.2 / (n_input + 1), 0.2 / (n_input + 1))`. */
  lemma InitWeightsInRange(nInput: nat, nOutput: nat, oracle: nat -> real, from: nat)
    requires UnitDraws(oracle)
    ensures Shaped(InitWeights(nInput, nOutput, oracle, from))
    ensures forall j, i :: 0 <= j < nOutput && 0 <= i <= nInput ==>
      -InitWidth(nInput) <= InitWeights(nInput, nOutput, oracle, from)[j][i] < InitWidth(nInput)
  {
    var w := InitWeights(nInput, nOutput, oracle, from);
    forall j, i | 0 <= j < nOutput && 0 <= i <= nInput
      ensures -InitWidth(nInput) <= w[j][i] < InitWidth(nInput)
    {
      assert InitWidth(nInput) > 0.0;
      UniformInRange(InitWidth(nInput), oracle(from + j * (nInput + 1) + i));
    }
  }

  /** Every row holds at least the bias and all rows have the same length. */
  predicate Shaped(w: Matrix) {
    forall j :: 0 <= j < |w| ==> 1 <= |w[j]| == |w[0]|
  }

  /** Sum of `a[i] * b[i]` over the first `n` positions. */
  function Dot(a: Vector, b: Vector, n: nat): real
    requires n <= |a| && n <= |b|
  {
    if n == 0 then 0.0 else Dot(a, b, n - 1) + a[n - 1] * b[n - 1]
  }

  /** `calc_netj`: the bias `wj[0]` plus `x[i] * wj[i + 1]` for every input
      that both the input range and the weight row reach. */
  function NetJ(x: Vector, wj: Vector): real
    requires |wj| >= 1
  {
    wj[0] + Dot(x, wj[1..], Min(|x|, |wj| - 1))
  }

  /** `forward`: entry `j < size_out` of the state becomes `f(net_j)`; the
      rest of the buffer is untouched. */
  function DenseForward(w: Matrix, act: Activation, x: Vector, state: Vector): (r: Vector)
    requires Shaped(w) && |w| <= |state|
    ensures |r| == |state|
  {
    seq(|state|, j requires 0 <= j < |state| => if j < |w| then act.f(NetJ(x, w[j])) else state[j])
  }

  /** `d_j = prev_error[j] * df(net_j)`. */
  function Delta(w: Matrix, act: Activation, x: Vector, prevError: Vector, j: nat): real
    requires Shaped(w) && j < |w| && j < |prevError|
  {
    prevError[j] * act.df(NetJ(x, w[j]))
  }

  /** What `backward` needs of the caller's buffers to stay in range. */
  predicate BackwardFits(w: Matrix, x: Vector, prevError: Vector, errorMem: Vector, gradient: Matrix) {
    |w| <= |prevError| && |w| <= |gradient|
    && forall j :: 0 <= j < |w| ==> |x| + 1 <= |gradient[j]| && |errorMem| + 1 <= |w[j]|
  }

  /** Sum over rows `j < m` of `d_j * wj[i + 1]`. */
  function ErrorSum(w: Matrix, act: Activation, x: Vector, prevError: Vector, i: nat, m: nat): real
    requires Shaped(w) && m <= |w| && m <= |prevError|
    requires forall j :: 0 <= j < m ==> i + 1 < |w[j]|
  {
    if m == 0 then 0.0
    else ErrorSum(w, act, x, prevError, i, m - 1) + Delta(w, act, x, prevError, m - 1) * w[m - 1][i + 1]
  }

  /** A gradient row after `backward`: `d` at 0, `d * x[i - 1]` at
      `1 <= i <= |x|`, the old value beyond. */
  function GradRow(row: Vector, d: real, x: Vector): (r: Vector)
    requires |x| + 1 <= |row|
    ensures |r| == |row|
  {
    seq(|row|, i requires 0 <= i < |row| => if i == 0 then d else if i <= |x| then d * x[i - 1] else row[i])
  }

  /** The error buffer once rows `j < m` have added their shares. */
  function ErrorsAfter(w: Matrix, act: Activation, x: Vector, prevError: Vector, n: nat, m: nat): (r: Vector)
    requires Shaped(w) && m <= |w| && m <= |prevError| && forall j :: 0 <= j < m ==> n + 1 <= |w[j]|
    ensures |r| == n
  {
    seq(n, i requires 0 <= i < n => ErrorSum(w, act, x, prevError, i, m))
  }

  /** The error buffer after `backward`. */
  function DenseError(w: Matrix, act: Activation, x: Vector, prevError: Vector, errorMem: Vector): (r: Vector)
    requires Shaped(w) && |w| <= |prevError| && forall j :: 0 <= j < |w| ==> |errorMem| + 1 <= |w[j]|
    ensures |r| == |errorMem|
  {
    ErrorsAfter(w, act, x, prevError, |errorMem|, |w|)
  }

  /** The gradient buffer once rows `j < m` have been rewritten. */
  function GradientAfter(w: Matrix, act: Activation, x: Vector, prevError: Vector, gradient: Matrix, m: nat): (r: Matrix)
    requires Shaped(w) && m <= |w| && m <= |prevError| && m <= |gradient|
    requires forall j :: 0 <= j < m ==> |x| + 1 <= |gradient[j]|
    ensures |r| == |gradient| && forall j :: 0 <= j < |gradient| ==> |r[j]| == |gradient[j]|
  {
    seq(|gradient|, j requires 0 <= j < |gradient| =>
      if j < m then GradRow(gradient[j], Delta(w, act, x, prevError, j), x) else gradient[j])
  }

  /** The gradient buffer after `backward`: rows `j < size_out` rewritten. */
  function DenseGradient(w: Matrix, act: Activation, x: Vector, prevError: Vector, gradient: Matrix): (r: Matrix)
    requires Shaped(w) && |w| <= |prevError| && |w| <= |gradient|
    requires forall j :: 0 <= j < |w| ==> |x| + 1 <= |gradient[j]|
    ensures |r| == |gradient| && forall j :: 0 <= j < |gradient| ==> |r[j]| == |gradient[j]|
  {
    GradientAfter(w, act, x, prevError, gradient, |w|)
  }

  // ---------------------------------------------------------------------------
  // Fully connected layer: what forward and backward compute
  // ---------------------------------------------------------------------------

  lemma {:induction false} DotUpdateRight(a: Vector, b: Vector, n: nat, i: nat, h: real)
    requires n <= |a| && n <= |b| && i < |b|
    ensures Dot(a, b[i := b[i] + h], n) == Dot(a, b, n) + (if i < n then a[i] * h else 0.0)
  {
    if n > 0 {
      DotUpdateRight(a, b, n - 1, i, h);
    }
  }

  lemma {:induction false} DotUpdateLeft(a: Vector, b: Vector, n: nat, i: nat, h: real)
    requires n <= |a| && n <= |b| && i < |a|
    ensures Dot(a[i := a[i] + h], b, n) == Dot(a, b, n) + (if i < n then h * b[i] else 0.0)
  {
    if n > 0 {
      DotUpdateLeft(a, b, n - 1, i, h);
    }
  }

  lemma {:induction false} DotPrefix(a: Vector, b: Vector, n: nat, m: nat)
    requires n <= m <= |a| && n <= |b|
    ensures Dot(a[..m], b, n) == Dot(a, b, n)
  {
    if n > 0 {
      DotPrefix(a, b, n - 1, m);
    }
  }

  /** Raising the bias by `h` raises `net_j` by `h`: the bias gradient of
      `net_j` is 1. */
  lemma NetJBiasSlope(x: Vector, wj: Vector, h: real)
    requires |wj| >= 1
    ensures NetJ(x, wj[0 := wj[0] + h]) == NetJ(x, wj) + h
  {
    assert wj[0 := wj[0] + h][1..] == wj[1..];
  }

  /** Raising weight `i >= 1` by `h` changes `net_j` by `h * x[i - 1]` when the
      loop reaches that weight, and not at all otherwise. */
  lemma NetJWeightSlope(x: Vector, wj: Vector, i: nat, h: real)
    requires 1 <= i < |wj|
    ensures NetJ(x, wj[i := wj[i] + h]) == NetJ(x, wj) + (if i <= |x| then h * x[i - 1] else 0.0)
  {
    var t := wj[1..];
    assert wj[i := wj[i] + h][1..] == t[i - 1 := t[i - 1] + h];
    DotUpdateRight(x, t, Min(|x|, |wj| - 1), i - 1, h);
  }

  /** Raising input `i` by `h` changes `net_j` by `h * wj[i + 1]` when the
      loop reaches that input, and not at all otherwise. */
  lemma NetJInputSlope(x: Vector, wj: Vector, i: nat, h: real)
    requires |wj| >= 1 && i < |x|
    ensures NetJ(x[i := x[i] + h], wj) == NetJ(x, wj) + (if i + 1 < |wj| then h * wj[i + 1] else 0.0)
  {
    DotUpdateLeft(x, wj[1..], Min(|x|, |wj| - 1), i, h);
  }

  /** Inputs beyond `size_in` are never read. */
  lemma NetJIgnoresExtraInputs(x: Vector, wj: Vector)
    requires 1 <= |wj| <= |x| + 1
    ensures NetJ(x, wj) == NetJ(x[..|wj| - 1], wj)
  {
    DotPrefix(x, wj[1..], |wj| - 1, |wj| - 1);
  }

  /** Each gradient entry is `d_j` times the slope of `net_j` in that weight:
      raising weight `i` of row `j` by `h` moves `net_j` by `gradient[j][i] * h / d_j`. */
  lemma GradientIsChainRule(w: Matrix, act: Activation, x: Vector, prevError: Vector, gradient: Matrix, j: nat, i: nat, h: real)
    requires Shaped(w) && |w| <= |prevError| && |w| <= |gradient|
    requires forall r :: 0 <= r < |w| ==> |x| + 1 <= |gradient[r]|
    requires j < |w| && i <= |x| && i < |w[j]|
    ensures DenseGradient(w, act, x, prevError, gradient)[j][i] * h
         == Delta(w, act, x, prevError, j) * (NetJ(x, w[j][i := w[j][i] + h]) - NetJ(x, w[j]))
  {
    var d := Delta(w, act, x, prevError, j);
    var g := DenseGradient(w, act, x, prevError, gradient)[j];
    assert g == GradRow(gradient[j], d, x);
    if i == 0 {
      assert g[i] == d;
      NetJBiasSlope(x, w[j], h);
    } else {
      assert g[i] == d * x[i - 1];
      NetJWeightSlope(x, w[j], i, h);
    }
  }

  /** Sum over rows `j < m` of `d_j` times the change of `net_j` when input `i`
      is raised by one (`net_j` is affine in each input, so this change is
      its partial derivative). */
  function InputSensitivity(w: Matrix, act: Activation, x: Vector, prevError: Vector, i: nat, m: nat): real
    requires Shaped(w) && m <= |w| && m <= |prevError| && i < |x|
  {
    if m == 0 then 0.0
    else
      var change := NetJ(x[i := x[i] + 1.0], w[m - 1]) - NetJ(x, w[m - 1]);
      InputSensitivity(w, act, x, prevError, i, m - 1) + Delta(w, act, x, prevError, m - 1) * change
  }

  lemma {:induction false} ErrorSumIsChainRule(w: Matrix, act: Activation, x: Vector, prevError: Vector, i: nat, m: nat)
    requires Shaped(w) && m <= |w| && m <= |prevError| && i < |x|
    requires forall j :: 0 <= j < m ==> i + 1 < |w[j]|
    ensures ErrorSum(w, act, x, prevError, i, m) == InputSensitivity(w, act, x, prevError, i, m)
  {
    if m > 0 {
      ErrorSumIsChainRule(w, act, x, prevError, i, m - 1);
      NetJInputSlope(x, w[m - 1], i, 1.0);
    }
  }

  /** Entry `i` of the propagated error is the sensitivity of the weighted
      output deltas to input `i`: the chain rule through `net_j`. */
  lemma ErrorIsChainRule(w: Matrix, act: Activation, x: Vector, prevError: Vector, errorMem: Vector, i: nat)
    requires Shaped(w) && |w| <= |prevError| && forall j :: 0 <= j < |w| ==> |errorMem| + 1 <= |w[j]|
    requires i < |errorMem| && i < |x|
    ensures DenseError(w, act, x, prevError, errorMem)[i] == InputSensitivity(w, act, x, prevError, i, |w|)
  {
    ErrorSumIsChainRule(w, act, x, prevError, i, |w|);
  }

  // ---------------------------------------------------------------------------
  // Adding a delta into a weight matrix (`update`)
  // ---------------------------------------------------------------------------

  /** The inner callback of `update`: `wji1 += wji2`. */
  function AddStep(i: nat, xs: seq<real>): seq<real> {
    if |xs| == 2 then [xs[0] + xs[1], xs[1]] else xs
  }

  lemma AddStepPreserves()
    ensures LengthPreserving(AddStep)
  {
  }

  /** The inner `multi_foreach` of `update` over one row pair. */
  function AddRow(a: Vector, b: Vector): Vector {
    AddStepPreserves();
    Zipped(AddStep, [Whole(a), Whole(b)])[0]
  }

  /** The outer callback of `update`: one row pair. */
  function AddRowStep(i: nat, rows: seq<Vector>): seq<Vector> {
    if |rows| == 2 then [AddRow(rows[0], rows[1]), rows[1]] else rows
  }

  lemma AddRowStepPreserves()
    ensures LengthPreserving(AddRowStep)
  {
  }

  /** The weights after `update(delta)`. */
  function AddInto(w: Matrix, d: Matrix): Matrix {
    AddRowStepPreserves();
    Zipped(AddRowStep, [Whole(w), Whole(d)])[0]
  }

  /** `update` adds the delta entry by entry where both matrices have an
      entry, and keeps every other weight. */
  lemma AddRowAt(a: Vector, b: Vector)
    ensures |AddRow(a, b)| == |a|
    ensures forall i :: 0 <= i < |a| ==> AddRow(a, b)[i] == if i < |b| then a[i] + b[i] else a[i]
  {
    AddStepPreserves();
    ZippedPair(AddStep, a, b);
  }

  lemma AddIntoAt(w: Matrix, d: Matrix)
    ensures |AddInto(w, d)| == |w|
    ensures forall j :: 0 <= j < |w| ==> |AddInto(w, d)[j]| == |w[j]|
    ensures forall j, i :: 0 <= j < |w| && 0 <= i < |w[j]| ==>
      AddInto(w, d)[j][i] == if j < |d| && i < |d[j]| then w[j][i] + d[j][i] else w[j][i]
  {
    AddRowStepPreserves();
    ZippedPair(AddRowStep, w, d);
    forall j | 0 <= j < |w| && j < |d|
      ensures AddInto(w, d)[j] == AddRow(w[j], d[j])
    {
    }
    forall j | 0 <= j < |w| && j < |d|
      ensures |AddRow(w[j], d[j])| == |w[j]|
      ensures forall i :: 0 <= i < |w[j]| ==> AddRow(w[j], d[j])[i] == if i < |d[j]| then w[j][i] + d[j][i] else w[j][i]
    {
      AddRowAt(w[j], d[j]);
    }
  }

  /** `std::vector<T>(n)`: `n` zeros. */
  function Zeros(n: nat): (z: Vector)
    ensures |z| == n
  {
    seq(n, i => 0.0)
  }

  /** A matrix of zeros with the shape of `w` (`allocate_delta_storage`). */
  function ZerosLike(w: Matrix): (z: Matrix)
    ensures |z| == |w|
  {
    seq(|w|, j requires 0 <= j < |w| => seq(|w[j]|, i => 0.0))
  }

  /** Adding a zero delta leaves the weights unchanged. */
  lemma AddZero(w: Matrix)
    ensures AddInto(w, ZerosLike(w)) == w
  {
    AddIntoAt(w, ZerosLike(w));
    forall j | 0 <= j < |w| ensures AddInto(w, ZerosLike(w))[j] == w[j] { }
  }

  /** `update` keeps the shape of the weights. */
  lemma AddIntoShaped(w: Matrix, d: Matrix)
    requires Shaped(w)
    ensures Shaped(AddInto(w, d))
  {
    AddIntoAt(w, d);
  }

  /** Two updates with deltas of the weights' shape compose into one update
      with the summed delta. */
  lemma AddIntoTwice(w: Matrix, d1: Matrix, d2: Matrix)
    requires |d1| == |d2| == |w| && forall j :: 0 <= j < |w| ==> |d1[j]| == |d2[j]| == |w[j]|
    ensures AddInto(AddInto(w, d1), d2) == AddInto(w, AddInto(d1, d2))
  {
    AddIntoAt(w, d1);
    AddIntoAt(AddInto(w, d1), d2);
    AddIntoAt(d1, d2);
    AddIntoAt(w, AddInto(d1, d2));
    forall j | 0 <= j < |w|
      ensures AddInto(AddInto(w, d1), d2)[j] == AddInto(w, AddInto(d1, d2))[j]
    {
    }
  }

  // ---------------------------------------------------------------------------
  // Fully connected layer
  // ---------------------------------------------------------------------------

  /** `calc_netj` as `layer.hpp` computes it: a loop over the inputs that
      stops at the end of the input range or of the weight row. */
  method CalcNetj(x: Vector, wj: Vector) returns (netj: real)
    requires |wj| >= 1
    ensures netj == NetJ(x, wj)
  {
    netj := wj[0];
    var p := 0;
    var k := 1;
    while p < |x| && k < |wj|
      invariant k == p + 1 && p <= |x| && k <= |wj|
      invariant netj == wj[0] + Dot(x, wj[1..], p)
    {
      netj := netj + x[p] * wj[k];
      k := k + 1;
      p := p + 1;
    }
  }

  /** `dj = prev_error[j] * df(calc_netj(x, wj))`. */
  method CalcDelta(w: Matrix, act: Activation, x: Vector, prevError: Vector, j: nat) returns (dj: real)
    requires Shaped(w) && j < |w| && j < |prevError|
    ensures dj == Delta(w, act, x, prevError, j)
  {
    var netj := CalcNetj(x, w[j]);
    dj := prevError[j] * act.df(netj);
  }

  /** The gradient row of one output of `backward`: `gradientj[0] = d`, then
      `std::transform` of the inputs into `gradientj[1..]`. */
  method WriteGradRow(row: Vector, d: real, x: Vector) returns (row': Vector)
    requires |x| + 1 <= |row|
    ensures row' == GradRow(row, d, x)
  {
    row' := row[0 := d];
    var p := 0;
    while p < |x|
      invariant 0 <= p <= |x| && |row'| == |row| && row'[0] == d
      invariant forall q :: 1 <= q <= p ==> row'[q] == d * x[q - 1]
      invariant forall q :: p + 1 <= q < |row| ==> row'[q] == row[q]
    {
      row' := row'[p + 1 := d * x[p]];
      p := p + 1;
    }
    forall q | 0 <= q < |row|
      ensures row'[q] == GradRow(row, d, x)[q]
    {
    }
  }

  /** `std::fill(error_mem.begin(), error_mem.end(), 0)`. */
  method ZeroFill(e: Vector) returns (z: Vector)
    ensures z == Zeros(|e|)
  {
    z := e;
    var i := 0;
    while i < |z|
      invariant 0 <= i <= |z| == |e|
      invariant forall q :: 0 <= q < i ==> z[q] == 0.0
    {
      z := z[i := 0.0];
      i := i + 1;
    }
  }

  /** The inner loop of `backward` for output `j`: `error_mem[i] += d_j * wj[i + 1]`
      for every entry of the error buffer. */
  method AddErrorShare(w: Matrix, act: Activation, x: Vector, prevError: Vector, errorMem: Vector, j: nat)
      returns (errorMem': Vector)
    requires Shaped(w) && j < |w| && |w| <= |prevError| && forall r :: 0 <= r < |w| ==> |errorMem| + 1 <= |w[r]|
    requires forall e :: 0 <= e < |errorMem| ==> errorMem[e] == ErrorSum(w, act, x, prevError, e, j)
    ensures |errorMem'| == |errorMem|
    ensures forall e :: 0 <= e < |errorMem| ==> errorMem'[e] == ErrorSum(w, act, x, prevError, e, j + 1)
  {
    var dj := prevError[j] * act.df(NetJ(x, w[j]));
    errorMem' := errorMem;
    var q := 0;
    while q < |errorMem'|
      invariant 0 <= q <= |errorMem'| == |errorMem|
      invariant forall e :: 0 <= e < q ==> errorMem'[e] == ErrorSum(w, act, x, prevError, e, j + 1)
      invariant forall e :: q <= e < |errorMem| ==> errorMem'[e] == errorMem[e]
    {
      errorMem' := errorMem'[q := errorMem'[q] + dj * w[j][q + 1]];
      q := q + 1;
    }
  }

  /** One pass of the outer loop of `backward`: row `j` writes its gradient row
      and adds its share to every error entry. */
  method BackwardRow(w: Matrix, act: Activation, x: Vector, prevError: Vector, errorMem: Vector,
                     gradient0: Matrix, gradient: Matrix, j: nat)
      returns (errorMem': Vector, gradient': Matrix)
    requires Shaped(w) && j < |w| && BackwardFits(w, x, prevError, errorMem, gradient0)
    requires errorMem == ErrorsAfter(w, act, x, prevError, |errorMem|, j)
    requires gradient == GradientAfter(w, act, x, prevError, gradient0, j)
    ensures errorMem' == ErrorsAfter(w, act, x, prevError, |errorMem|, j + 1)
    ensures gradient' == GradientAfter(w, act, x, prevError, gradient0, j + 1)
  {
    var dj := CalcDelta(w, act, x, prevError, j);
    var row := WriteGradRow(gradient[j], dj, x);
    gradient' := gradient[j := row];
    errorMem' := AddErrorShare(w, act, x, prevError, errorMem, j);
  }

  /** The body of `backward`: zero the error buffer, then run [BackwardRow]
      for every output row in order. */
  method BackwardRows(w: Matrix, act: Activation, x: Vector, prevError: Vector, errorMem: Vector, gradient: Matrix)
      returns (errorMem': Vector, gradient': Matrix)
    requires Shaped(w) && BackwardFits(w, x, prevError, errorMem, gradient)
    ensures errorMem' == DenseError(w, act, x, prevError, errorMem)
    ensures gradient' == DenseGradient(w, act, x, prevError, gradient)
  {
    errorMem' := ZeroFill(errorMem);
    gradient' := gradient;
    var j := 0;
    while j < |w|
      invariant 0 <= j <= |w|
      invariant errorMem' == ErrorsAfter(w, act, x, prevError, |errorMem|, j)
      invariant gradient' == GradientAfter(w, act, x, prevError, gradient, j)
    {
      errorMem', gradient' := BackwardRow(w, act, x, prevError, errorMem', gradient, gradient', j);
      j := j + 1;
    }
  }

  /** `fully_connected<Activation>`: `weights[j]` is the bias of output `j`
      followed by its input weights. */
  class FullyConnected {
    var weights: Matrix
    const act: Activation

    predicate Valid()
      reads this
    {
      Shaped(weights)
    }

    /** `fully_connected(n_input, n_output, rng)`: `n_output` rows drawn one
        after another from `rng`, each `n_input + 1` draws long. */
    constructor(nInput: nat, nOutput: nat, act: Activation, rng: Rng)
      requires rng.Valid()
      modifies rng
      ensures weights == InitWeights(nInput, nOutput, rng.oracle, old(rng.position))
      ensures rng.position == old(rng.position) + nOutput * (nInput + 1)
      ensures this.act == act && Valid()
    {
      var start := rng.position;
      var w: Matrix := [];
      var j := 0;
      while j < nOutput
        invariant 0 <= j <= nOutput
        invariant rng.position == start + j * (nInput + 1)
        invariant w == InitWeights(nInput, j, rng.oracle, start)
      {
        var row: Vector := [];
        var i := 0;
        while i < nInput + 1
          invariant 0 <= i <= nInput + 1
          invariant rng.position == start + j * (nInput + 1) + i
          invariant row == InitRow(nInput, rng.oracle, start + j * (nInput + 1))[..i]
        {
          var u := rng.Next();
          row := row + [Uniform(-InitWidth(nInput), InitWidth(nInput), u)];
          i := i + 1;
        }
        assert row == InitRow(nInput, rng.oracle, start + j * (nInput + 1));
        w := w + [row];
        j := j + 1;
        assert w == InitWeights(nInput, j, rng.oracle, start);
      }
      InitWeightsInRange(nInput, nOutput, rng.oracle, start);
      weights := w;
      this.act := act;
    }

    /** `forward(x, state)`. */
    method Forward(x: Vector, state: Vector) returns (state': Vector)
      requires Valid() && |weights| <= |state|
      ensures state' == DenseForward(weights, act, x, state)
    {
      state' := state;
      var j := 0;
      while j < |weights|
        invariant 0 <= j <= |weights| && |state'| == |state|
        invariant forall q :: 0 <= q < |state| ==> state'[q] == if q < j then act.f(NetJ(x, weights[q])) else state[q]
      {
        var netj := CalcNetj(x, weights[j]);
        state' := state'[j := act.f(netj)];
        j := j + 1;
      }
    }

    /** `backward(x, prev_error, error_mem, gradient)`: zero the error buffer,
        then for every output row write its gradient row and add its share to
        the error. */
    method Backward(x: Vector, prevError: Vector, errorMem: Vector, gradient: Matrix)
        returns (errorMem': Vector, gradient': Matrix)
      requires Valid() && BackwardFits(weights, x, prevError, errorMem, gradient)
      ensures errorMem' == DenseError(weights, act, x, prevError, errorMem)
      ensures gradient' == DenseGradient(weights, act, x, prevError, gradient)
    {
      errorMem', gradient' := BackwardRows(weights, act, x, prevError, errorMem, gradient);
    }

    /** `update(delta)`: the nested `multi_foreach` adding `delta` into the
        weights. */
    method Update(delta: Matrix)
      requires Valid()
      modifies this
      ensures weights == AddInto(old(weights), delta) && Valid()
    {
      AddRowStepPreserves();
      var bufs, cur, calls := MultiForeach(AddRowStep, [Whole(weights), Whole(delta)]);
      AddIntoShaped(weights, delta);
      weights := bufs[0];
    }
  }

  // ---------------------------------------------------------------------------
  // Dropout layer
  // ---------------------------------------------------------------------------

  /** `forward` of dropout: input `i` is kept when its draw is at least
      `prob`, and replaced by `value` otherwise. */
  function Masked(x: Vector, u: seq<real>, prob: real, value: real): (r: Vector)
    requires |u| == |x|
    ensures |r| == |x|
  {
    seq(|x|, i requires 0 <= i < |x| => if u[i] >= prob then x[i] else value)
  }

  /** With `prob <= 0` every unit draw keeps its input. */
  lemma MaskedKeepsAll(x: Vector, u: seq<real>, prob: real, value: real)
    requires |u| == |x| && prob <= 0.0 && forall i :: 0 <= i < |u| ==> 0.0 <= u[i] < 1.0
    ensures Masked(x, u, prob, value) == x
  {
  }

  /** With `prob >= 1` no unit draw keeps its input. */
  lemma MaskedDropsAll(x: Vector, u: seq<real>, prob: real, value: real)
    requires |u| == |x| && prob >= 1.0 && forall i :: 0 <= i < |u| ==> 0.0 <= u[i] < 1.0
    ensures Masked(x, u, prob, value) == seq(|x|, i => value)
  {
  }

  /** `dropout(iosize, probability, rng, dropout_value)`: the layer keeps its
      own copy of the generator. */
  class Dropout {
    const size: nat
    const prob: real
    const value: real
    const oracle: nat -> real
    var position: nat

    /** The layer's copy of the generator draws from [0, 1). */
    ghost predicate Valid() {
      UnitDraws(oracle)
    }

    /** `dropout(iosize, probability, rng, dropout_value = 0.0)`. Dafny has no
        default arguments: a caller that omits `dropout_value` passes 0.0. */
    constructor(iosize: nat, probability: real, rng: Rng, dropoutValue: real)
      requires rng.Valid()
      ensures size == iosize && prob == probability && value == dropoutValue
      ensures oracle == rng.oracle && position == rng.position && Valid()
    {
      size := iosize;
      prob := probability;
      value := dropoutValue;
      oracle := rng.oracle;
      position := rng.position;
    }

    /** `forward(x, state)`: one draw per input, written into the first `|x|`
        entries of the state. */
    method Forward(x: Vector, state: Vector) returns (state': Vector)
      requires Valid() && |x| <= |state|
      modifies this
      ensures position == old(position) + |x|
      ensures state' == Masked(x, Draws(oracle, old(position), |x|), prob, value) + state[|x|..]
      ensures prob <= 0.0 ==> state'[..|x|] == x
      ensures prob >= 1.0 ==> state'[..|x|] == seq(|x|, i => value)
    {
      state' := state;
      var i := 0;
      ghost var start := position;
      while i < |x|
        invariant 0 <= i <= |x| && |state'| == |state| && position == start + i
        invariant forall q :: 0 <= q < i ==> state'[q] == if oracle(start + q) >= prob then x[q] else value
        invariant forall q :: i <= q < |state| ==> state'[q] == state[q]
      {
        var u := oracle(position);
        position := position + 1;
        state' := state'[i := if u >= prob then x[i] else value];
        i := i + 1;
      }
      ghost var u := Draws(oracle, start, |x|);
      assert state' == Masked(x, u, prob, value) + state[|x|..];
      assert state'[..|x|] == Masked(x, u, prob, value);
      if prob <= 0.0 {
        MaskedKeepsAll(x, u, prob, value);
      }
      if prob >= 1.0 {
        MaskedDropsAll(x, u, prob, value);
      }
    }

    /** `backward`: copies `prev_error` into the error buffer. */
    method Backward(prevError: Vector, errorMem: Vector) returns (errorMem': Vector)
      requires |prevError| <= |errorMem|
      ensures |errorMem'| == |errorMem|
      ensures errorMem'[..|prevError|] == prevError && errorMem'[|prevError|..] == errorMem[|prevError|..]
    {
      errorMem' := errorMem;
      var i := 0;
      while i < |prevError|
        invariant 0 <= i <= |prevError| && |errorMem'| == |errorMem|
        invariant forall q :: 0 <= q < i ==> errorMem'[q] == prevError[q]
        invariant forall q :: i <= q < |errorMem| ==> errorMem'[q] == errorMem[q]
      {
        errorMem' := errorMem'[i := prevError[i]];
        i := i + 1;
      }
    }
  }
}
