/** The network of nntlib (`net.hpp`): a chain of layers the caller owns,
    with a loss derivative for the output. `forward` runs the layers from
    first to last, each writing its own slot of the state buffer. `backward`
    runs forward through layer `k`, recurses into the remaining layers, and
    then lets layer `k` turn the error of the next slot into its own error
    and gradient. The last layer's next slot holds the loss error. */
module Net {
  import opened Utils
  import opened Layer

  // ---------------------------------------------------------------------------
  // One layer as a value
  // ---------------------------------------------------------------------------

  /** The buffer sizes a layer works with: the row lengths of a fully
      connected layer, or the width of a dropout layer. */
  datatype LayerShape = DenseShape(rows: seq<nat>) | DropShape(size: nat) {
    predicate Valid() {
      DenseShape? ==> |rows| >= 1 && forall j :: 0 <= j < |rows| ==> 1 <= rows[j] == rows[0]
    }

    /** `size_in()` (zero for a shape that is not `Valid`). */
    function SizeIn(): nat {
      match this
      case DenseShape(rows) => if |rows| == 0 || rows[0] == 0 then 0 else rows[0] - 1
      case DropShape(size) => size
    }

    /** `size_out()`. */
    function SizeOut(): nat {
      match this
      case DenseShape(rows) => |rows|
      case DropShape(size) => size
    }
  }

  /** The contents of one layer object. */
  datatype LayerValue =
    | DenseV(weights: Matrix, act: Activation)
    | DropV(size: nat, prob: real, value: real, oracle: nat -> real, position: nat)
  {
    function Shape(): LayerShape {
      match this
      case DenseV(w, _) => DenseShape(seq(|w|, j requires 0 <= j < |w| => |w[j]|))
      case DropV(size, _, _, _, _) => DropShape(size)
    }

    /** `get_weights()`: the weight matrix, empty for dropout. */
    function Weights(): Matrix {
      if DenseV? then weights else []
    }
  }

  lemma DenseFacts(v: LayerValue)
    requires v.DenseV? && v.Shape().Valid()
    ensures Shaped(v.weights) && |v.weights| >= 1
    ensures v.Shape().SizeOut() == |v.weights|
    ensures forall j :: 0 <= j < |v.weights| ==> |v.weights[j]| == v.Shape().SizeIn() + 1
  {
    var rows := v.Shape().rows;
    assert forall j :: 0 <= j < |v.weights| ==> rows[j] == |v.weights[j]|;
  }

  /** What `forward` writes into: a fully connected layer writes `size_out`
      entries, dropout one entry per input. */
  predicate ForwardFits(v: LayerValue, x: Vector, s: Vector) {
    match v
    case DenseV(w, _) => |w| <= |s|
    case DropV(_, _, _, _, _) => |x| <= |s|
  }

  /** `forward` of one layer: the new state slot and the new layer contents
      (dropout advances its generator by one draw per input). */
  function LayerForward(v: LayerValue, x: Vector, s: Vector): (r: (Vector, LayerValue))
    requires v.Shape().Valid() && ForwardFits(v, x, s)
    ensures |r.0| == |s| && r.1.Shape() == v.Shape() && r.1.Weights() == v.Weights()
  {
    match v
    case DenseV(w, act) =>
      DenseFacts(v);
      (DenseForward(w, act, x, s), v)
    case DropV(size, prob, value, oracle, position) =>
      (Masked(x, Draws(oracle, position, |x|), prob, value) + s[|x|..], v.(position := position + |x|))
  }

  predicate LayerBackwardFits(v: LayerValue, x: Vector, prevError: Vector, e: Vector, g: Matrix) {
    match v
    case DenseV(w, _) => BackwardFits(w, x, prevError, e, g)
    case DropV(_, _, _, _, _) => |prevError| <= |e|
  }

  /** `backward` of one layer: the new error slot and gradient slot. */
  function LayerBackward(v: LayerValue, x: Vector, prevError: Vector, e: Vector, g: Matrix): (r: (Vector, Matrix))
    requires v.Shape().Valid() && LayerBackwardFits(v, x, prevError, e, g)
    ensures |r.0| == |e| && |r.1| == |g| && forall j :: 0 <= j < |g| ==> |r.1[j]| == |g[j]|
  {
    match v
    case DenseV(w, act) =>
      DenseFacts(v);
      (DenseError(w, act, x, prevError, e), DenseGradient(w, act, x, prevError, g))
    case DropV(_, _, _, _, _) =>
      (prevError + e[|prevError|..], g)
  }

  /** `update(delta)` of one layer. */
  function LayerUpdate(v: LayerValue, delta: Matrix): (r: LayerValue)
    ensures r.Shape() == v.Shape()
  {
    match v
    case DenseV(w, act) =>
      AddIntoAt(w, delta);
      assert DenseV(AddInto(w, delta), act).Shape().rows == v.Shape().rows;
      DenseV(AddInto(w, delta), act)
    case DropV(_, _, _, _, _) => v
  }

  // ---------------------------------------------------------------------------
  // The network as a value
  // ---------------------------------------------------------------------------

  function ShapesOf(vs: seq<LayerValue>): (sh: seq<LayerShape>)
    ensures |sh| == |vs| && forall k :: 0 <= k < |vs| ==> sh[k] == vs[k].Shape()
  {
    seq(|vs|, k requires 0 <= k < |vs| => vs[k].Shape())
  }

  /** At least one layer, every layer well formed, and the output width of
      each layer the input width of the next. nntlib does not check the
      widths; with other widths its buffers are indexed out of range. */
  predicate Chained(sh: seq<LayerShape>) {
    |sh| >= 1 && (forall k :: 0 <= k < |sh| ==> sh[k].Valid())
    && forall k :: 0 <= k < |sh| - 1 ==> Linked(sh, k)
  }

  /** The output width of layer `k` is the input width of layer `k + 1`. */
  predicate Linked(sh: seq<LayerShape>, k: nat)
    requires k + 1 < |sh|
  {
    sh[k].SizeOut() == sh[k + 1].SizeIn()
  }

  /** The state buffer has one slot of `size_out` entries per layer. */
  predicate StateFits(sh: seq<LayerShape>, state: seq<Vector>) {
    |state| == |sh| && forall k :: 0 <= k < |sh| ==> |state[k]| == sh[k].SizeOut()
  }

  /** The error buffer has one slot of `size_in` entries per layer and a last
      slot of the output width. */
  predicate ErrorFits(sh: seq<LayerShape>, err: seq<Vector>) {
    |sh| >= 1 && |err| == |sh| + 1 && |err[|sh|]| == sh[|sh| - 1].SizeOut()
    && forall k :: 0 <= k < |sh| ==> |err[k]| == sh[k].SizeIn()
  }

  /** The gradient buffer has the shape of the weights of every fully
      connected layer; the slot of a dropout layer is never touched. */
  predicate GradFits(sh: seq<LayerShape>, grad: seq<Matrix>) {
    |grad| == |sh|
    && forall k :: 0 <= k < |sh| && sh[k].DenseShape? ==>
      |grad[k]| == |sh[k].rows| && forall j :: 0 <= j < |grad[k]| ==> |grad[k][j]| == sh[k].rows[j]
  }

  /** Inputs a dropout layer can store. */
  predicate ForwardAccepts(sh: LayerShape, x: Vector) {
    sh.DropShape? ==> |x| <= sh.size
  }

  /** Inputs a layer can propagate back: a fully connected layer writes one
      gradient entry per input. */
  predicate BackwardAccepts(sh: LayerShape, x: Vector) {
    |x| <= sh.SizeIn()
  }

  /** The 3-argument `forward(x, state)` from layer `k` on: the new state
      buffer and the new layer contents. */
  function NetForward(vs: seq<LayerValue>, k: nat, x: Vector, state: seq<Vector>): (r: (seq<Vector>, seq<LayerValue>))
    requires Chained(ShapesOf(vs)) && k < |vs| && StateFits(ShapesOf(vs), state)
    requires ForwardAccepts(vs[k].Shape(), x)
    ensures |r.1| == |vs| && ShapesOf(r.1) == ShapesOf(vs) && StateFits(ShapesOf(vs), r.0)
    ensures forall i :: 0 <= i < k ==> r.0[i] == state[i] && r.1[i] == vs[i]
    decreases |vs| - k
  {
    var sh := ShapesOf(vs);
    var last := |vs| - 1;
    var (y, v) := LayerForward(vs[k], x, state[k]);
    var vs1 := vs[k := v];
    assert ShapesOf(vs1) == sh;
    assert sh[k] == vs[k].Shape() && |y| == sh[k].SizeOut();
    assert k < last ==> sh[k + 1] == vs1[k + 1].Shape() && Linked(sh, k);
    if k == last then (state[k := y], vs1)
    else NetForward(vs1, k + 1, y, state[k := y])
  }

  /** `utils`-free description of the output error loop: position `p` of
      `error` becomes `Loss::df(y[p], t[p])` while both ranges last; the rest
      of the buffer keeps its contents. */
  function LossError(lossDf: (real, real) -> real, y: Vector, t: Vector, e: Vector): (r: Vector)
    ensures |r| == |e|
  {
    seq(|e|, p requires 0 <= p < |e| => if p < |y| && p < |t| then lossDf(y[p], t[p]) else e[p])
  }

  /** The buffers and layer contents after a backward pass. */
  datatype Pass = Pass(state: seq<Vector>, error: seq<Vector>, gradient: seq<Matrix>, layers: seq<LayerValue>)

  /** The output error loop of the last layer, as one step of the pass. */
  function LossStep(sh: seq<LayerShape>, lossDf: (real, real) -> real, y: Vector, t: Vector, p: Pass): (r: Pass)
    requires Chained(sh) && ErrorFits(sh, p.error) && |y| == sh[|sh| - 1].SizeOut()
    ensures ErrorFits(sh, r.error) && r.state == p.state && r.gradient == p.gradient && r.layers == p.layers
    ensures forall i :: 0 <= i < |sh| ==> r.error[i] == p.error[i]
    ensures r.error[|sh|] == LossError(lossDf, y, t, p.error[|sh|])
  {
    p.(error := p.error[|sh| := LossError(lossDf, y, t, p.error[|sh|])])
  }

  lemma BackStepFits(sh: seq<LayerShape>, v: LayerValue, k: nat, x: Vector, p: Pass)
    requires Chained(sh) && k < |sh| && v.Shape() == sh[k] && BackwardAccepts(sh[k], x)
    requires ErrorFits(sh, p.error) && GradFits(sh, p.gradient)
    ensures LayerBackwardFits(v, x, p.error[k + 1], p.error[k], p.gradient[k])
  {
    if k + 1 < |sh| {
      assert Linked(sh, k);
    }
    if v.DenseV? {
      DenseFacts(v);
    }
  }

  /** `backward` of layer `k` on the buffers the rest of the pass left. */
  function BackStep(sh: seq<LayerShape>, v: LayerValue, k: nat, x: Vector, p: Pass): (r: Pass)
    requires Chained(sh) && k < |sh| && v.Shape() == sh[k] && BackwardAccepts(sh[k], x)
    requires ErrorFits(sh, p.error) && GradFits(sh, p.gradient)
    ensures ErrorFits(sh, r.error) && GradFits(sh, r.gradient) && r.state == p.state && r.layers == p.layers
    ensures forall i :: 0 <= i < |p.error| && i != k ==> r.error[i] == p.error[i]
    ensures forall i :: 0 <= i < |p.gradient| && i != k ==> r.gradient[i] == p.gradient[i]
    ensures LayerBackwardFits(v, x, p.error[k + 1], p.error[k], p.gradient[k])
      && (r.error[k], r.gradient[k]) == LayerBackward(v, x, p.error[k + 1], p.error[k], p.gradient[k])
  {
    BackStepFits(sh, v, k, x, p);
    var (e, g) := LayerBackward(v, x, p.error[k + 1], p.error[k], p.gradient[k]);
    p.(error := p.error[k := e], gradient := p.gradient[k := g])
  }

  /** The 7-argument `backward(x, t, state, error_mem, gradient)` from layer
      `k` on: forward through layer `k`, the rest of the pass on its output,
      then layer `k` backward on the error the next slot holds. */
  function NetBackward(vs: seq<LayerValue>, lossDf: (real, real) -> real, k: nat, x: Vector, t: Vector,
                       state: seq<Vector>, err: seq<Vector>, grad: seq<Matrix>): (r: Pass)
    requires Chained(ShapesOf(vs)) && k < |vs|
    requires StateFits(ShapesOf(vs), state) && ErrorFits(ShapesOf(vs), err) && GradFits(ShapesOf(vs), grad)
    requires BackwardAccepts(vs[k].Shape(), x)
    ensures |r.layers| == |vs| && ShapesOf(r.layers) == ShapesOf(vs)
    ensures StateFits(ShapesOf(vs), r.state) && ErrorFits(ShapesOf(vs), r.error) && GradFits(ShapesOf(vs), r.gradient)
    ensures forall i :: 0 <= i < k ==>
      r.state[i] == state[i] && r.error[i] == err[i] && r.gradient[i] == grad[i] && r.layers[i] == vs[i]
    ensures r.error[|vs|] == LossError(lossDf, r.state[|vs| - 1], t, err[|vs|])
    decreases |vs| - k, 1
  {
    var sh := ShapesOf(vs);
    var (y, v) := LayerForward(vs[k], x, state[k]);
    var vs1 := vs[k := v];
    assert ShapesOf(vs1) == sh;
    assert sh[k] == vs[k].Shape() && |y| == sh[k].SizeOut();
    var tail := NetTail(vs1, lossDf, k, t, state[k := y], err, grad);
    assert tail.layers[k] == v;
    BackStep(sh, v, k, x, tail)
  }

  /** What `backward` does once layer `k` has written its output into
      `state[k]`: the rest of the net on that output, or, after the last
      layer, the loss error. */
  function NetTail(vs: seq<LayerValue>, lossDf: (real, real) -> real, k: nat, t: Vector,
                   state: seq<Vector>, err: seq<Vector>, grad: seq<Matrix>): (r: Pass)
    requires Chained(ShapesOf(vs)) && k < |vs|
    requires StateFits(ShapesOf(vs), state) && ErrorFits(ShapesOf(vs), err) && GradFits(ShapesOf(vs), grad)
    ensures |r.layers| == |vs| && ShapesOf(r.layers) == ShapesOf(vs)
    ensures StateFits(ShapesOf(vs), r.state) && ErrorFits(ShapesOf(vs), r.error) && GradFits(ShapesOf(vs), r.gradient)
    ensures forall i :: 0 <= i <= k ==>
      r.state[i] == state[i] && r.error[i] == err[i] && r.gradient[i] == grad[i] && r.layers[i] == vs[i]
    ensures r.error[|vs|] == LossError(lossDf, r.state[|vs| - 1], t, err[|vs|])
    decreases |vs| - k, 0
  {
    var sh := ShapesOf(vs);
    if k == |vs| - 1 then
      LossStep(sh, lossDf, state[k], t, Pass(state, err, grad, vs))
    else
      assert sh[k + 1] == vs[k + 1].Shape() && Linked(sh, k);
      NetBackward(vs, lossDf, k + 1, state[k], t, state, err, grad)
  }

  /** One step of `NetBackward`, named: the pass from layer `k` is layer
      `k`'s forward step, the rest of the pass, and layer `k`'s backward step. */
  lemma NetBackwardStep(vs: seq<LayerValue>, lossDf: (real, real) -> real, k: nat, x: Vector, t: Vector,
                        state: seq<Vector>, err: seq<Vector>, grad: seq<Matrix>, y: Vector, v: LayerValue, tail: Pass)
    requires Chained(ShapesOf(vs)) && k < |vs|
    requires StateFits(ShapesOf(vs), state) && ErrorFits(ShapesOf(vs), err) && GradFits(ShapesOf(vs), grad)
    requires BackwardAccepts(vs[k].Shape(), x)
    requires vs[k].Shape().Valid() && ForwardFits(vs[k], x, state[k]) && (y, v) == LayerForward(vs[k], x, state[k])
    requires ShapesOf(vs[k := v]) == ShapesOf(vs) && StateFits(ShapesOf(vs), state[k := y])
    requires tail == NetTail(vs[k := v], lossDf, k, t, state[k := y], err, grad)
    ensures v.Shape() == ShapesOf(vs)[k] && BackwardAccepts(ShapesOf(vs)[k], x)
    ensures ErrorFits(ShapesOf(vs), tail.error) && GradFits(ShapesOf(vs), tail.gradient)
    ensures NetBackward(vs, lossDf, k, x, t, state, err, grad) == BackStep(ShapesOf(vs), v, k, x, tail)
  {
  }

  /** `get_weights()`: one matrix per layer. */
  function NetWeights(vs: seq<LayerValue>): (w: seq<Matrix>)
    ensures |w| == |vs|
  {
    seq(|vs|, k requires 0 <= k < |vs| => vs[k].Weights())
  }

  /** `update(weights)`: layer `k` receives element `k`. */
  function NetUpdate(vs: seq<LayerValue>, pack: seq<Matrix>): (r: seq<LayerValue>)
    requires |pack| == |vs|
    ensures |r| == |vs| && ShapesOf(r) == ShapesOf(vs)
  {
    var r := seq(|vs|, k requires 0 <= k < |vs| => LayerUpdate(vs[k], pack[k]));
    assert forall k :: 0 <= k < |vs| ==> ShapesOf(r)[k] == ShapesOf(vs)[k];
    r
  }

  /** `allocate_state()`: a zero slot of `size_out` entries per layer. */
  function AllocState(sh: seq<LayerShape>): (s: seq<Vector>)
    ensures StateFits(sh, s)
  {
    seq(|sh|, k requires 0 <= k < |sh| => Zeros(sh[k].SizeOut()))
  }

  /** `allocate_error_storage()`: a zero slot of `size_in` entries per layer
      and one of the output width. */
  function AllocError(sh: seq<LayerShape>): (e: seq<Vector>)
    requires Chained(sh)
    ensures ErrorFits(sh, e)
  {
    seq(|sh|, k requires 0 <= k < |sh| => Zeros(sh[k].SizeIn())) + [Zeros(sh[|sh| - 1].SizeOut())]
  }

  /** `allocate_delta_storage()`: zeros in the shape of every weight matrix. */
  function AllocDelta(vs: seq<LayerValue>): (d: seq<Matrix>)
    ensures GradFits(ShapesOf(vs), d)
  {
    seq(|vs|, k requires 0 <= k < |vs| => ZerosLike(vs[k].Weights()))
  }

  // ---------------------------------------------------------------------------
  // What the passes compute, layer by layer
  // ---------------------------------------------------------------------------

  /** The input of layer `k` in a pass that starts at layer `k0` with `x`. */
  function InputOf(k0: nat, x: Vector, state: seq<Vector>, k: nat): Vector
    requires k0 <= k && (k0 < k ==> k - 1 < |state|)
  {
    if k == k0 then x else state[k - 1]
  }

  /** Forward pipes each layer's output into the next: slot `k` of the new
      state is what layer `k` computes from the slot before it (or from `x`
      for the first layer), and the layer's new contents are what that step
      left. */
  lemma {:induction false} ForwardAt(vs: seq<LayerValue>, k0: nat, x: Vector, state: seq<Vector>, k: nat)
    requires Chained(ShapesOf(vs)) && k0 < |vs| && StateFits(ShapesOf(vs), state)
    requires ForwardAccepts(vs[k0].Shape(), x) && k0 <= k < |vs|
    ensures var r := NetForward(vs, k0, x, state);
      vs[k].Shape().Valid() && ForwardFits(vs[k], InputOf(k0, x, r.0, k), state[k])
      && (r.0[k], r.1[k]) == LayerForward(vs[k], InputOf(k0, x, r.0, k), state[k])
    decreases |vs| - k0
  {
    var sh := ShapesOf(vs);
    var r := NetForward(vs, k0, x, state);
    assert sh[k] == vs[k].Shape();
    var (y, v) := LayerForward(vs[k0], x, state[k0]);
    var vs1 := vs[k0 := v];
    assert ShapesOf(vs1) == sh;
    assert sh[k0] == vs[k0].Shape() && |y| == sh[k0].SizeOut();
    if k0 < |vs| - 1 {
      assert sh[k0 + 1] == vs1[k0 + 1].Shape() && Linked(sh, k0);
      var r1 := NetForward(vs1, k0 + 1, y, state[k0 := y]);
      assert r == r1;
      if k > k0 {
        ForwardAt(vs1, k0 + 1, y, state[k0 := y], k);
        assert InputOf(k0 + 1, y, r1.0, k) == InputOf(k0, x, r.0, k);
      }
    }
  }

  /** `backward` runs exactly the forward pass: its state and layer contents
      are those `forward` leaves. */
  lemma {:induction false} BackwardRunsForward(vs: seq<LayerValue>, lossDf: (real, real) -> real, k0: nat, x: Vector, t: Vector,
                                             state: seq<Vector>, err: seq<Vector>, grad: seq<Matrix>)
    requires Chained(ShapesOf(vs)) && k0 < |vs|
    requires StateFits(ShapesOf(vs), state) && ErrorFits(ShapesOf(vs), err) && GradFits(ShapesOf(vs), grad)
    requires BackwardAccepts(vs[k0].Shape(), x)
    ensures ForwardAccepts(vs[k0].Shape(), x)
    ensures var r := NetBackward(vs, lossDf, k0, x, t, state, err, grad);
      (r.state, r.layers) == NetForward(vs, k0, x, state)
    decreases |vs| - k0
  {
    var sh := ShapesOf(vs);
    assert sh[k0] == vs[k0].Shape();
    var (y, v) := LayerForward(vs[k0], x, state[k0]);
    var vs1 := vs[k0 := v];
    assert ShapesOf(vs1) == sh;
    assert |y| == sh[k0].SizeOut();
    var tail := NetTail(vs1, lossDf, k0, t, state[k0 := y], err, grad);
    NetBackwardStep(vs, lossDf, k0, x, t, state, err, grad, y, v, tail);
    if k0 < |vs| - 1 {
      assert sh[k0 + 1] == vs1[k0 + 1].Shape() && Linked(sh, k0);
      BackwardRunsForward(vs1, lossDf, k0 + 1, y, t, state[k0 := y], err, grad);
    }
  }

  /** Each layer receives as outer error the input error of the layer after
      it, and gradient slot `k` is written by layer `k` alone, from the
      input it saw in the forward pass. */
  lemma {:induction false} BackwardAt(vs: seq<LayerValue>, lossDf: (real, real) -> real, k0: nat, x: Vector, t: Vector,
                                    state: seq<Vector>, err: seq<Vector>, grad: seq<Matrix>, k: nat)
    requires Chained(ShapesOf(vs)) && k0 < |vs|
    requires StateFits(ShapesOf(vs), state) && ErrorFits(ShapesOf(vs), err) && GradFits(ShapesOf(vs), grad)
    requires BackwardAccepts(vs[k0].Shape(), x) && k0 <= k < |vs|
    ensures var r := NetBackward(vs, lossDf, k0, x, t, state, err, grad);
      r.layers[k].Shape().Valid() && LayerBackwardFits(r.layers[k], InputOf(k0, x, r.state, k), r.error[k + 1], err[k], grad[k])
      && (r.error[k], r.gradient[k]) == LayerBackward(r.layers[k], InputOf(k0, x, r.state, k), r.error[k + 1], err[k], grad[k])
    decreases |vs| - k0
  {
    var sh := ShapesOf(vs);
    var r := NetBackward(vs, lossDf, k0, x, t, state, err, grad);
    assert sh[k0] == vs[k0].Shape();
    var (y, v) := LayerForward(vs[k0], x, state[k0]);
    var vs1 := vs[k0 := v];
    assert ShapesOf(vs1) == sh;
    assert |y| == sh[k0].SizeOut();
    var tail := NetTail(vs1, lossDf, k0, t, state[k0 := y], err, grad);
    NetBackwardStep(vs, lossDf, k0, x, t, state, err, grad, y, v, tail);
    if k == k0 {
      BackwardAtFirst(vs, lossDf, k0, x, t, state, err, grad);
    } else {
      assert sh[k0 + 1] == vs1[k0 + 1].Shape() && Linked(sh, k0);
      assert tail == NetBackward(vs1, lossDf, k0 + 1, y, t, state[k0 := y], err, grad);
      BackwardAt(vs1, lossDf, k0 + 1, y, t, state[k0 := y], err, grad, k);
      assert r.state == tail.state && tail.state[k0] == y;
    }
  }

  lemma BackwardAtFirst(vs: seq<LayerValue>, lossDf: (real, real) -> real, k0: nat, x: Vector, t: Vector,
                        state: seq<Vector>, err: seq<Vector>, grad: seq<Matrix>)
    requires Chained(ShapesOf(vs)) && k0 < |vs|
    requires StateFits(ShapesOf(vs), state) && ErrorFits(ShapesOf(vs), err) && GradFits(ShapesOf(vs), grad)
    requires BackwardAccepts(vs[k0].Shape(), x)
    ensures var r := NetBackward(vs, lossDf, k0, x, t, state, err, grad);
      r.layers[k0].Shape().Valid() && LayerBackwardFits(r.layers[k0], x, r.error[k0 + 1], err[k0], grad[k0])
      && (r.error[k0], r.gradient[k0]) == LayerBackward(r.layers[k0], x, r.error[k0 + 1], err[k0], grad[k0])
  {
    var sh := ShapesOf(vs);
    assert sh[k0] == vs[k0].Shape();
    var (y, v) := LayerForward(vs[k0], x, state[k0]);
    var vs1 := vs[k0 := v];
    assert ShapesOf(vs1) == sh;
    var tail := NetTail(vs1, lossDf, k0, t, state[k0 := y], err, grad);
    NetBackwardStep(vs, lossDf, k0, x, t, state, err, grad, y, v, tail);
  }

  /** Forward does not change any weights: only dropout layers change, in
      their generator. */
  lemma ForwardKeepsWeights(vs: seq<LayerValue>, x: Vector, state: seq<Vector>)
    requires Chained(ShapesOf(vs)) && StateFits(ShapesOf(vs), state) && ForwardAccepts(vs[0].Shape(), x)
    ensures NetWeights(NetForward(vs, 0, x, state).1) == NetWeights(vs)
  {
    var r := NetForward(vs, 0, x, state);
    forall k | 0 <= k < |vs|
      ensures NetWeights(r.1)[k] == NetWeights(vs)[k]
    {
      ForwardAt(vs, 0, x, state, k);
    }
  }

  /** With an input of the first layer's width, forward overwrites every
      state slot: the result does not depend on what the buffer held. */
  lemma {:induction false} ForwardIgnoresState(vs: seq<LayerValue>, k0: nat, x: Vector, s1: seq<Vector>, s2: seq<Vector>)
    requires Chained(ShapesOf(vs)) && k0 < |vs| && StateFits(ShapesOf(vs), s1) && StateFits(ShapesOf(vs), s2)
    requires |x| == vs[k0].Shape().SizeIn()
    ensures ForwardAccepts(vs[k0].Shape(), x)
    ensures NetForward(vs, k0, x, s1).1 == NetForward(vs, k0, x, s2).1
    ensures forall i :: k0 <= i < |vs| ==> NetForward(vs, k0, x, s1).0[i] == NetForward(vs, k0, x, s2).0[i]
    decreases |vs| - k0
  {
    var sh := ShapesOf(vs);
    assert sh[k0] == vs[k0].Shape();
    var (y1, v1) := LayerForward(vs[k0], x, s1[k0]);
    var (y2, v2) := LayerForward(vs[k0], x, s2[k0]);
    LayerForwardIgnoresState(vs[k0], x, s1[k0], s2[k0]);
    var vs1 := vs[k0 := v1];
    assert ShapesOf(vs1) == sh;
    assert |y1| == sh[k0].SizeOut();
    if k0 < |vs| - 1 {
      assert sh[k0 + 1] == vs1[k0 + 1].Shape() && Linked(sh, k0);
      ForwardIgnoresState(vs1, k0 + 1, y1, s1[k0 := y1], s2[k0 := y1]);
    }
  }

  lemma LayerForwardIgnoresState(v: LayerValue, x: Vector, s1: Vector, s2: Vector)
    requires v.Shape().Valid() && |x| == v.Shape().SizeIn() && |s1| == |s2| == v.Shape().SizeOut()
    ensures ForwardFits(v, x, s1) && ForwardFits(v, x, s2)
    ensures LayerForward(v, x, s1) == LayerForward(v, x, s2)
  {
    if v.DenseV? {
      DenseFacts(v);
      var w := v.weights;
      forall j | 0 <= j < |s1|
        ensures DenseForward(w, v.act, x, s1)[j] == DenseForward(w, v.act, x, s2)[j]
      {
      }
      assert DenseForward(w, v.act, x, s1) == DenseForward(w, v.act, x, s2);
    } else {
      assert s1[|x|..] == s2[|x|..] == [];
    }
  }

  /** `update` gives layer `k` element `k` of the pack and no other: the new
      weights are the old ones with the pack added slot by slot. */
  lemma UpdateAddsPack(vs: seq<LayerValue>, pack: seq<Matrix>)
    requires |pack| == |vs|
    ensures NetWeights(NetUpdate(vs, pack)) == seq(|vs|, k requires 0 <= k < |vs| => AddInto(NetWeights(vs)[k], pack[k]))
  {
    var lhs := NetWeights(NetUpdate(vs, pack));
    var rhs := seq(|vs|, k requires 0 <= k < |vs| => AddInto(NetWeights(vs)[k], pack[k]));
    forall k | 0 <= k < |vs|
      ensures lhs[k] == rhs[k]
    {
      AddIntoAt(NetWeights(vs)[k], pack[k]);
    }
  }

  /** Adding the zero pack `allocate_delta_storage` returns changes nothing. */
  lemma UpdateZero(vs: seq<LayerValue>)
    ensures NetUpdate(vs, AllocDelta(vs)) == vs
  {
    forall k | 0 <= k < |vs|
      ensures NetUpdate(vs, AllocDelta(vs))[k] == vs[k]
    {
      if vs[k].DenseV? {
        AddZero(vs[k].weights);
      }
    }
  }

  /** The pack `get_weights` returns and the one `allocate_delta_storage`
      returns have the same shape, layer by layer and row by row. */
  lemma PacksMirror(vs: seq<LayerValue>)
    ensures GradFits(ShapesOf(vs), NetWeights(vs))
    ensures forall k :: 0 <= k < |vs| ==> |AllocDelta(vs)[k]| == |NetWeights(vs)[k]|
    ensures forall k, j :: 0 <= k < |vs| && 0 <= j < |NetWeights(vs)[k]| ==> |AllocDelta(vs)[k][j]| == |NetWeights(vs)[k][j]|
  {
    forall k | 0 <= k < |vs|
      ensures ShapesOf(vs)[k] == vs[k].Shape()
    {
    }
  }

  // ---------------------------------------------------------------------------
  // The network object
  // ---------------------------------------------------------------------------

  /** A layer the caller owns, held by reference. */
  datatype Slot = Dense(fc: FullyConnected) | Drop(d: Dropout) {
    function Obj(): object {
      match this
      case Dense(fc) => fc
      case Drop(d) => d
    }

    function Value(): LayerValue
      reads Obj()
    {
      match this
      case Dense(fc) => DenseV(fc.weights, fc.act)
      case Drop(d) => DropV(d.size, d.prob, d.value, d.oracle, d.position)
    }
  }

  lemma SameShapes(vs: seq<LayerValue>, k: nat, v: LayerValue)
    requires k < |vs| && v.Shape() == vs[k].Shape()
    ensures ShapesOf(vs[k := v]) == ShapesOf(vs)
  {
  }

  function Objects(slots: seq<Slot>): set<object> {
    set k | 0 <= k < |slots| :: slots[k].Obj()
  }

  function Values(slots: seq<Slot>): (vs: seq<LayerValue>)
    reads Objects(slots)
    ensures |vs| == |slots|
  {
    seq(|slots|, k requires 0 <= k < |slots| reads Objects(slots) => slots[k].Value())
  }

  /** Every dropout layer draws from [0, 1). */
  ghost predicate UnitOracles(slots: seq<Slot>) {
    forall k :: 0 <= k < |slots| && slots[k].Drop? ==> slots[k].d.Valid()
  }

  /** No layer object is held twice. */
  predicate Distinct(slots: seq<Slot>) {
    forall i, j :: 0 <= i < j < |slots| ==> slots[i].Obj() != slots[j].Obj()
  }

  /** The output error loop of the single-layer `backward`. */
  method WriteLossError(lossDf: (real, real) -> real, y: Vector, t: Vector, e: Vector) returns (e': Vector)
    requires Min(|y|, |t|) <= |e|
    ensures e' == LossError(lossDf, y, t, e)
  {
    e' := e;
    var pos := 0;
    while pos < |y| && pos < |t|
      invariant 0 <= pos <= Min(|y|, |t|) && |e'| == |e|
      invariant forall p :: 0 <= p < |e| ==> e'[p] == if p < pos then lossDf(y[p], t[p]) else e[p]
    {
      e' := e'[pos := lossDf(y[pos], t[pos])];
      pos := pos + 1;
    }
  }

  /** `net<T, Loss, Layers...>`: the layers, held by reference, and the
      derivative of the loss. */
  class Net {
    const slots: seq<Slot>
    const lossDf: (real, real) -> real

    ghost predicate Valid()
      reads Objects(slots)
    {
      Distinct(slots) && Chained(ShapesOf(Values(slots))) && UnitOracles(slots)
    }

    constructor(layers: seq<Slot>, lossDf: (real, real) -> real)
      requires Distinct(layers) && Chained(ShapesOf(Values(layers))) && UnitOracles(layers)
      ensures slots == layers && this.lossDf == lossDf && Valid()
    {
      slots := layers;
      this.lossDf := lossDf;
      new;
      assert Values(slots) == old(Values(layers));
    }

    /** `forward` of layer `k` into its state slot. */
    method ForwardLayer(k: nat, x: Vector, s: Vector) returns (y: Vector)
      requires Distinct(slots) && UnitOracles(slots) && k < |slots|
      requires Values(slots)[k].Shape().Valid() && ForwardFits(Values(slots)[k], x, s)
      modifies slots[k].Obj()
      ensures (y, Values(slots)[k]) == LayerForward(old(Values(slots)[k]), x, s)
      ensures Values(slots) == old(Values(slots))[k := Values(slots)[k]]
    {
      ghost var vs := Values(slots);
      match slots[k] {
        case Dense(fc) =>
          DenseFacts(vs[k]);
          y := fc.Forward(x, s);
        case Drop(d) =>
          y := d.Forward(x, s);
      }
      forall i | 0 <= i < |slots| && i != k
        ensures Values(slots)[i] == vs[i]
      {
        assert slots[i].Obj() != slots[k].Obj();
      }
      assert Values(slots) == vs[k := Values(slots)[k]];
    }

    /** The 3-argument `forward(x, state)` from layer `k` on; `sh` names the
        layer shapes, which the pass keeps. */
    method ForwardFrom(k: nat, x: Vector, state: seq<Vector>, ghost sh: seq<LayerShape>) returns (state': seq<Vector>)
      requires Distinct(slots) && UnitOracles(slots) && Chained(sh) && ShapesOf(Values(slots)) == sh && k < |sh|
      requires StateFits(sh, state) && ForwardAccepts(sh[k], x)
      modifies Objects(slots)
      ensures ShapesOf(Values(slots)) == sh
      ensures (state', Values(slots)) == NetForward(old(Values(slots)), k, x, state)
      decreases |slots| - k
    {
      ghost var vs := Values(slots);
      assert sh[k] == vs[k].Shape();
      var y := ForwardLayer(k, x, state[k]);
      SameShapes(vs, k, Values(slots)[k]);
      state' := state[k := y];
      if k < |slots| - 1 {
        assert Linked(sh, k);
        state' := ForwardFrom(k + 1, y, state', sh);
      }
    }

    /** `forward(x, state)`: every layer in order, each into its own slot. */
    method Forward(x: Vector, state: seq<Vector>) returns (state': seq<Vector>)
      requires Valid() && StateFits(ShapesOf(Values(slots)), state) && ForwardAccepts(Values(slots)[0].Shape(), x)
      modifies Objects(slots)
      ensures Valid()
      ensures (state', Values(slots)) == NetForward(old(Values(slots)), 0, x, state)
    {
      state' := ForwardFrom(0, x, state, ShapesOf(Values(slots)));
    }

    /** `forward(x)`: a fresh state buffer, and the output of the last layer. */
    method Predict(x: Vector) returns (y: Vector)
      requires Valid() && ForwardAccepts(Values(slots)[0].Shape(), x)
      modifies Objects(slots)
      ensures Valid()
      ensures var r := NetForward(old(Values(slots)), 0, x, AllocState(ShapesOf(old(Values(slots)))));
        y == r.0[|slots| - 1] && Values(slots) == r.1
    {
      var state := Forward(x, AllocState(ShapesOf(Values(slots))));
      y := state[|slots| - 1];
    }

    /** `backward` of layer `k`; it changes no layer. */
    method BackwardLayer(k: nat, x: Vector, prevError: Vector, e: Vector, g: Matrix) returns (e': Vector, g': Matrix)
      requires k < |slots| && Values(slots)[k].Shape().Valid() && LayerBackwardFits(Values(slots)[k], x, prevError, e, g)
      ensures (e', g') == LayerBackward(Values(slots)[k], x, prevError, e, g)
      ensures Values(slots) == old(Values(slots))
    {
      ghost var v := Values(slots)[k];
      match slots[k] {
        case Dense(fc) =>
          DenseFacts(v);
          e', g' := fc.Backward(x, prevError, e, g);
        case Drop(d) =>
          e' := d.Backward(prevError, e);
          assert e' == e'[..|prevError|] + e'[|prevError|..];
          g' := g;
      }
    }

    /** The 7-argument `backward(x, t, state, error_mem, gradient)` from
        layer `k` on; `sh` names the layer shapes and `vs` the layer
        contents on entry. */
    method BackwardFrom(k: nat, x: Vector, t: Vector, state: seq<Vector>, err: seq<Vector>, grad: seq<Matrix>,
                        ghost sh: seq<LayerShape>, ghost vs: seq<LayerValue>)
        returns (state': seq<Vector>, err': seq<Vector>, grad': seq<Matrix>)
      requires Distinct(slots) && UnitOracles(slots) && Chained(sh) && vs == Values(slots) && ShapesOf(vs) == sh && k < |sh|
      requires StateFits(sh, state) && ErrorFits(sh, err) && GradFits(sh, grad) && BackwardAccepts(sh[k], x)
      modifies Objects(slots)
      ensures ShapesOf(Values(slots)) == sh
      ensures Pass(state', err', grad', Values(slots)) == NetBackward(vs, lossDf, k, x, t, state, err, grad)
      decreases |slots| - k, 1
    {
      assert sh[k] == vs[k].Shape();
      var y := ForwardLayer(k, x, state[k]);
      ghost var v := Values(slots)[k];
      SameShapes(vs, k, v);
      state', err', grad' := BackwardTail(k, t, state[k := y], err, grad, sh, Values(slots));
      ghost var tail := Pass(state', err', grad', Values(slots));
      NetBackwardStep(vs, lossDf, k, x, t, state, err, grad, y, v, tail);
      BackStepFits(sh, v, k, x, tail);
      var e, g := BackwardLayer(k, x, err'[k + 1], err'[k], grad'[k]);
      assert Values(slots) == tail.layers;
      err' := err'[k := e];
      grad' := grad'[k := g];
    }

    /** What `backward` does once layer `k` has written its output into
        `state[k]`: the rest of the net, or the loss error loop after the
        last layer. */
    method BackwardTail(k: nat, t: Vector, state: seq<Vector>, err: seq<Vector>, grad: seq<Matrix>,
                        ghost sh: seq<LayerShape>, ghost vs: seq<LayerValue>)
        returns (state': seq<Vector>, err': seq<Vector>, grad': seq<Matrix>)
      requires Distinct(slots) && UnitOracles(slots) && Chained(sh) && vs == Values(slots) && ShapesOf(vs) == sh && k < |sh|
      requires StateFits(sh, state) && ErrorFits(sh, err) && GradFits(sh, grad)
      modifies Objects(slots)
      ensures ShapesOf(Values(slots)) == sh
      ensures Pass(state', err', grad', Values(slots)) == NetTail(vs, lossDf, k, t, state, err, grad)
      decreases |slots| - k, 0
    {
      if k == |slots| - 1 {
        var e := WriteLossError(lossDf, state[k], t, err[|slots|]);
        state', err', grad' := state, err[|slots| := e], grad;
      } else {
        assert sh[k + 1] == vs[k + 1].Shape() && Linked(sh, k);
        state', err', grad' := BackwardFrom(k + 1, state[k], t, state, err, grad, sh, vs);
      }
    }

    /** `backward(x, t, state, error_mem, gradient)`: the buffers after the
        pass; `error_mem[0]` is the error at the input. */
    method Backward(x: Vector, t: Vector, state: seq<Vector>, err: seq<Vector>, grad: seq<Matrix>)
        returns (state': seq<Vector>, err': seq<Vector>, grad': seq<Matrix>)
      requires Valid()
      requires StateFits(ShapesOf(Values(slots)), state) && ErrorFits(ShapesOf(Values(slots)), err)
      requires GradFits(ShapesOf(Values(slots)), grad) && BackwardAccepts(Values(slots)[0].Shape(), x)
      modifies Objects(slots)
      ensures Valid()
      ensures Pass(state', err', grad', Values(slots)) == NetBackward(old(Values(slots)), lossDf, 0, x, t, state, err, grad)
    {
      state', err', grad' := BackwardFrom(0, x, t, state, err, grad, ShapesOf(Values(slots)), Values(slots));
    }

    /** `update(weights)` from layer `k` on. */
    method UpdateFrom(k: nat, pack: seq<Matrix>)
      requires Valid() && k <= |slots| == |pack|
      modifies Objects(slots)
      ensures Valid() && |Values(slots)| == |slots|
      ensures forall i :: 0 <= i < k ==> Values(slots)[i] == old(Values(slots))[i]
      ensures forall i :: k <= i < |slots| ==> Values(slots)[i] == LayerUpdate(old(Values(slots))[i], pack[i])
      decreases |slots| - k
    {
      if k < |slots| {
        ghost var vs := Values(slots);
        assert ShapesOf(vs)[k] == vs[k].Shape();
        match slots[k] {
          case Dense(fc) =>
            DenseFacts(vs[k]);
            fc.Update(pack[k]);
          case Drop(d) =>
        }
        forall i | 0 <= i < |slots| && i != k
          ensures Values(slots)[i] == vs[i]
        {
          assert slots[i].Obj() != slots[k].Obj();
        }
        assert Values(slots)[k] == LayerUpdate(vs[k], pack[k]);
        assert ShapesOf(Values(slots)) == ShapesOf(vs);
        UpdateFrom(k + 1, pack);
      }
    }

    /** `update(weights)`: layer `k` receives element `k` of the pack. */
    method Update(pack: seq<Matrix>)
      requires Valid() && |pack| == |slots|
      modifies Objects(slots)
      ensures Valid()
      ensures Values(slots) == NetUpdate(old(Values(slots)), pack)
    {
      UpdateFrom(0, pack);
    }
  }
}
