/** The packs `training.hpp` passes around. `Net::weights_t` is a tuple with
    one matrix per layer: the weights of a fully connected layer, or the empty
    matrix of a dropout layer. This module gives their shape and the passes
    the trainer makes over them: summing gradients, scaling, and L2 decay. */
module Packs {
  import opened Utils
  import opened Layer
  import opened Net

  type Pack = seq<Matrix>

  // ---------------------------------------------------------------------------
  // Shapes
  // ---------------------------------------------------------------------------

  /** Row lengths of every matrix of a pack. */
  function PackShape(p: Pack): seq<seq<nat>> {
    seq(|p|, k requires 0 <= k < |p| => seq(|p[k]|, j requires 0 <= j < |p[k]| => |p[k][j]|))
  }

  /** The shape `get_weights()` has for layers of shapes `sh`. */
  function WeightShape(sh: seq<LayerShape>): seq<seq<nat>> {
    seq(|sh|, k requires 0 <= k < |sh| => if sh[k].DenseShape? then sh[k].rows else [])
  }

  /** A pack with exactly the shape of the weights of layers `sh`. */
  predicate Mirrors(sh: seq<LayerShape>, p: Pack) {
    PackShape(p) == WeightShape(sh)
  }

  /** Two packs of the same lengths, matrix by matrix and row by row. */
  predicate Congruent(p: Pack, q: Pack) {
    |p| == |q| && (forall k :: 0 <= k < |p| ==> |p[k]| == |q[k]|)
    && forall k, j :: 0 <= k < |p| && 0 <= j < |p[k]| ==> |p[k][j]| == |q[k][j]|
  }

  /** Two packs of one shape agree in every length. */
  lemma SameShape(p: Pack, q: Pack)
    requires PackShape(p) == PackShape(q)
    ensures Congruent(p, q)
  {
    assert |PackShape(p)| == |PackShape(q)|;
    forall k | 0 <= k < |p|
      ensures |p[k]| == |q[k]| && forall j :: 0 <= j < |p[k]| ==> |p[k][j]| == |q[k][j]|
    {
      assert |PackShape(p)[k]| == |PackShape(q)[k]|;
      forall j | 0 <= j < |p[k]| ensures |p[k][j]| == |q[k][j]| {
        assert PackShape(p)[k][j] == PackShape(q)[k][j];
      }
    }
  }

  /** A pack of the same row lengths as `p` has the shape of `p`. */
  lemma ShapeFromLengths(p: Pack, q: Pack)
    requires Congruent(p, q)
    ensures PackShape(p) == PackShape(q)
  {
    forall k | 0 <= k < |p| ensures PackShape(p)[k] == PackShape(q)[k] { }
  }

  /** Two packs of the weights' shape have the same lengths. */
  lemma MirrorsCongruent(sh: seq<LayerShape>, p: Pack, q: Pack)
    requires Mirrors(sh, p) && Mirrors(sh, q)
    ensures Congruent(p, q) && |p| == |sh|
  {
    assert |PackShape(p)| == |p|;
    SameShape(p, q);
  }

  /** A pack of the lengths of one of the weights' shape has that shape too. */
  lemma MirrorsCarry(sh: seq<LayerShape>, p: Pack, q: Pack)
    requires Mirrors(sh, p) && Congruent(q, p)
    ensures Mirrors(sh, q)
  {
    ShapeFromLengths(q, p);
  }

  /** Having the same lengths is transitive. */
  lemma CongruentTrans(p: Pack, q: Pack, s: Pack)
    requires Congruent(p, q) && Congruent(q, s)
    ensures Congruent(p, s)
  {
  }

  /** `get_weights()` has the weights' shape. */
  lemma WeightsMirror(vs: seq<LayerValue>)
    ensures Mirrors(ShapesOf(vs), NetWeights(vs))
  {
    forall k | 0 <= k < |vs|
      ensures PackShape(NetWeights(vs))[k] == WeightShape(ShapesOf(vs))[k]
    {
    }
  }

  /** `allocate_delta_storage()` has the weights' shape. */
  lemma AllocDeltaMirrors(vs: seq<LayerValue>)
    ensures Mirrors(ShapesOf(vs), AllocDelta(vs))
  {
    forall k | 0 <= k < |vs|
      ensures PackShape(AllocDelta(vs))[k] == WeightShape(ShapesOf(vs))[k]
    {
    }
  }

  /** Slot `k` of the gradient buffer after `backward`: a fully connected
      layer writes rows of its own shape, a dropout layer leaves the slot alone. */
  lemma BackwardGradientSlot(vs: seq<LayerValue>, lossDf: (real, real) -> real, x: Vector, t: Vector,
                             state: seq<Vector>, err: seq<Vector>, grad: Pack, k: nat)
    requires Chained(ShapesOf(vs)) && k < |vs|
    requires StateFits(ShapesOf(vs), state) && ErrorFits(ShapesOf(vs), err) && GradFits(ShapesOf(vs), grad)
    requires BackwardAccepts(vs[0].Shape(), x) && Mirrors(ShapesOf(vs), grad)
    ensures |NetBackward(vs, lossDf, 0, x, t, state, err, grad).gradient| == |vs|
    ensures PackShape(NetBackward(vs, lossDf, 0, x, t, state, err, grad).gradient)[k] == WeightShape(ShapesOf(vs))[k]
  {
    var sh := ShapesOf(vs);
    var r := NetBackward(vs, lossDf, 0, x, t, state, err, grad);
    BackwardAt(vs, lossDf, 0, x, t, state, err, grad, k);
    assert ShapesOf(r.layers)[k] == sh[k];
    if sh[k].DropShape? {
      assert r.gradient[k] == grad[k];
      assert PackShape(grad)[k] == WeightShape(sh)[k];
    }
  }

  /** `backward` keeps the gradient buffer in the weights' shape. */
  lemma BackwardGradientMirrors(vs: seq<LayerValue>, lossDf: (real, real) -> real, x: Vector, t: Vector,
                                state: seq<Vector>, err: seq<Vector>, grad: Pack)
    requires Chained(ShapesOf(vs))
    requires StateFits(ShapesOf(vs), state) && ErrorFits(ShapesOf(vs), err) && GradFits(ShapesOf(vs), grad)
    requires BackwardAccepts(vs[0].Shape(), x) && Mirrors(ShapesOf(vs), grad)
    ensures Mirrors(ShapesOf(vs), NetBackward(vs, lossDf, 0, x, t, state, err, grad).gradient)
  {
    var r := NetBackward(vs, lossDf, 0, x, t, state, err, grad);
    forall k | 0 <= k < |vs|
      ensures PackShape(r.gradient)[k] == WeightShape(ShapesOf(vs))[k]
    {
      BackwardGradientSlot(vs, lossDf, x, t, state, err, grad, k);
    }
  }

  /** Number of entries in rows of lengths `rows`. */
  function RowsCount(rows: seq<nat>): nat {
    if rows == [] then 0 else RowsCount(rows[..|rows| - 1]) + rows[|rows| - 1]
  }

  /** Number of entries of a pack of shape `s`. */
  function Count(s: seq<seq<nat>>): nat {
    if s == [] then 0 else Count(s[..|s| - 1]) + RowsCount(s[|s| - 1])
  }

  // ---------------------------------------------------------------------------
  // Gradient accumulation (`train_impl`, the `tuple_join` of `+=`)
  // ---------------------------------------------------------------------------

  /** The joined callback of the accumulation: `lhs += rhs` entry by entry,
      through the two `multi_foreach` passes of `update`. */
  function AddLayer(u: (), ms: seq<Matrix>): ((), seq<Matrix>) {
    (u, if |ms| == 2 then [AddInto(ms[0], ms[1]), ms[1]] else ms)
  }

  lemma AddLayerPreserving()
    ensures JoinPreserving(AddLayer)
  {
  }

  /** `gradients_sum += gradients`. */
  function PackAdd(sum: Pack, g: Pack): Pack
    requires 1 <= |sum| <= |g|
  {
    AddLayerPreserving();
    TupleJoin(AddLayer, (), [sum, g]).1[0]
  }

  /** The accumulation adds entry by entry where both packs have an entry and
      keeps the rest of the sum. */
  lemma PackAddAt(sum: Pack, g: Pack)
    requires 1 <= |sum| <= |g|
    ensures |PackAdd(sum, g)| == |sum|
    ensures forall k :: 0 <= k < |sum| ==> PackAdd(sum, g)[k] == AddInto(sum[k], g[k])
  {
    AddLayerPreserving();
    var h := (ms: seq<Matrix>) => if |ms| == 2 then [AddInto(ms[0], ms[1]), ms[1]] else ms;
    TupleJoinPure(AddLayer, h, (), [sum, g]);
    forall k | 0 <= k < |sum|
      ensures PackAdd(sum, g)[k] == AddInto(sum[k], g[k])
    {
      assert Column([sum, g], k) == [sum[k], g[k]];
    }
  }

  /** Summing two packs of one shape: the shape stays, the entries add. */
  lemma PackAddEntries(sum: Pack, g: Pack)
    requires 1 <= |sum| && Congruent(sum, g)
    ensures Congruent(PackAdd(sum, g), sum)
    ensures forall k, j, i :: 0 <= k < |sum| && 0 <= j < |sum[k]| && 0 <= i < |sum[k][j]| ==>
      PackAdd(sum, g)[k][j][i] == sum[k][j][i] + g[k][j][i]
  {
    PackAddAt(sum, g);
    forall k | 0 <= k < |sum| {
      AddIntoAt(sum[k], g[k]);
    }
  }

  /** Gradients of one common shape, as a batch holds them. */
  predicate Uniform(gs: seq<Pack>) {
    |gs| >= 1 && |gs[0]| >= 1 && forall q :: 0 <= q < |gs| ==> Congruent(gs[q], gs[0])
  }

  /** The batch sum: the gradients added up in the order they were computed. */
  function PackSum(gs: seq<Pack>): (r: Pack)
    requires Uniform(gs)
    ensures Congruent(r, gs[0])
  {
    if |gs| == 1 then gs[0]
    else
      var init := gs[..|gs| - 1];
      assert Uniform(init) && init[0] == gs[0];
      var s := PackSum(init);
      PackAddEntries(s, gs[|gs| - 1]);
      PackAdd(s, gs[|gs| - 1])
  }

  /** The batch sum grows by one gradient at a time. */
  lemma PackSumSnoc(gs: seq<Pack>, g: Pack)
    requires Uniform(gs) && Uniform(gs + [g])
    ensures 1 <= |PackSum(gs)| <= |g|
    ensures PackSum(gs + [g]) == PackAdd(PackSum(gs), g)
  {
    assert (gs + [g])[..|gs|] == gs;
    assert Congruent((gs + [g])[|gs|], (gs + [g])[0]);
  }

  /** One turn of the batch sum with gradient `g`: a turn that opens a batch
      (`opens`) starts the sum at `g`, any other adds `g` to the sum so far. */
  predicate BatchTurn(opens: bool, g: Pack, before: Pack, after: Pack) {
    (opens ==> after == g) && (!opens ==> 1 <= |before| <= |g| && after == PackAdd(before, g))
  }

  /** The gradients of `gs` from `lo` on have the weights' shape and add
      up to `sum`. */
  predicate OpenBatch(sh: seq<LayerShape>, gs: seq<Pack>, lo: int, sum: Pack) {
    0 <= lo < |gs| && Uniform(gs[lo..]) && Mirrors(sh, gs[lo]) && sum == PackSum(gs[lo..])
  }

  /** A turn that opens a batch leaves its gradient alone in it. */
  lemma FreshBatch(sh: seq<LayerShape>, gs: seq<Pack>, g: Pack)
    requires Mirrors(sh, g) && |g| >= 1
    ensures OpenBatch(sh, gs + [g], |gs|, g)
  {
    assert (gs + [g])[|gs|..] == [g];
  }

  /** Any other turn adds its gradient to the open batch. */
  lemma GrowBatch(sh: seq<LayerShape>, gs: seq<Pack>, g: Pack, lo: int, s: Pack)
    requires Mirrors(sh, g) && OpenBatch(sh, gs, lo, s)
    ensures 1 <= |s| <= |g| && OpenBatch(sh, gs + [g], lo, PackAdd(s, g))
  {
    var open := gs[lo..];
    assert (gs + [g])[lo..] == open + [g];
    assert (gs + [g])[lo] == gs[lo] == open[0];
    MirrorsCongruent(sh, g, gs[lo]);
    assert Uniform(open + [g]) by {
      forall q | 0 <= q < |open + [g]|
        ensures Congruent((open + [g])[q], (open + [g])[0])
      {
        if q < |open| {
          assert (open + [g])[q] == open[q];
        }
      }
    }
    PackSumSnoc(open, g);
  }

  /** A turn carries the open batch of `gs` over to `gs + [g]`: the sum
      `before` of the gradients from `lo'` on becomes the sum `after` of
      those from `lo` on, where `lo` is the new gradient's own index when
      the turn opens a batch. */
  lemma BatchStep(sh: seq<LayerShape>, opens: bool, gs: seq<Pack>, g: Pack, lo: int, lo': int, before: Pack, after: Pack)
    requires Mirrors(sh, g) && |g| >= 1 && BatchTurn(opens, g, before, after)
    requires opens ==> lo == |gs|
    requires !opens ==> lo == lo' && OpenBatch(sh, gs, lo', before)
    ensures OpenBatch(sh, gs + [g], lo, after)
  {
    if opens {
      FreshBatch(sh, gs, g);
    } else {
      GrowBatch(sh, gs, g, lo, before);
    }
  }

  /** Entry `[k][j][i]` summed over the first `n` packs. */
  function EntrySum(gs: seq<Pack>, k: nat, j: nat, i: nat, n: nat): real
    requires n <= |gs| && forall q :: 0 <= q < n ==> k < |gs[q]| && j < |gs[q][k]| && i < |gs[q][k][j]|
  {
    if n == 0 then 0.0 else EntrySum(gs, k, j, i, n - 1) + gs[n - 1][k][j][i]
  }

  /** An index of the first pack of a uniform batch is an index of all of them. */
  predicate InBatch(gs: seq<Pack>, k: nat, j: nat, i: nat)
    requires Uniform(gs)
  {
    k < |gs[0]| && j < |gs[0][k]| && i < |gs[0][k][j]|
  }

  /** The accumulation step at one entry: the last gradient is added to the
      sum of the ones before it. */
  lemma PackSumStep(gs: seq<Pack>, k: nat, j: nat, i: nat)
    requires Uniform(gs) && |gs| > 1 && InBatch(gs, k, j, i)
    ensures Uniform(gs[..|gs| - 1]) && InBatch(gs[..|gs| - 1], k, j, i)
    ensures k < |gs[|gs| - 1]| && j < |gs[|gs| - 1][k]| && i < |gs[|gs| - 1][k][j]|
    ensures PackSum(gs)[k][j][i] == PackSum(gs[..|gs| - 1])[k][j][i] + gs[|gs| - 1][k][j][i]
  {
    var init := gs[..|gs| - 1];
    assert Uniform(init) && init[0] == gs[0];
    assert Congruent(gs[|gs| - 1], gs[0]);
    PackAddEntries(PackSum(init), gs[|gs| - 1]);
  }

  /** Entry by entry, the batch sum is the sum of the batch's gradients. */
  lemma {:induction false} PackSumAt(gs: seq<Pack>, k: nat, j: nat, i: nat)
    requires Uniform(gs) && InBatch(gs, k, j, i)
    ensures forall q :: 0 <= q < |gs| ==> k < |gs[q]| && j < |gs[q][k]| && i < |gs[q][k][j]|
    ensures PackSum(gs)[k][j][i] == EntrySum(gs, k, j, i, |gs|)
  {
    assert forall q :: 0 <= q < |gs| ==> Congruent(gs[q], gs[0]);
    if |gs| > 1 {
      PackSumStep(gs, k, j, i);
      PackSumAt(gs[..|gs| - 1], k, j, i);
      EntrySumPrefix(gs, k, j, i, |gs| - 1);
    }
  }

  lemma {:induction false} EntrySumPrefix(gs: seq<Pack>, k: nat, j: nat, i: nat, n: nat)
    requires n < |gs| && forall q :: 0 <= q <= n ==> k < |gs[q]| && j < |gs[q][k]| && i < |gs[q][k][j]|
    ensures EntrySum(gs[..n], k, j, i, n) == EntrySum(gs, k, j, i, n)
  {
    if n > 0 {
      assert gs[..n][..n - 1] == gs[..n - 1];
      EntrySumPrefix(gs[..n], k, j, i, n - 1);
      EntrySumPrefix(gs, k, j, i, n - 1);
    }
  }

  // ---------------------------------------------------------------------------
  // Scaling (`prepare_and_commit_update`: `wji *= -round_factor / batch_size`)
  // ---------------------------------------------------------------------------

  function ScaledRow(r: Vector, c: real): (r': Vector)
    ensures |r'| == |r|
  {
    seq(|r|, i requires 0 <= i < |r| => r[i] * c)
  }

  function ScaledMatrix(m: Matrix, c: real): (m': Matrix)
    ensures |m'| == |m|
  {
    seq(|m|, j requires 0 <= j < |m| => ScaledRow(m[j], c))
  }

  /** Every entry of the pack multiplied by `c`. */
  function ScaledPack(p: Pack, c: real): (p': Pack)
    ensures |p'| == |p|
  {
    seq(|p|, k requires 0 <= k < |p| => ScaledMatrix(p[k], c))
  }

  /** Scaling keeps the shape. */
  lemma ScaledShape(p: Pack, c: real)
    ensures Congruent(ScaledPack(p, c), p) && PackShape(ScaledPack(p, c)) == PackShape(p)
  {
    ShapeFromLengths(ScaledPack(p, c), p);
  }

  /** One entry of the scaled pack. */
  lemma ScaledEntry(p: Pack, c: real, k: nat, j: nat, i: nat)
    requires k < |p| && j < |p[k]| && i < |p[k][j]|
    ensures Congruent(ScaledPack(p, c), p)
    ensures ScaledPack(p, c)[k][j][i] == p[k][j][i] * c
  {
    ScaledShape(p, c);
  }

  /** Scaling by `a`, then by `b`, is scaling by `a * b`. */
  lemma ScaledTwice(p: Pack, a: real, b: real)
    ensures ScaledPack(ScaledPack(p, a), b) == ScaledPack(p, a * b)
  {
    forall k, j, i | 0 <= k < |p| && 0 <= j < |p[k]| && 0 <= i < |p[k][j]|
      ensures ScaledPack(ScaledPack(p, a), b)[k][j][i] == ScaledPack(p, a * b)[k][j][i]
    {
      calc {
        ScaledPack(ScaledPack(p, a), b)[k][j][i];
        (p[k][j][i] * a) * b;
        p[k][j][i] * (a * b);
      }
    }
    forall k | 0 <= k < |p| ensures ScaledPack(ScaledPack(p, a), b)[k] == ScaledPack(p, a * b)[k] {
      forall j | 0 <= j < |p[k]| ensures ScaledPack(ScaledPack(p, a), b)[k][j] == ScaledPack(p, a * b)[k][j] { }
    }
  }

  /** The `tuple_apply` callback of the scaling pass. */
  function ScaleLayer(c: real): ((), Matrix) -> ((), Matrix) {
    (u: (), m: Matrix) => (u, ScaledMatrix(m, c))
  }

  /** The scaling pass visits every layer once: it is `ScaledPack`. */
  lemma ScaleIsTupleApply(p: Pack, c: real)
    requires |p| >= 1
    ensures TupleApply(p, ScaleLayer(c), ()).1 == ScaledPack(p, c)
  {
    TupleApplyPure(p, ScaleLayer(c), (m: Matrix) => ScaledMatrix(m, c), ());
  }

  method ScaleRow(r: Vector, c: real) returns (r': Vector)
    ensures r' == ScaledRow(r, c)
  {
    r' := r;
    var i := 0;
    while i < |r'|
      invariant 0 <= i <= |r'| == |r|
      invariant forall q :: 0 <= q < |r| ==> r'[q] == if q < i then r[q] * c else r[q]
    {
      r' := r'[i := r'[i] * c];
      i := i + 1;
    }
    assert forall q :: 0 <= q < |r| ==> r'[q] == ScaledRow(r, c)[q];
  }

  method ScaleMatrix(m: Matrix, c: real) returns (m': Matrix)
    ensures m' == ScaledMatrix(m, c)
  {
    m' := m;
    var j := 0;
    while j < |m'|
      invariant 0 <= j <= |m'| == |m|
      invariant forall q :: 0 <= q < |m| ==> m'[q] == if q < j then ScaledRow(m[q], c) else m[q]
    {
      var row := ScaleRow(m'[j], c);
      m' := m'[j := row];
      j := j + 1;
    }
  }

  /** The scaling pass of `prepare_and_commit_update`: `tuple_apply` from the
      last layer down, each matrix row by row. */
  method ScalePack(p: Pack, c: real) returns (p': Pack)
    ensures p' == ScaledPack(p, c)
  {
    p' := p;
    var k := |p|;
    while k > 0
      invariant 0 <= k <= |p| == |p'|
      invariant forall q :: 0 <= q < |p| ==> p'[q] == if q >= k then ScaledMatrix(p[q], c) else p[q]
    {
      k := k - 1;
      var m := ScaleMatrix(p'[k], c);
      p' := p'[k := m];
    }
  }

  // ---------------------------------------------------------------------------
  // L2 decay (`prepare_and_commit_update`, `l2_factor > 0`)
  // ---------------------------------------------------------------------------

  /** The innermost callback: `lhs3 -= rhs3 * l2 / n`, except at the first
      entry of a row, the bias. The step index stands for the closure's
      `first` flag, which is set at step 0 only. */
  function L2Entry(l2: real, n: nat): (nat, seq<real>) -> seq<real>
    requires n >= 1
  {
    (i: nat, xs: seq<real>) => if |xs| == 2 && i > 0 then [Decayed(xs[0], xs[1], l2, n), xs[1]] else xs
  }

  /** `u - w * l2 / n`: one weight's decay. */
  function Decayed(u: real, w: real, l2: real, n: nat): real
    requires n >= 1
  {
    u - w * l2 / (n as real)
  }

  lemma L2EntryPreserves(l2: real, n: nat)
    requires n >= 1
    ensures LengthPreserving(L2Entry(l2, n))
  {
  }

  /** The inner `multi_foreach` over a gradient row and a weight row. */
  function L2Row(a: Vector, b: Vector, l2: real, n: nat): Vector
    requires n >= 1
  {
    L2EntryPreserves(l2, n);
    Zipped(L2Entry(l2, n), [Whole(a), Whole(b)])[0]
  }

  /** The middle callback: one row pair. */
  function L2Rows(l2: real, n: nat): (nat, seq<Vector>) -> seq<Vector>
    requires n >= 1
  {
    (j: nat, rows: seq<Vector>) => if |rows| == 2 then [L2Row(rows[0], rows[1], l2, n), rows[1]] else rows
  }

  lemma L2RowsPreserves(l2: real, n: nat)
    requires n >= 1
    ensures LengthPreserving(L2Rows(l2, n))
  {
  }

  /** The middle `multi_foreach` over a gradient matrix and a weight matrix. */
  function L2Matrix(a: Matrix, b: Matrix, l2: real, n: nat): Matrix
    requires n >= 1
  {
    L2RowsPreserves(l2, n);
    Zipped(L2Rows(l2, n), [Whole(a), Whole(b)])[0]
  }

  /** The joined callback: one layer. */
  function L2Layer(l2: real, n: nat): ((), seq<Matrix>) -> ((), seq<Matrix>)
    requires n >= 1
  {
    (u: (), ms: seq<Matrix>) => (u, if |ms| == 2 then [L2Matrix(ms[0], ms[1], l2, n), ms[1]] else ms)
  }

  lemma L2LayerPreserving(l2: real, n: nat)
    requires n >= 1
    ensures JoinPreserving(L2Layer(l2, n))
  {
  }

  /** The L2 pass: `tuple_join` over the update and `net.get_weights()`. */
  function L2Pack(sum: Pack, w: Pack, l2: real, n: nat): Pack
    requires 1 <= |sum| <= |w| && n >= 1
  {
    L2LayerPreserving(l2, n);
    TupleJoin(L2Layer(l2, n), (), [sum, w]).1[0]
  }

  lemma L2RowAt(a: Vector, b: Vector, l2: real, n: nat)
    requires n >= 1
    ensures |L2Row(a, b, l2, n)| == |a|
    ensures forall i :: 0 <= i < |a| ==>
      L2Row(a, b, l2, n)[i] == if 0 < i < |b| then Decayed(a[i], b[i], l2, n) else a[i]
  {
    L2EntryPreserves(l2, n);
    ZippedPair(L2Entry(l2, n), a, b);
    forall i | 0 <= i < |a|
      ensures L2Row(a, b, l2, n)[i] == if 0 < i < |b| then Decayed(a[i], b[i], l2, n) else a[i]
    {
      if i < |b| {
        assert L2Row(a, b, l2, n)[i] == L2Entry(l2, n)(i, [a[i], b[i]])[0];
        L2EntryApplied(l2, n, i, a[i], b[i]);
      }
    }
  }

  lemma L2EntryApplied(l2: real, n: nat, i: nat, x: real, y: real)
    requires n >= 1
    ensures L2Entry(l2, n)(i, [x, y]) == if i > 0 then [Decayed(x, y, l2, n), y] else [x, y]
  {
  }

  lemma L2MatrixAt(a: Matrix, b: Matrix, l2: real, n: nat)
    requires n >= 1
    ensures |L2Matrix(a, b, l2, n)| == |a|
    ensures forall j :: 0 <= j < |a| ==> L2Matrix(a, b, l2, n)[j] == if j < |b| then L2Row(a[j], b[j], l2, n) else a[j]
  {
    L2RowsPreserves(l2, n);
    ZippedPair(L2Rows(l2, n), a, b);
  }

  /** The L2 pass treats layer `k` with the `multi_foreach` over the update's
      matrix and the weight matrix. */
  lemma L2PackLayers(sum: Pack, w: Pack, l2: real, n: nat)
    requires 1 <= |sum| <= |w| && n >= 1
    ensures |L2Pack(sum, w, l2, n)| == |sum|
    ensures forall k :: 0 <= k < |sum| ==> L2Pack(sum, w, l2, n)[k] == L2Matrix(sum[k], w[k], l2, n)
  {
    L2LayerPreserving(l2, n);
    var h := (ms: seq<Matrix>) => if |ms| == 2 then [L2Matrix(ms[0], ms[1], l2, n), ms[1]] else ms;
    TupleJoinPure(L2Layer(l2, n), h, (), [sum, w]);
    forall k | 0 <= k < |sum|
      ensures L2Pack(sum, w, l2, n)[k] == L2Matrix(sum[k], w[k], l2, n)
    {
      assert Column([sum, w], k) == [sum[k], w[k]];
    }
  }

  /** One matrix of the L2 pass, entry by entry. */
  lemma L2MatrixEntries(a: Matrix, b: Matrix, l2: real, n: nat)
    requires n >= 1
    ensures |L2Matrix(a, b, l2, n)| == |a|
    ensures forall j :: 0 <= j < |a| ==> |L2Matrix(a, b, l2, n)[j]| == |a[j]|
    ensures forall j, i :: 0 <= j < |a| && 0 <= i < |a[j]| ==>
      L2Matrix(a, b, l2, n)[j][i] == if j < |b| && 0 < i < |b[j]| then Decayed(a[j][i], b[j][i], l2, n) else a[j][i]
  {
    L2MatrixAt(a, b, l2, n);
    forall j | 0 <= j < |a| && j < |b| {
      L2RowAt(a[j], b[j], l2, n);
    }
  }

  /** The L2 pass keeps the shape of the update. Where the weights have an
      entry, every entry except the first of a row (the bias) loses
      `w * l2 / n`; everything else is left as it was. */
  lemma L2PackAt(sum: Pack, w: Pack, l2: real, n: nat)
    requires 1 <= |sum| <= |w| && n >= 1
    ensures Congruent(L2Pack(sum, w, l2, n), sum)
    ensures forall k, j, i :: 0 <= k < |sum| && 0 <= j < |sum[k]| && 0 <= i < |sum[k][j]| ==>
      L2Pack(sum, w, l2, n)[k][j][i]
        == if j < |w[k]| && 0 < i < |w[k][j]| then Decayed(sum[k][j][i], w[k][j][i], l2, n) else sum[k][j][i]
  {
    L2PackLayers(sum, w, l2, n);
    forall k | 0 <= k < |sum| {
      L2MatrixEntries(sum[k], w[k], l2, n);
    }
  }

  /** One entry of the L2 pass. */
  lemma L2PackEntry(sum: Pack, w: Pack, l2: real, n: nat, k: nat, j: nat, i: nat)
    requires 1 <= |sum| <= |w| && n >= 1 && k < |sum| && j < |sum[k]| && i < |sum[k][j]|
    ensures Congruent(L2Pack(sum, w, l2, n), sum)
    ensures L2Pack(sum, w, l2, n)[k][j][i]
      == if j < |w[k]| && 0 < i < |w[k][j]| then Decayed(sum[k][j][i], w[k][j][i], l2, n) else sum[k][j][i]
  {
    L2PackAt(sum, w, l2, n);
  }
}
