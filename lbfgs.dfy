/** The update hook of the `lbfgs` trainer (`training.hpp`). Each call lays
    the update and the current weights out as column vectors, records the
    step pair `(s_k, y_k)` of the previous call, builds the inverse-Hessian
    estimate `B` from the history oldest entry first, and writes `B * u`
    times `-ffactor(nround)` back into the update. The matrices are `n x n`
    sequences of reals. */
module Lbfgs {
  import opened Layer
  import opened Packs
  import opened Vectorize

  // ---------------------------------------------------------------------------
  // Dense vectors and matrices
  // ---------------------------------------------------------------------------

  predicate Square(a: Matrix, n: nat) {
    |a| == n && forall i :: 0 <= i < n ==> |a[i]| == n
  }

  /** `a.transpose() * b` of two column vectors. */
  function Inner(a: Vector, b: Vector): real
    requires |a| == |b|
  {
    Dot(a, b, |a|)
  }

  /** Column vector difference. */
  function Sub(a: Vector, b: Vector): (r: Vector)
    requires |a| == |b|
    ensures |r| == |a|
  {
    seq(|a|, i requires 0 <= i < |a| => a[i] - b[i])
  }

  function Identity(n: nat): (r: Matrix)
    ensures Square(r, n)
  {
    seq(n, i requires 0 <= i < n => seq(n, j requires 0 <= j < n => if i == j then 1.0 else 0.0))
  }

  /** `a * b.transpose()`. */
  function Outer(a: Vector, b: Vector): (r: Matrix)
    requires |a| == |b|
    ensures Square(r, |a|)
  {
    seq(|a|, i requires 0 <= i < |a| => seq(|b|, j requires 0 <= j < |b| => a[i] * b[j]))
  }

  function MSub(a: Matrix, b: Matrix, n: nat): (r: Matrix)
    requires Square(a, n) && Square(b, n)
    ensures Square(r, n)
  {
    seq(n, i requires 0 <= i < n => seq(n, j requires 0 <= j < n => a[i][j] - b[i][j]))
  }

  function MAdd(a: Matrix, b: Matrix, n: nat): (r: Matrix)
    requires Square(a, n) && Square(b, n)
    ensures Square(r, n)
  {
    seq(n, i requires 0 <= i < n => seq(n, j requires 0 <= j < n => a[i][j] + b[i][j]))
  }

  function MDiv(a: Matrix, d: real, n: nat): (r: Matrix)
    requires Square(a, n) && d != 0.0
    ensures Square(r, n)
  {
    seq(n, i requires 0 <= i < n => seq(n, j requires 0 <= j < n => a[i][j] / d))
  }

  function Col(b: Matrix, j: nat, n: nat): (c: Vector)
    requires Square(b, n) && j < n
    ensures |c| == n
  {
    seq(n, k requires 0 <= k < n => b[k][j])
  }

  /** The matrix product. */
  function MatMul(a: Matrix, b: Matrix, n: nat): (r: Matrix)
    requires Square(a, n) && Square(b, n)
    ensures Square(r, n)
  {
    seq(n, i requires 0 <= i < n => seq(n, j requires 0 <= j < n => Dot(a[i], Col(b, j, n), n)))
  }

  /** The matrix times a column vector. */
  function MatVec(a: Matrix, v: Vector): (r: Vector)
    requires Square(a, |v|)
    ensures |r| == |v|
  {
    seq(|v|, i requires 0 <= i < |v| => Dot(a[i], v, |v|))
  }

  // ---------------------------------------------------------------------------
  // Linearity of the dot product
  // ---------------------------------------------------------------------------

  lemma {:induction false} DotSymmetric(a: Vector, b: Vector, n: nat)
    requires n <= |a| && n <= |b|
    ensures Dot(a, b, n) == Dot(b, a, n)
  {
    if n > 0 {
      DotSymmetric(a, b, n - 1);
    }
  }

  lemma {:induction false} DotSumLeft(a: Vector, b: Vector, r: Vector, v: Vector, n: nat)
    requires n <= |a| && n <= |b| && n <= |r| && n <= |v|
    requires forall k :: 0 <= k < n ==> r[k] == a[k] + b[k]
    ensures Dot(r, v, n) == Dot(a, v, n) + Dot(b, v, n)
  {
    if n > 0 {
      DotSumLeft(a, b, r, v, n - 1);
    }
  }

  lemma {:induction false} DotDiffLeft(a: Vector, b: Vector, r: Vector, v: Vector, n: nat)
    requires n <= |a| && n <= |b| && n <= |r| && n <= |v|
    requires forall k :: 0 <= k < n ==> r[k] == a[k] - b[k]
    ensures Dot(r, v, n) == Dot(a, v, n) - Dot(b, v, n)
  {
    if n > 0 {
      DotDiffLeft(a, b, r, v, n - 1);
    }
  }

  lemma {:induction false} DotScaleLeft(a: Vector, r: Vector, v: Vector, n: nat, c: real)
    requires n <= |a| && n <= |r| && n <= |v|
    requires forall k :: 0 <= k < n ==> r[k] == c * a[k]
    ensures Dot(r, v, n) == c * Dot(a, v, n)
  {
    if n > 0 {
      DotScaleLeft(a, r, v, n - 1, c);
      assert r[n - 1] * v[n - 1] == c * (a[n - 1] * v[n - 1]);
    }
  }

  lemma {:induction false} DotSumRight(a: Vector, b: Vector, r: Vector, v: Vector, n: nat)
    requires n <= |a| && n <= |b| && n <= |r| && n <= |v|
    requires forall k :: 0 <= k < n ==> r[k] == a[k] + b[k]
    ensures Dot(v, r, n) == Dot(v, a, n) + Dot(v, b, n)
  {
    if n > 0 {
      DotSumRight(a, b, r, v, n - 1);
      assert v[n - 1] * r[n - 1] == v[n - 1] * a[n - 1] + v[n - 1] * b[n - 1];
    }
  }

  lemma {:induction false} DotScaleRight(a: Vector, r: Vector, v: Vector, n: nat, c: real)
    requires n <= |a| && n <= |r| && n <= |v|
    requires forall k :: 0 <= k < n ==> r[k] == a[k] * c
    ensures Dot(v, r, n) == Dot(v, a, n) * c
  {
    if n > 0 {
      DotScaleRight(a, r, v, n - 1, c);
      assert v[n - 1] * r[n - 1] == (v[n - 1] * a[n - 1]) * c;
    }
  }

  lemma {:induction false} DotZerosRight(a: Vector, z: Vector, n: nat)
    requires n <= |a| && n <= |z|
    requires forall k :: 0 <= k < n ==> z[k] == 0.0
    ensures Dot(a, z, n) == 0.0
  {
    if n > 0 {
      DotZerosRight(a, z, n - 1);
    }
  }

  lemma {:induction false} DotUnit(n: nat, i: nat, v: Vector, m: nat)
    requires i < n && m <= n && n <= |v|
    ensures Dot(Identity(n)[i], v, m) == if i < m then v[i] else 0.0
  {
    if m > 0 {
      DotUnit(n, i, v, m - 1);
    }
  }

  // ---------------------------------------------------------------------------
  // The matrix times a vector
  // ---------------------------------------------------------------------------

  /** The identity leaves a vector alone. */
  lemma MatVecIdentity(v: Vector)
    ensures MatVec(Identity(|v|), v) == v
  {
    forall i | 0 <= i < |v| ensures MatVec(Identity(|v|), v)[i] == v[i] {
      DotUnit(|v|, i, v, |v|);
    }
  }

  lemma MatVecSub(a: Matrix, b: Matrix, v: Vector, i: nat)
    requires Square(a, |v|) && Square(b, |v|) && i < |v|
    ensures MatVec(MSub(a, b, |v|), v)[i] == MatVec(a, v)[i] - MatVec(b, v)[i]
  {
    DotDiffLeft(a[i], b[i], MSub(a, b, |v|)[i], v, |v|);
  }

  lemma MatVecAdd(a: Matrix, b: Matrix, v: Vector, i: nat)
    requires Square(a, |v|) && Square(b, |v|) && i < |v|
    ensures MatVec(MAdd(a, b, |v|), v)[i] == MatVec(a, v)[i] + MatVec(b, v)[i]
  {
    DotSumLeft(a[i], b[i], MAdd(a, b, |v|)[i], v, |v|);
  }

  lemma DivAsFactor(x: real, y: real, d: real)
    requires d != 0.0
    ensures x * y / d == (x / d) * y
  {
    var q := x / d;
    assert x == q * d;
    assert x * y == (q * y) * d;
  }

  lemma OuterDivAt(a: Vector, b: Vector, d: real, n: nat, i: nat, k: nat)
    requires |a| == |b| == n && d != 0.0 && i < n && k < n
    ensures MDiv(Outer(a, b), d, n)[i][k] == (a[i] / d) * b[k]
  {
    assert MDiv(Outer(a, b), d, n)[i][k] == (a[i] * b[k]) / d;
    DivAsFactor(a[i], b[k], d);
  }

  /** Row `i` of `a b^T / d` is `b` times `c`, for `c = a[i] / d`. */
  lemma OuterRowScaled(a: Vector, b: Vector, d: real, v: Vector, i: nat, c: real)
    requires |a| == |b| == |v| && d != 0.0 && i < |v| && c * d == a[i]
    ensures forall k :: 0 <= k < |v| ==> MDiv(Outer(a, b), d, |v|)[i][k] == c * b[k]
  {
    forall k | 0 <= k < |v| ensures MDiv(Outer(a, b), d, |v|)[i][k] == c * b[k] {
      OuterDivAt(a, b, d, |v|, i, k);
      assert a[i] / d == c;
    }
  }

  lemma DotScaled(b: Vector, row: Vector, v: Vector, c: real, e: real)
    requires |b| == |v| == |row| && e == Dot(b, v, |v|)
    requires forall k :: 0 <= k < |v| ==> row[k] == c * b[k]
    ensures Dot(row, v, |v|) == c * e
  {
    DotScaleLeft(b, row, v, |v|, c);
    Rewrite(Dot(row, v, |v|), c, e, Dot(b, v, |v|));
  }

  /** Replaces a factor by an equal one. */
  lemma Rewrite(x: real, c: real, e: real, e': real)
    requires x == c * e' && e == e'
    ensures x == c * e
  {
  }

  /** Row `i` of `a b^T / d` against `v` is `c` times `b^T v`. */
  lemma OuterRowDot(a: Vector, b: Vector, d: real, v: Vector, i: nat, c: real, e: real)
    requires |a| == |b| == |v| && d != 0.0 && i < |v| && c * d == a[i] && e == Dot(b, v, |v|)
    ensures Dot(MDiv(Outer(a, b), d, |v|)[i], v, |v|) == c * e
  {
    OuterRowScaled(a, b, d, v, i, c);
    DotScaled(b, MDiv(Outer(a, b), d, |v|)[i], v, c, e);
  }

  /** `(a b^T / d) v` is `a` when `b^T v == d`. */
  lemma MatVecDivOuter(a: Vector, b: Vector, d: real, v: Vector, i: nat)
    requires |a| == |b| == |v| && d != 0.0 && i < |v| && Dot(b, v, |v|) == d
    ensures MatVec(MDiv(Outer(a, b), d, |v|), v)[i] == a[i]
  {
    var c := Quotient(a[i], d);
    OuterRowDot(a, b, d, v, i, c, d);
  }

  /** A `c` with `c * d == x`, known by that equation alone. */
  lemma Quotient(x: real, d: real) returns (c: real)
    requires d != 0.0
    ensures c * d == x
  {
    c := x / d;
  }


  lemma MatVecIdentityAt(v: Vector, i: nat)
    requires i < |v|
    ensures MatVec(Identity(|v|), v)[i] == v[i]
  {
    DotUnit(|v|, i, v, |v|);
  }

  /** The column `Dot(b[k], v, m)` of partial sums. */
  function Partial(b: Matrix, v: Vector, n: nat, m: nat): (r: Vector)
    requires Square(b, n) && m <= n <= |v|
    ensures |r| == n
  {
    seq(n, k requires 0 <= k < n => Dot(b[k], v, m))
  }

  /** Exchanging the two sums of `(a * b) * v`. */
  lemma {:induction false} Exchange(a: Matrix, b: Matrix, v: Vector, n: nat, i: nat, m: nat)
    requires Square(a, n) && Square(b, n) && i < n && m <= n && n == |v|
    ensures Dot(MatMul(a, b, n)[i], v, m) == Dot(a[i], Partial(b, v, n, m), n)
  {
    if m == 0 {
      DotZerosRight(a[i], Partial(b, v, n, 0), n);
    } else {
      Exchange(a, b, v, n, i, m - 1);
      var col := Col(b, m - 1, n);
      var scaled := seq(n, k requires 0 <= k < n => col[k] * v[m - 1]);
      DotSumRight(Partial(b, v, n, m - 1), scaled, Partial(b, v, n, m), a[i], n);
      DotScaleRight(col, scaled, a[i], n, v[m - 1]);
    }
  }

  /** `(a * b) * v == a * (b * v)`. */
  lemma MatVecMatMul(a: Matrix, b: Matrix, v: Vector)
    requires Square(a, |v|) && Square(b, |v|)
    ensures MatVec(MatMul(a, b, |v|), v) == MatVec(a, MatVec(b, v))
  {
    var n := |v|;
    assert Partial(b, v, n, n) == MatVec(b, v);
    forall i | 0 <= i < n ensures MatVec(MatMul(a, b, n), v)[i] == MatVec(a, MatVec(b, v))[i] {
      Exchange(a, b, v, n, i, n);
    }
  }

  // ---------------------------------------------------------------------------
  // The inverse-Hessian estimate
  // ---------------------------------------------------------------------------

  /** `history_entry`: the weight step `s_k` and the gradient step `y_k`. */
  datatype Entry = Entry(sk: Vector, yk: Vector)

  predicate EntryFits(e: Entry, n: nat) {
    |e.sk| == n && |e.yk| == n
  }

  predicate HistoryFits(h: seq<Entry>, n: nat) {
    forall q :: 0 <= q < |h| ==> EntryFits(h[q], n)
  }

  /** `norm = yk.transpose() * sk`. */
  function Norm(e: Entry): real
    requires |e.sk| == |e.yk|
  {
    Inner(e.yk, e.sk)
  }

  /** `(I - s y^T / rho) * B * (I - y s^T / rho) + s s^T / rho`. */
  function Recast(b: Matrix, e: Entry, n: nat, rho: real): (r: Matrix)
    requires Square(b, n) && EntryFits(e, n) && rho != 0.0
    ensures Square(r, n)
  {
    var left := MSub(Identity(n), MDiv(Outer(e.sk, e.yk), rho, n), n);
    var right := MSub(Identity(n), MDiv(Outer(e.yk, e.sk), rho, n), n);
    MAdd(MatMul(MatMul(left, b, n), right, n), MDiv(Outer(e.sk, e.sk), rho, n), n)
  }

  /** One step of the fold as `training.hpp` writes it: it divides by the
      norm whatever its value. */
  function BStepAsWritten(b: Matrix, e: Entry, n: nat): (r: Matrix)
    requires Square(b, n) && EntryFits(e, n) && Norm(e) != 0.0
    ensures Square(r, n)
  {
    Recast(b, e, n, Norm(e))
  }

  /** `bk` as `training.hpp` builds it: the identity, then one step per
      history entry, the oldest first. Defined only when no norm is zero. */
  function BFoldAsWritten(h: seq<Entry>, n: nat): (r: Matrix)
    requires HistoryFits(h, n) && forall q :: 0 <= q < |h| ==> Norm(h[q]) != 0.0
    ensures Square(r, n)
  {
    if h == [] then Identity(n) else BStepAsWritten(BFoldAsWritten(h[..|h| - 1], n), h[|h| - 1], n)
  }

  /** One step of the corrected fold: an entry whose norm is zero carries no
      curvature and is skipped. */
  function BStep(b: Matrix, e: Entry, n: nat): (r: Matrix)
    requires Square(b, n) && EntryFits(e, n)
    ensures Square(r, n)
  {
    if Norm(e) == 0.0 then b else Recast(b, e, n, Norm(e))
  }

  /** The corrected `bk`. */
  function BFold(h: seq<Entry>, n: nat): (r: Matrix)
    requires HistoryFits(h, n)
    ensures Square(r, n)
  {
    if h == [] then Identity(n) else BStep(BFold(h[..|h| - 1], n), h[|h| - 1], n)
  }

  /** Where `training.hpp`'s fold is defined, the corrected fold agrees with it. */
  lemma {:induction false} BFoldAgrees(h: seq<Entry>, n: nat)
    requires HistoryFits(h, n) && forall q :: 0 <= q < |h| ==> Norm(h[q]) != 0.0
    ensures BFold(h, n) == BFoldAsWritten(h, n)
  {
    if h != [] {
      BFoldAgrees(h[..|h| - 1], n);
    }
  }

  /** An entry of norm zero leaves the corrected estimate as it was. */
  lemma BFoldSkips(h: seq<Entry>, e: Entry, n: nat)
    requires HistoryFits(h, n) && EntryFits(e, n) && Norm(e) == 0.0
    ensures HistoryFits(h + [e], n)
    ensures BFold(h + [e], n) == BFold(h, n)
  {
    assert (h + [e])[..|h|] == h;
  }

  /** The secant equation: after a step with `(s, y)` the estimate maps
      `y` to `s`. */
  lemma RecastSecant(b: Matrix, e: Entry, n: nat)
    requires Square(b, n) && EntryFits(e, n) && Norm(e) != 0.0
    ensures MatVec(Recast(b, e, n, Norm(e)), e.yk) == e.sk
  {
    var s, y, rho := e.sk, e.yk, Norm(e);
    var left := MSub(Identity(n), MDiv(Outer(s, y), rho, n), n);
    var right := MSub(Identity(n), MDiv(Outer(y, s), rho, n), n);
    var t := MDiv(Outer(s, s), rho, n);
    DotSymmetric(s, y, n);
    forall i | 0 <= i < n ensures MatVec(right, y)[i] == 0.0 {
      MatVecSub(Identity(n), MDiv(Outer(y, s), rho, n), y, i);
      MatVecIdentityAt(y, i);
      MatVecDivOuter(y, s, rho, y, i);
    }
    var lb := MatMul(left, b, n);
    MatVecMatMul(lb, right, y);
    forall i | 0 <= i < n ensures MatVec(MatMul(lb, right, n), y)[i] == 0.0 {
      DotZerosRight(lb[i], MatVec(right, y), n);
    }
    forall i | 0 <= i < n ensures MatVec(Recast(b, e, n, rho), y)[i] == s[i] {
      MatVecAdd(MatMul(lb, right, n), t, y, i);
      MatVecDivOuter(s, s, rho, y, i);
    }
  }

  /** The newest entry of the history holds for the estimate the fold ends
      with, unless its norm is zero. */
  lemma BFoldSecant(h: seq<Entry>, n: nat)
    requires HistoryFits(h, n) && |h| >= 1 && Norm(h[|h| - 1]) != 0.0
    ensures MatVec(BFold(h, n), h[|h| - 1].yk) == h[|h| - 1].sk
  {
    RecastSecant(BFold(h[..|h| - 1], n), h[|h| - 1], n);
  }

  /** The loop over `history` that builds `bk`. */
  method BuildB(h: seq<Entry>, n: nat) returns (b: Matrix)
    requires HistoryFits(h, n)
    ensures b == BFold(h, n)
  {
    b := Identity(n);
    var q := 0;
    while q < |h|
      invariant 0 <= q <= |h|
      invariant HistoryFits(h[..q], n) && b == BFold(h[..q], n)
    {
      assert h[..q + 1][..q] == h[..q];
      b := BStep(b, h[q], n);
      q := q + 1;
    }
    assert h[..|h|] == h;
  }

  // ---------------------------------------------------------------------------
  // The hook
  // ---------------------------------------------------------------------------

  /** What the hook keeps between calls: `nround` (a member of the trainer)
      and the locals of `train` that the hook captures by reference. */
  datatype HookState = HookState(nround: nat, first: bool, history: seq<Entry>, updateLast: Vector, weightsLast: Vector)

  /** Vectors of the hook are of the length of the flattened update. */
  predicate HookFits(h: HookState, n: nat) {
    HistoryFits(h.history, n) && (!h.first ==> |h.updateLast| == n && |h.weightsLast| == n)
  }

  /** The hook's state when `lbfgs::train` starts. */
  function Fresh(nround: nat): (h: HookState)
    ensures h.first && h.history == []
    ensures forall n: nat :: HookFits(h, n)
  {
    HookState(nround, true, [], [], [])
  }

  /** `while (history.size() > histsize) history.pop_front()`. */
  function Evict(h: seq<Entry>, m: nat): (r: seq<Entry>)
    ensures |r| == if |h| <= m then |h| else m
    ensures r == h[|h| - |r|..]
  {
    if |h| <= m then h else h[|h| - m..]
  }

  /** The history after the first half of a call: the first call only
      clears `first`, every later one appends the step from the call before. */
  function Recorded(h: HookState, uc: Vector, wc: Vector): (r: seq<Entry>)
    requires HookFits(h, |uc|) && |wc| == |uc|
    ensures HistoryFits(r, |uc|)
  {
    if h.first then h.history
    else h.history + [Entry(Sub(wc, h.weightsLast), Sub(uc, h.updateLast))]
  }

  /** `bk` of a call with this update and these weights. */
  function HookMatrix(h: HookState, update: Pack, weights: Pack): (b: Matrix)
    requires |update| >= 1 && |weights| >= 1 && Size(update) == Size(weights) && HookFits(h, Size(update))
    ensures Square(b, Size(update))
  {
    FlattenLength(update, -1.0);
    FlattenLength(weights, 1.0);
    var uc := Flatten(update, -1.0);
    BFold(Recorded(h, uc, Flatten(weights, 1.0)), |uc|)
  }

  /** One call of the hook: the new state and the rewritten update. */
  function HookStep(ffactor: nat -> real, histsize: nat, h: HookState, update: Pack, weights: Pack): (r: (HookState, Pack))
    requires |update| >= 1 && |weights| >= 1 && Size(update) == Size(weights) && HookFits(h, Size(update))
    ensures r.0.nround == h.nround && !r.0.first && |r.0.history| <= histsize
    ensures HookFits(r.0, Size(update))
    ensures Congruent(r.1, update)
  {
    FlattenLength(update, -1.0);
    FlattenLength(weights, 1.0);
    var uc := Flatten(update, -1.0);
    var wc := Flatten(weights, 1.0);
    var hist := Recorded(h, uc, wc);
    var b := HookMatrix(h, update, weights);
    UnflattenShape(update, MatVec(b, uc), -ffactor(h.nround));
    (HookState(h.nround, false, Evict(hist, histsize), uc, wc), Unflatten(update, MatVec(b, uc), -ffactor(h.nround)))
  }

  /** Without history the estimate is the identity: the update comes back
      scaled by `ffactor(nround)`, a plain gradient step. */
  lemma HookFirstStep(ffactor: nat -> real, histsize: nat, h: HookState, update: Pack, weights: Pack)
    requires |update| >= 1 && |weights| >= 1 && Size(update) == Size(weights) && HookFits(h, Size(update))
    requires h.first && h.history == []
    ensures HookStep(ffactor, histsize, h, update, weights).1 == ScaledPack(update, ffactor(h.nround))
  {
    var uc := Flatten(update, -1.0);
    var b := HookMatrix(h, update, weights);
    var c := -ffactor(h.nround);
    FlattenLength(update, -1.0);
    HookStepUpdate(ffactor, histsize, h, update, weights, uc, b);
    assert MatVec(b, uc) == uc by {
      FlattenLength(weights, 1.0);
      assert Recorded(h, uc, Flatten(weights, 1.0)) == [];
      assert b == Identity(|uc|);
      MatVecIdentity(uc);
    }
    UnflattenFlatten(update, -1.0, c);
    assert -1.0 * c == ffactor(h.nround);
  }

  /** The first call records nothing; every later call appends the pair
      `(w - w_last, u - u_last)` and then the oldest entries past
      `histsize` go. */
  lemma HookHistory(ffactor: nat -> real, histsize: nat, h: HookState, update: Pack, weights: Pack)
    requires |update| >= 1 && |weights| >= 1 && Size(update) == Size(weights) && HookFits(h, Size(update))
    ensures var r := HookStep(ffactor, histsize, h, update, weights).0;
      r.updateLast == Flatten(update, -1.0) && r.weightsLast == Flatten(weights, 1.0)
      && r.history == Evict(h.history + (if h.first then [] else [LastStep(h, update, weights)]), histsize)
  {
    FlattenLength(update, -1.0);
    FlattenLength(weights, 1.0);
    if h.first {
      assert h.history + [] == h.history;
    }
  }

  /** The step pair a call after the first records. */
  function LastStep(h: HookState, update: Pack, weights: Pack): (e: Entry)
    requires |update| >= 1 && |weights| >= 1 && Size(update) == Size(weights) && HookFits(h, Size(update)) && !h.first
    ensures EntryFits(e, Size(update))
  {
    FlattenLength(update, -1.0);
    FlattenLength(weights, 1.0);
    Entry(Sub(Flatten(weights, 1.0), h.weightsLast), Sub(Flatten(update, -1.0), h.updateLast))
  }

  /** The estimate takes the newest gradient step to the newest weight step. */
  lemma HookSecant(h: HookState, update: Pack, weights: Pack)
    requires |update| >= 1 && |weights| >= 1 && Size(update) == Size(weights) && HookFits(h, Size(update)) && !h.first
    requires Norm(LastStep(h, update, weights)) != 0.0
    ensures MatVec(HookMatrix(h, update, weights), LastStep(h, update, weights).yk) == LastStep(h, update, weights).sk
  {
    FlattenLength(update, -1.0);
    FlattenLength(weights, 1.0);
    var hist := Recorded(h, Flatten(update, -1.0), Flatten(weights, 1.0));
    assert hist[|hist| - 1] == LastStep(h, update, weights);
    BFoldSecant(hist, Size(update));
  }

  /** Weights that did not move since the previous call (a zero update
      committed, say) give a step pair of norm zero: `training.hpp`'s fold would
      divide by zero, which leaves `bk` and then every weight NaN. */
  lemma UnmovedWeightsZeroNorm(h: HookState, update: Pack, weights: Pack)
    requires |update| >= 1 && |weights| >= 1 && Size(update) == Size(weights) && HookFits(h, Size(update)) && !h.first
    requires Flatten(weights, 1.0) == h.weightsLast
    ensures Norm(LastStep(h, update, weights)) == 0.0
    ensures var hist := Recorded(h, Flatten(update, -1.0), Flatten(weights, 1.0));
      !(forall q :: 0 <= q < |hist| ==> Norm(hist[q]) != 0.0)
  {
    FlattenLength(update, -1.0);
    FlattenLength(weights, 1.0);
    var e := LastStep(h, update, weights);
    var n := Size(update);
    assert forall k :: 0 <= k < n ==> e.sk[k] == 0.0;
    DotZerosRight(e.yk, e.sk, n);
    var hist := Recorded(h, Flatten(update, -1.0), Flatten(weights, 1.0));
    assert hist[|hist| - 1] == e;
  }

  /** The eviction loop of the hook. */
  method EvictOldest(h: seq<Entry>, m: nat) returns (r: seq<Entry>)
    ensures r == Evict(h, m)
  {
    r := h;
    while |r| > m
      invariant |r| <= |h| && r == h[|h| - |r|..]
      invariant |h| <= m ==> r == h
      invariant |h| > m ==> |r| >= m
    {
      r := r[1..];
    }
  }

  /** `if (first) first = false; else history.emplace_back(...)`. */
  method Record(h: HookState, uc: Vector, wc: Vector) returns (history: seq<Entry>)
    requires HookFits(h, |uc|) && |wc| == |uc|
    ensures history == Recorded(h, uc, wc)
  {
    history := h.history;
    if !h.first {
      history := history + [Entry(Sub(wc, h.weightsLast), Sub(uc, h.updateLast))];
    }
  }

  /** The vectors the hook computes have the sizes `HookStep` works with. */
  lemma HookStepParts(h: HookState, update: Pack, weights: Pack, uc: Vector, wc: Vector, b: Matrix)
    requires |update| >= 1 && |weights| >= 1 && Size(update) == Size(weights) && HookFits(h, Size(update))
    requires uc == Flatten(update, -1.0) && wc == Flatten(weights, 1.0) && b == HookMatrix(h, update, weights)
    ensures |uc| == |wc| == Size(update) && Square(b, |uc|) && HookFits(h, |uc|)
  {
    FlattenLength(update, -1.0);
    FlattenLength(weights, 1.0);
  }

  /** The state `HookStep` leaves, spelled out in the hook's vectors. */
  lemma HookStepState(ffactor: nat -> real, histsize: nat, h: HookState, update: Pack, weights: Pack,
                      uc: Vector, wc: Vector)
    requires |update| >= 1 && |weights| >= 1 && Size(update) == Size(weights) && HookFits(h, Size(update))
    requires uc == Flatten(update, -1.0) && wc == Flatten(weights, 1.0)
    requires |uc| == |wc| == Size(update)
    ensures HookStep(ffactor, histsize, h, update, weights).0
         == HookState(h.nround, false, Evict(Recorded(h, uc, wc), histsize), uc, wc)
  {
  }

  /** The update `HookStep` returns, spelled out in the hook's vectors. */
  lemma HookStepUpdate(ffactor: nat -> real, histsize: nat, h: HookState, update: Pack, weights: Pack,
                       uc: Vector, b: Matrix)
    requires |update| >= 1 && |weights| >= 1 && Size(update) == Size(weights) && HookFits(h, Size(update))
    requires uc == Flatten(update, -1.0) && b == HookMatrix(h, update, weights)
    requires |uc| == Size(update)
    ensures HookStep(ffactor, histsize, h, update, weights).1 == Unflatten(update, MatVec(b, uc), -ffactor(h.nround))
  {
  }

  /** The body of the hook lambda on the captured state `h`. */
  method HookRun(ffactor: nat -> real, histsize: nat, h: HookState, update: Pack, weights: Pack)
      returns (h': HookState, update': Pack)
    requires |update| >= 1 && |weights| >= 1 && Size(update) == Size(weights) && HookFits(h, Size(update))
    ensures (h', update') == HookStep(ffactor, histsize, h, update, weights)
  {
    var uc := Update2Vector(update, -1.0);
    var wc := Update2Vector(weights, 1.0);
    FlattenLength(weights, 1.0);
    var history := Record(h, uc, wc);
    var b := BuildB(history, |uc|);
    HookStepParts(h, update, weights, uc, wc, b);
    update' := Vector2Update(update, MatVec(b, uc), -ffactor(h.nround));
    history := EvictOldest(history, histsize);
    h' := HookState(h.nround, false, history, uc, wc);
    HookStepState(ffactor, histsize, h, update, weights, uc, wc);
    HookStepUpdate(ffactor, histsize, h, update, weights, uc, b);
  }

  /** The captured state of the hook, as an object the trainer calls. */
  class LbfgsHook {
    const ffactor: nat -> real
    const histsize: nat
    var nround: nat
    var first: bool
    var history: seq<Entry>
    var updateLast: Vector
    var weightsLast: Vector

    function State(): HookState
      reads this
    {
      HookState(nround, first, history, updateLast, weightsLast)
    }

    /** `lbfgs(history_size, func_factor, ...)`: the trainer keeps its own
        step schedule and history bound. */
    constructor (histsize: nat, ffactor: nat -> real)
      ensures this.histsize == histsize && this.ffactor == ffactor
      ensures State() == Fresh(0)
    {
      this.histsize := histsize;
      this.ffactor := ffactor;
      nround := 0;
      first := true;
      history := [];
      updateLast := [];
      weightsLast := [];
    }

    /** The start of `lbfgs::train`: `nround = 0` and fresh locals. */
    method Reset()
      modifies this
      ensures State() == Fresh(0)
    {
      nround := 0;
      first := true;
      history := [];
      updateLast := [];
      weightsLast := [];
    }

    /** The round callback installed by the constructor: `nround = round + 1`. */
    method RoundDone(round: nat)
      modifies this
      ensures State() == old(State()).(nround := round + 1)
    {
      nround := round + 1;
    }

    /** The hook lambda of `lbfgs::train`, called with the update and
        `net.get_weights()`. */
    method Call(update: Pack, weights: Pack) returns (update': Pack)
      requires |update| >= 1 && |weights| >= 1 && Size(update) == Size(weights) && HookFits(State(), Size(update))
      modifies this
      ensures (State(), update') == HookStep(ffactor, histsize, old(State()), update, weights)
    {
      var h;
      h, update' := HookRun(ffactor, histsize, State(), update, weights);
      assert h.nround == nround;
      first := h.first;
      history := h.history;
      updateLast := h.updateLast;
      weightsLast := h.weightsLast;
      assert State() == h;
    }
  }
}
