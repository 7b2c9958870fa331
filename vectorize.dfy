/** `update2vector` and `vector2update` of the L-BFGS trainer
    (`training.hpp`): a pack of weight matrices laid out as one column vector
    and read back. `tuple_apply` visits the layers from the last down to the
    first; inside a matrix the rows and then the entries go in order. */
module Vectorize {
  import opened Utils
  import opened Layer
  import opened Packs

  // ---------------------------------------------------------------------------
  // Sizes
  // ---------------------------------------------------------------------------

  /** Number of entries of a matrix. */
  function Entries(m: Matrix): nat {
    if m == [] then 0 else Entries(m[..|m| - 1]) + |m[|m| - 1]|
  }

  /** Number of entries of a pack. */
  function Size(p: Pack): nat {
    if p == [] then 0 else Entries(p[0]) + Size(p[1..])
  }

  lemma {:induction false} EntriesPrefix(m: Matrix, j: nat)
    requires j < |m|
    ensures Entries(m[..j + 1]) == Entries(m[..j]) + |m[j]|
    ensures Entries(m[..j + 1]) <= Entries(m)
    decreases |m| - j
  {
    assert m[..j + 1][..j] == m[..j];
    if j + 1 < |m| {
      EntriesPrefix(m, j + 1);
    } else {
      assert m[..j + 1] == m;
    }
  }

  lemma {:induction false} SizeSnoc(u: Pack, x: Matrix)
    ensures Size(u + [x]) == Size(u) + Entries(x)
  {
    if u == [] {
      assert [x][1..] == [];
    } else {
      assert (u + [x])[1..] == u[1..] + [x];
      SizeSnoc(u[1..], x);
    }
  }

  /** Matrices with the same row lengths have as many entries. */
  lemma {:induction false} EntriesCongruent(m: Matrix, n: Matrix)
    requires |m| == |n| && forall j :: 0 <= j < |m| ==> |m[j]| == |n[j]|
    ensures Entries(m) == Entries(n)
  {
    if m != [] {
      EntriesCongruent(m[..|m| - 1], n[..|n| - 1]);
    }
  }

  /** Packs of the same shape have as many entries. */
  lemma {:induction false} SizeCongruent(p: Pack, q: Pack)
    requires Congruent(p, q)
    ensures Size(p) == Size(q)
  {
    if p != [] {
      EntriesCongruent(p[0], q[0]);
      SizeCongruent(p[1..], q[1..]);
    }
  }

  // ---------------------------------------------------------------------------
  // update2vector
  // ---------------------------------------------------------------------------

  /** The entries of a matrix row after row, each times `c`. */
  function FlattenMatrix(m: Matrix, c: real): (v: Vector)
    ensures |v| == Entries(m)
  {
    if m == [] then [] else FlattenMatrix(m[..|m| - 1], c) + ScaledRow(m[|m| - 1], c)
  }

  function FlattenLayer(c: real): Matrix -> Vector {
    m => FlattenMatrix(m, c)
  }

  /** The `tuple_apply` callback of `update2vector`: `vector.push_back(y * factor)`
      for every entry of the matrix it visits. */
  function Collect(c: real): (Vector, Matrix) -> (Vector, Matrix) {
    (acc: Vector, m: Matrix) => (acc + FlattenMatrix(m, c), m)
  }

  /** `update2vector(weights, factor)`. */
  function Flatten(p: Pack, c: real): Vector
    requires |p| >= 1
  {
    TupleApply(p, Collect(c), []).0
  }

  /** The vector is the layers' entries from the last layer to the first. */
  lemma FlattenIsConcat(p: Pack, c: real)
    requires |p| >= 1
    ensures Flatten(p, c) == ConcatRev(FlattenLayer(c), p)
  {
    assert forall acc: Vector, m: Matrix :: Collect(c)(acc, m) == (acc + FlattenLayer(c)(m), m);
    TupleApplyAppends(p, FlattenLayer(c), Collect(c), []);
  }

  lemma {:induction false} ConcatRevCons<X, Y>(h: X -> seq<Y>, x: X, t: seq<X>)
    ensures ConcatRev(h, [x] + t) == ConcatRev(h, t) + h(x)
    decreases |t|
  {
    if t == [] {
      assert ([x] + t)[..0] == [];
    } else {
      var u := [x] + t;
      assert u[..|u| - 1] == [x] + t[..|t| - 1];
      ConcatRevCons(h, x, t[..|t| - 1]);
    }
  }

  lemma {:induction false} ConcatRevLength(p: Pack, c: real)
    ensures |ConcatRev(FlattenLayer(c), p)| == Size(p)
  {
    if p != [] {
      assert p == [p[0]] + p[1..];
      ConcatRevCons(FlattenLayer(c), p[0], p[1..]);
      ConcatRevLength(p[1..], c);
    }
  }

  /** `update2vector` puts every entry of the pack into the vector. */
  lemma FlattenLength(p: Pack, c: real)
    requires |p| >= 1
    ensures |Flatten(p, c)| == Size(p)
  {
    FlattenIsConcat(p, c);
    ConcatRevLength(p, c);
  }

  // ---------------------------------------------------------------------------
  // vector2update
  // ---------------------------------------------------------------------------

  /** A row overwritten from the vector at `pos`, each value times `c`; a
      position past the vector leaves the entry alone. */
  function FilledRow(r: Vector, vec: Vector, pos: nat, c: real): (r': Vector)
    ensures |r'| == |r|
  {
    seq(|r|, i requires 0 <= i < |r| => if pos + i < |vec| then vec[pos + i] * c else r[i])
  }

  /** A matrix overwritten row after row from the vector at `pos`. */
  function FilledMatrix(m: Matrix, vec: Vector, pos: nat, c: real): (m': Matrix)
    ensures |m'| == |m|
  {
    if m == [] then []
    else FilledMatrix(m[..|m| - 1], vec, pos, c) + [FilledRow(m[|m| - 1], vec, pos + Entries(m[..|m| - 1]), c)]
  }

  /** A pack overwritten from the vector at `pos`, the last layer first. */
  function Filled(p: Pack, vec: Vector, pos: nat, c: real): (p': Pack)
    ensures |p'| == |p|
  {
    if p == [] then [] else [FilledMatrix(p[0], vec, pos + Size(p[1..]), c)] + Filled(p[1..], vec, pos, c)
  }

  /** The `tuple_apply` callback of `vector2update`: `y = vector(pos++) * factor`
      for every entry of the matrix it visits. */
  function Place(vec: Vector, c: real): (nat, Matrix) -> (nat, Matrix) {
    (pos: nat, m: Matrix) => (pos + Entries(m), FilledMatrix(m, vec, pos, c))
  }

  /** `vector2update(update, vector)` with `factor` for `-ffactor(nround)`. */
  function Unflatten(p: Pack, vec: Vector, c: real): Pack
    requires |p| >= 1
  {
    TupleApply(p, Place(vec, c), 0).1
  }

  lemma {:induction false} FilledMatrixShape(m: Matrix, vec: Vector, pos: nat, c: real)
    ensures forall j :: 0 <= j < |m| ==> |FilledMatrix(m, vec, pos, c)[j]| == |m[j]|
  {
    if m != [] {
      FilledMatrixShape(m[..|m| - 1], vec, pos, c);
    }
  }

  lemma {:induction false} FilledShape(p: Pack, vec: Vector, pos: nat, c: real)
    ensures Congruent(Filled(p, vec, pos, c), p)
  {
    if p != [] {
      FilledMatrixShape(p[0], vec, pos + Size(p[1..]), c);
      FilledShape(p[1..], vec, pos, c);
    }
  }

  /** The matrix filled up to row `j + 1` is the one filled up to row `j`
      and then row `j`, from where the rows before it stopped. */
  lemma FilledMatrixSnoc(m: Matrix, j: nat, vec: Vector, pos: nat, c: real)
    requires j < |m|
    ensures FilledMatrix(m[..j + 1], vec, pos, c)
      == FilledMatrix(m[..j], vec, pos, c) + [FilledRow(m[j], vec, pos + Entries(m[..j]), c)]
  {
    assert m[..j + 1][..j] == m[..j];
  }

  lemma {:induction false} FilledSnoc(u: Pack, x: Matrix, vec: Vector, s: nat, c: real)
    ensures Filled(u + [x], vec, s, c) == Filled(u, vec, s + Entries(x), c) + [FilledMatrix(x, vec, s, c)]
  {
    if u == [] {
      assert [x][1..] == [];
    } else {
      assert (u + [x])[1..] == u[1..] + [x];
      SizeSnoc(u[1..], x);
      FilledSnoc(u[1..], x, vec, s, c);
    }
  }

  lemma {:induction false} ApplyFromPlaces(t: Pack, vec: Vector, c: real, s: nat, n: nat)
    requires n < |t|
    ensures ApplyFrom(t, Place(vec, c), s, n) == (s + Size(t[..n + 1]), Filled(t[..n + 1], vec, s, c) + t[n + 1..])
    decreases n
  {
    var f := Place(vec, c);
    var x1 := FilledMatrix(t[n], vec, s, c);
    var s1: nat := s + Entries(t[n]);
    assert f(s, t[n]) == (s1, x1);
    assert t[..n + 1] == t[..n] + [t[n]];
    SizeSnoc(t[..n], t[n]);
    FilledSnoc(t[..n], t[n], vec, s, c);
    if n == 0 {
      assert t[..0] == [];
      assert Filled(t[..1], vec, s, c) == [x1];
      assert t[0 := x1] == [x1] + t[1..];
    } else {
      var t' := t[n := x1];
      assert ApplyFrom<nat, Matrix>(t, f, s, n) == ApplyFrom<nat, Matrix>(t', f, s1, n - 1);
      ApplyFromPlaces(t', vec, c, s1, n - 1);
      assert t'[..n] == t[..n];
      assert t'[n..] == [x1] + t[n + 1..];
      calc {
        Filled(t'[..n], vec, s1, c) + t'[n..];
        Filled(t[..n], vec, s1, c) + [x1] + t[n + 1..];
        Filled(t[..n + 1], vec, s, c) + t[n + 1..];
      }
    }
  }

  /** `vector2update` fills the layers from the last down, each from where
      the one after it stopped. */
  lemma UnflattenIsFilled(p: Pack, vec: Vector, c: real)
    requires |p| >= 1
    ensures Unflatten(p, vec, c) == Filled(p, vec, 0, c)
  {
    ApplyFromPlaces(p, vec, c, 0, |p| - 1);
    assert p[..|p|] == p && p[|p|..] == [];
  }

  /** `vector2update` keeps the shape of the update. */
  lemma UnflattenShape(p: Pack, vec: Vector, c: real)
    requires |p| >= 1
    ensures Congruent(Unflatten(p, vec, c), p)
  {
    UnflattenIsFilled(p, vec, c);
    FilledShape(p, vec, 0, c);
  }

  // ---------------------------------------------------------------------------
  // Round trips
  // ---------------------------------------------------------------------------

  lemma FilledFlatRow(r: Vector, vec: Vector, pos: nat, a: real, c: real)
    requires pos + |r| <= |vec| && vec[pos..pos + |r|] == ScaledRow(r, a)
    ensures FilledRow(r, vec, pos, c) == ScaledRow(r, a * c)
  {
    forall i | 0 <= i < |r| ensures FilledRow(r, vec, pos, c)[i] == ScaledRow(r, a * c)[i] {
      assert vec[pos + i] == vec[pos..pos + |r|][i];
    }
  }

  lemma {:induction false} FilledFlatMatrix(m: Matrix, vec: Vector, pos: nat, a: real, c: real)
    requires pos + Entries(m) <= |vec| && vec[pos..pos + Entries(m)] == FlattenMatrix(m, a)
    ensures FilledMatrix(m, vec, pos, c) == ScaledMatrix(m, a * c)
  {
    if m != [] {
      var init := m[..|m| - 1];
      var e := Entries(init);
      var r := m[|m| - 1];
      assert vec[pos..pos + e] == vec[pos..pos + Entries(m)][..e];
      assert vec[pos + e..pos + e + |r|] == vec[pos..pos + Entries(m)][e..];
      FilledFlatMatrix(init, vec, pos, a, c);
      FilledFlatRow(r, vec, pos + e, a, c);
      assert ScaledMatrix(m, a * c) == ScaledMatrix(init, a * c) + [ScaledRow(r, a * c)];
    }
  }

  lemma {:induction false} FlatFilledMatrix(m: Matrix, vec: Vector, pos: nat)
    requires pos + Entries(m) <= |vec|
    ensures FlattenMatrix(FilledMatrix(m, vec, pos, 1.0), 1.0) == vec[pos..pos + Entries(m)]
  {
    if m != [] {
      var init := m[..|m| - 1];
      var e := Entries(init);
      var r := m[|m| - 1];
      var f := FilledMatrix(m, vec, pos, 1.0);
      assert f[..|f| - 1] == FilledMatrix(init, vec, pos, 1.0);
      FlatFilledMatrix(init, vec, pos);
      assert ScaledRow(FilledRow(r, vec, pos + e, 1.0), 1.0) == vec[pos + e..pos + e + |r|];
      assert vec[pos..pos + Entries(m)] == vec[pos..pos + e] + vec[pos + e..pos + e + |r|];
    }
  }

  lemma {:induction false} FilledFlat(p: Pack, vec: Vector, pos: nat, a: real, c: real)
    requires pos + Size(p) <= |vec| && vec[pos..pos + Size(p)] == ConcatRev(FlattenLayer(a), p)
    ensures Filled(p, vec, pos, c) == ScaledPack(p, a * c)
  {
    if p != [] {
      FlatSplit(p, vec, pos, a);
      FilledFlat(p[1..], vec, pos, a, c);
      FilledFlatMatrix(p[0], vec, pos + Size(p[1..]), a, c);
      FilledJoin(p, vec, pos, a, c);
    }
  }

  /** The slice holding a pack's entries is the slice of its later layers
      followed by the slice of its first layer. */
  lemma FlatSplit(p: Pack, vec: Vector, pos: nat, a: real)
    requires p != [] && pos + Size(p) <= |vec| && vec[pos..pos + Size(p)] == ConcatRev(FlattenLayer(a), p)
    ensures pos + Size(p[1..]) + Entries(p[0]) <= |vec|
    ensures vec[pos..pos + Size(p[1..])] == ConcatRev(FlattenLayer(a), p[1..])
    ensures vec[pos + Size(p[1..])..pos + Size(p[1..]) + Entries(p[0])] == FlattenMatrix(p[0], a)
  {
    ConcatRevLength(p[1..], a);
    assert Size(p) == Size(p[1..]) + Entries(p[0]);
    ConcatRevCut(FlattenLayer(a), p, vec, pos, pos + Size(p[1..]), pos + Size(p));
    assert FlattenLayer(a)(p[0]) == FlattenMatrix(p[0], a);
  }

  /** The slice holding `ConcatRev(h, p)` splits where the later elements end. */
  lemma ConcatRevCut<X, Y>(h: X -> seq<Y>, p: seq<X>, vec: seq<Y>, pos: nat, mid: nat, end: nat)
    requires p != [] && pos <= mid <= end <= |vec| && mid - pos == |ConcatRev(h, p[1..])|
    requires vec[pos..end] == ConcatRev(h, p)
    ensures vec[pos..mid] == ConcatRev(h, p[1..]) && vec[mid..end] == h(p[0])
  {
    ConcatRevFront(h, p);
    CutAt(vec, pos, mid, end, ConcatRev(h, p[1..]), h(p[0]));
  }

  lemma ConcatRevFront<X, Y>(h: X -> seq<Y>, p: seq<X>)
    requires p != []
    ensures ConcatRev(h, p) == ConcatRev(h, p[1..]) + h(p[0])
  {
    assert [p[0]] + p[1..] == p;
    ConcatRevCons(h, p[0], p[1..]);
  }

  /** A slice equal to `front + back` holds `front` up to `|front|` and `back` after it. */
  lemma CutAt<Y>(v: seq<Y>, pos: nat, mid: nat, end: nat, front: seq<Y>, back: seq<Y>)
    requires pos <= mid <= end <= |v| && |front| == mid - pos
    requires v[pos..end] == front + back
    ensures v[pos..mid] == front && v[mid..end] == back
  {
    assert v[pos..mid] == v[pos..end][..mid - pos];
    assert v[mid..end] == v[pos..end][mid - pos..];
  }

  /** Two adjacent slices make up the slice across both. */
  lemma JoinAt<Y>(v: seq<Y>, pos: nat, mid: nat, end: nat, front: seq<Y>, back: seq<Y>)
    requires pos <= mid <= end <= |v|
    requires v[pos..mid] == front && v[mid..end] == back
    ensures v[pos..end] == front + back
  {
    assert v[pos..end] == v[pos..mid] + v[mid..end];
  }

  lemma FilledJoin(p: Pack, vec: Vector, pos: nat, a: real, c: real)
    requires p != []
    requires Filled(p[1..], vec, pos, c) == ScaledPack(p[1..], a * c)
    requires FilledMatrix(p[0], vec, pos + Size(p[1..]), c) == ScaledMatrix(p[0], a * c)
    ensures Filled(p, vec, pos, c) == ScaledPack(p, a * c)
  {
    assert ScaledPack(p, a * c) == [ScaledMatrix(p[0], a * c)] + ScaledPack(p[1..], a * c);
  }

  lemma {:induction false} FlatFilled(p: Pack, vec: Vector, pos: nat)
    requires pos + Size(p) <= |vec|
    ensures ConcatRev(FlattenLayer(1.0), Filled(p, vec, pos, 1.0)) == vec[pos..pos + Size(p)]
  {
    if p != [] {
      assert Size(p) == Size(p[1..]) + Entries(p[0]);
      FlatFilled(p[1..], vec, pos);
      FlatFilledMatrix(p[0], vec, pos + Size(p[1..]));
      FlatJoin(p, vec, pos);
    }
  }

  lemma FlatJoin(p: Pack, vec: Vector, pos: nat)
    requires p != [] && pos + Size(p) <= |vec|
    requires ConcatRev(FlattenLayer(1.0), Filled(p[1..], vec, pos, 1.0)) == vec[pos..pos + Size(p[1..])]
    requires FlattenMatrix(FilledMatrix(p[0], vec, pos + Size(p[1..]), 1.0), 1.0)
          == vec[pos + Size(p[1..])..pos + Size(p[1..]) + Entries(p[0])]
    ensures ConcatRev(FlattenLayer(1.0), Filled(p, vec, pos, 1.0)) == vec[pos..pos + Size(p)]
  {
    var x := FilledMatrix(p[0], vec, pos + Size(p[1..]), 1.0);
    var ft := Filled(p[1..], vec, pos, 1.0);
    assert Filled(p, vec, pos, 1.0) == [x] + ft;
    assert Size(p) == Size(p[1..]) + Entries(p[0]);
    ConsJoin(vec, pos, pos + Size(p[1..]), pos + Size(p), x, ft);
  }

  /** A layer put in front of a pack lands, in the vector, behind it. */
  lemma ConsJoin(vec: Vector, pos: nat, mid: nat, end: nat, x: Matrix, ft: Pack)
    requires pos <= mid <= end <= |vec|
    requires ConcatRev(FlattenLayer(1.0), ft) == vec[pos..mid]
    requires FlattenMatrix(x, 1.0) == vec[mid..end]
    ensures ConcatRev(FlattenLayer(1.0), [x] + ft) == vec[pos..end]
  {
    ConcatRevCons(FlattenLayer(1.0), x, ft);
    assert FlattenLayer(1.0)(x) == FlattenMatrix(x, 1.0);
    JoinAt(vec, pos, mid, end, ConcatRev(FlattenLayer(1.0), ft), FlattenMatrix(x, 1.0));
  }

  /** Writing a vector taken from a pack back into it scales the pack by the
      product of the two factors: with `update2vector(update, -1)` and
      `vector2update`'s `-ffactor(nround)`, the update times `ffactor(nround)`. */
  lemma UnflattenFlatten(p: Pack, a: real, c: real)
    requires |p| >= 1
    ensures Unflatten(p, Flatten(p, a), c) == ScaledPack(p, a * c)
  {
    var v := Flatten(p, a);
    FlattenIsConcat(p, a);
    FlattenLength(p, a);
    assert v[0..0 + Size(p)] == v;
    UnflattenIsFilled(p, v, c);
    FilledFlat(p, v, 0, a, c);
  }

  /** Reading back a vector of the pack's size and laying it out again gives
      the vector. */
  lemma FlattenUnflatten(p: Pack, vec: Vector)
    requires |p| >= 1 && |vec| == Size(p)
    ensures Flatten(Unflatten(p, vec, 1.0), 1.0) == vec
  {
    UnflattenIsFilled(p, vec, 1.0);
    var q := Unflatten(p, vec, 1.0);
    FlattenIsConcat(q, 1.0);
    FlatFilled(p, vec, 0);
    assert vec[0..0 + Size(p)] == vec;
  }

  // ---------------------------------------------------------------------------
  // The loops
  // ---------------------------------------------------------------------------

  /** `for (T y : x) vector.push_back(y * factor)`. */
  method PushRow(acc: Vector, r: Vector, c: real) returns (acc': Vector)
    ensures acc' == acc + ScaledRow(r, c)
  {
    acc' := acc;
    var i := 0;
    while i < |r|
      invariant 0 <= i <= |r|
      invariant acc' == acc + ScaledRow(r, c)[..i]
    {
      assert ScaledRow(r, c)[i] == r[i] * c;
      assert ScaledRow(r, c)[..i + 1] == ScaledRow(r, c)[..i] + [r[i] * c];
      acc' := acc' + [r[i] * c];
      i := i + 1;
    }
    assert ScaledRow(r, c)[..|r|] == ScaledRow(r, c);
  }

  /** `for (const auto& x : part) ...`: one matrix, row after row. */
  method PushMatrix(acc: Vector, m: Matrix, c: real) returns (acc': Vector)
    ensures acc' == acc + FlattenMatrix(m, c)
  {
    acc' := acc;
    var j := 0;
    while j < |m|
      invariant 0 <= j <= |m|
      invariant acc' == acc + FlattenMatrix(m[..j], c)
    {
      assert m[..j + 1][..j] == m[..j];
      acc' := PushRow(acc', m[j], c);
      j := j + 1;
    }
    assert m[..|m|] == m;
  }

  /** `update2vector(weights, factor)`: the layers from the last down, then
      the copy into the column matrix. */
  method Update2Vector(p: Pack, c: real) returns (result: Vector)
    requires |p| >= 1
    ensures result == Flatten(p, c)
    ensures |result| == Size(p)
  {
    var vector: Vector := [];
    var k := |p|;
    while k > 0
      invariant 0 <= k <= |p|
      invariant vector == ConcatRev(FlattenLayer(c), p[k..])
    {
      k := k - 1;
      assert p[k..] == [p[k]] + p[k + 1..];
      ConcatRevCons(FlattenLayer(c), p[k], p[k + 1..]);
      vector := PushMatrix(vector, p[k], c);
    }
    assert p[0..] == p;
    FlattenIsConcat(p, c);
    FlattenLength(p, c);
    result := seq(|vector|, _ => 0.0);
    var i := 0;
    while i < |vector|
      invariant 0 <= i <= |vector| == |result|
      invariant forall q :: 0 <= q < i ==> result[q] == vector[q]
    {
      result := result[i := vector[i]];
      i := i + 1;
    }
  }

  /** `for (T& y : x) y = vector(pos++, 0) * factor`. */
  method WriteRow(r: Vector, vec: Vector, pos: nat, c: real) returns (r': Vector, pos': nat)
    requires pos + |r| <= |vec|
    ensures r' == FilledRow(r, vec, pos, c) && pos' == pos + |r|
  {
    r' := r;
    var i := 0;
    while i < |r|
      invariant 0 <= i <= |r| == |r'|
      invariant forall q :: 0 <= q < |r| ==> r'[q] == if q < i then vec[pos + q] * c else r[q]
    {
      r' := r'[i := vec[pos + i] * c];
      i := i + 1;
    }
    pos' := pos + |r|;
    assert forall q :: 0 <= q < |r| ==> r'[q] == FilledRow(r, vec, pos, c)[q];
  }

  /** One matrix of `vector2update`, row after row. */
  method WriteMatrix(m: Matrix, vec: Vector, pos: nat, c: real) returns (m': Matrix, pos': nat)
    requires pos + Entries(m) <= |vec|
    ensures m' == FilledMatrix(m, vec, pos, c) && pos' == pos + Entries(m)
  {
    m' := m;
    pos' := pos;
    var j := 0;
    while j < |m|
      invariant 0 <= j <= |m|
      invariant m' == FilledMatrix(m[..j], vec, pos, c) + m[j..]
      invariant pos' == pos + Entries(m[..j])
    {
      EntriesPrefix(m, j);
      FilledMatrixSnoc(m, j, vec, pos, c);
      var row;
      row, pos' := WriteRow(m[j], vec, pos', c);
      SpliceAt(FilledMatrix(m[..j], vec, pos, c), m[j..], row);
      assert m[j..][1..] == m[j + 1..];
      m' := m'[j := row];
      j := j + 1;
    }
    assert m[..|m|] == m;
  }

  /** Overwriting the first element after `done`. */
  lemma SpliceAt<Y>(done: seq<Y>, rest: seq<Y>, y: Y)
    requires |rest| >= 1
    ensures (done + rest)[|done| := y] == done + [y] + rest[1..]
  {
  }

  /** One turn of `vector2update`'s loop: layer `k` takes its entries from
      where the layers after it ended. */
  lemma FillLayer(p: Pack, k: nat, vec: Vector, c: real, cur: Pack, m: Matrix)
    requires k < |p| && cur == p[..k + 1] + Filled(p[k + 1..], vec, 0, c)
    requires m == FilledMatrix(p[k], vec, Size(p[k + 1..]), c)
    ensures cur[k := m] == p[..k] + Filled(p[k..], vec, 0, c)
  {
    var rest := Filled(p[k + 1..], vec, 0, c);
    assert p[k..][1..] == p[k + 1..];
    assert p[..k + 1] == p[..k] + [p[k]];
    SpliceAt(p[..k], [p[k]] + rest, m);
    assert ([p[k]] + rest)[1..] == rest;
  }

  lemma {:induction false} SizeSuffix(p: Pack, k: nat)
    requires k < |p|
    ensures Size(p[k..]) == Entries(p[k]) + Size(p[k + 1..])
    ensures Size(p[k..]) <= Size(p)
  {
    assert p[k..][1..] == p[k + 1..];
    if k > 0 {
      SizeSuffix(p, k - 1);
    } else {
      assert p[0..] == p;
    }
  }

  /** `vector2update(update, vector)`: the layers from the last down, `pos`
      running on through all of them. */
  method Vector2Update(p: Pack, vec: Vector, c: real) returns (p': Pack)
    requires |p| >= 1 && Size(p) <= |vec|
    ensures p' == Unflatten(p, vec, c)
  {
    p' := p;
    var pos: nat := 0;
    var k := |p|;
    while k > 0
      invariant 0 <= k <= |p|
      invariant p' == p[..k] + Filled(p[k..], vec, 0, c)
      invariant pos == Size(p[k..])
    {
      k := k - 1;
      SizeSuffix(p, k);
      var m;
      m, pos := WriteMatrix(p[k], vec, pos, c);
      FillLayer(p, k, vec, c, p', m);
      p' := p'[k := m];
    }
    assert p[..0] == [] && p[0..] == p;
    UnflattenIsFilled(p, vec, c);
  }
}
