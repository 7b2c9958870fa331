/** The trainers of nntlib (`training.hpp`). `batch_template::train_impl`
    runs `rounds` passes over the samples. Each pass evaluates the samples in
    order, sums their gradients in batches of `bsize`, and commits a batch
    only once the first sample of the next one has been evaluated. The last
    batch is committed after the pass, however short it is. A commit scales
    the sum by `-ffactor(round) / bsize`, applies the L2 decay to every
    non-bias entry, hands the update to the hook and adds it to the weights.
    `batch` trains with a hook that does nothing, `lbfgs` with the hook of
    module `Lbfgs`. The callbacks are modelled as a trace of events. */
module Training {
  import opened Utils
  import opened Layer
  import opened Net
  import opened Packs
  import opened Vectorize
  import opened Lbfgs

  // ---------------------------------------------------------------------------
  // Learning-rate schedules
  // ---------------------------------------------------------------------------

  /** `base` to a natural power. */
  function Pow(base: real, i: nat): real {
    if i == 0 then 1.0 else Pow(base, i - 1) * base
  }

  /** `func_factor_const(factor)`: the same factor in every round. */
  function FactorConst(factor: real): (f: nat -> real)
    ensures forall i :: f(i) == factor
  {
    (i: nat) => factor
  }

  /** `func_factor_exp(factor, base)`: `factor * base^i` in round `i`. */
  function FactorExp(factor: real, base: real): (f: nat -> real)
    ensures f(0) == factor
  {
    (i: nat) => factor * Pow(base, i)
  }

  /** Each round of the exponential schedule is the one before times `base`. */
  lemma FactorExpStep(factor: real, base: real, i: nat)
    ensures FactorExp(factor, base)(i + 1) == FactorExp(factor, base)(i) * base
  {
    assert Pow(base, i + 1) == Pow(base, i) * base;
  }

  lemma {:induction false} PowOne(i: nat)
    ensures Pow(1.0, i) == 1.0
  {
    if i > 0 {
      PowOne(i - 1);
    }
  }

  /** With base 1 the exponential schedule is the constant one. */
  lemma FactorExpOne(factor: real, i: nat)
    ensures FactorExp(factor, 1.0)(i) == FactorConst(factor)(i)
  {
    PowOne(i);
  }

  // ---------------------------------------------------------------------------
  // The state of a training run
  // ---------------------------------------------------------------------------

  /** What the callbacks see, in order: the evaluation of a sample, a commit,
      the batch callback `fbatch()` and the round callback `fround(round)`. */
  datatype Event = Evaluated(round: nat, sample: nat) | Committed(round: nat) | BatchCallback | RoundCallback(round: nat)

  /** The members of `batch_template`. */
  datatype Config = Config(ffactor: nat -> real, bsize: nat, rounds: nat, l2: real)

  /** The update hook: the no-op of `batch`, or the hook of `lbfgs` with its
      schedule, history bound and captured state. */
  datatype Hook = Plain | Quasi(ffactor: nat -> real, histsize: nat, state: HookState)

  /** `cache_state`, `cache_error` and `cache_gradient` of `train_impl`. */
  datatype Caches = Caches(state: seq<Vector>, error: seq<Vector>, gradient: Pack)

  /** Everything a training run changes: the layers, the caches, the hook and
      the trace of events. */
  datatype World = World(layers: seq<LayerValue>, caches: Caches, hook: Hook, log: seq<Event>)

  /** The locals of the sample loop: `gradients_sum`, `batchcounter` and
      `first_batch`. */
  datatype BatchState = BatchState(sum: Pack, counter: nat, first: bool)

  /** The caches have the shapes `backward` needs; the gradient cache has the
      weights' shape. */
  predicate CachesFit(sh: seq<LayerShape>, c: Caches) {
    StateFits(sh, c.state) && ErrorFits(sh, c.error) && GradFits(sh, c.gradient) && Mirrors(sh, c.gradient)
  }

  /** A world whose layers have shapes `sh`. */
  predicate Fits(sh: seq<LayerShape>, w: World) {
    Chained(sh) && ShapesOf(w.layers) == sh && CachesFit(sh, w.caches)
    && (w.hook.Quasi? ==> HookFits(w.hook.state, Size(NetWeights(w.layers))))
  }

  /** Once the first sample is in, the sum has the weights' shape. */
  predicate BatchFits(sh: seq<LayerShape>, b: BatchState) {
    (b.first ==> b.counter == 0) && (!b.first ==> Mirrors(sh, b.sum))
  }

  /** Every sample the loop reaches can be propagated back through the net. */
  predicate Accepted(sh: seq<LayerShape>, xs: seq<Vector>, ys: seq<Vector>) {
    |sh| >= 1 && forall q :: 0 <= q < |xs| && q < |ys| ==> BackwardAccepts(sh[0], xs[q])
  }

  /** Whether `train_impl` can run from world `w` over `xs`, `ys`. */
  datatype Verdict = Fit | Unfit

  /** `Fit` when the world has shapes `sh`, the net takes every sample and
      batches have at least one sample unless there are no samples. A value
      rather than a predicate, so that callers state the conditions once. */
  function Admits(cfg: Config, sh: seq<LayerShape>, w: World, xs: seq<Vector>, ys: seq<Vector>): Verdict {
    if Fits(sh, w) && Accepted(sh, xs, ys) && (cfg.bsize >= 1 || Min(|xs|, |ys|) == 0) then Fit else Unfit
  }

  /** The hook, its schedule and its history bound are kept, and so is `nround`. */
  ghost predicate SameHook(a: Hook, b: Hook) {
    a.Plain? == b.Plain? && (a.Quasi? ==> a.ffactor == b.ffactor && a.histsize == b.histsize && a.state.nround == b.state.nround)
  }

  // ---------------------------------------------------------------------------
  // Shapes shared by packs
  // ---------------------------------------------------------------------------

  /** Layers of one shape have flattened weights of one length. */
  lemma WidthByShape(vs: seq<LayerValue>, us: seq<LayerValue>)
    requires ShapesOf(vs) == ShapesOf(us)
    ensures Size(NetWeights(vs)) == Size(NetWeights(us))
  {
    WeightsMirror(vs);
    WeightsMirror(us);
    MirrorsCongruent(ShapesOf(vs), NetWeights(vs), NetWeights(us));
    SizeCongruent(NetWeights(vs), NetWeights(us));
  }

  // ---------------------------------------------------------------------------
  // `prepare_and_commit_update`
  // ---------------------------------------------------------------------------

  /** The factor of the scaling pass, `-round_factor / batch_size`. */
  function StepScale(rf: real, bsize: nat): real
    requires bsize >= 1
  {
    -rf / (bsize as real)
  }

  /** The scaling and L2 passes over the gradient sum. */
  function Prepared(cfg: Config, sum: Pack, weights: Pack, n: nat, rf: real): Pack
    requires cfg.bsize >= 1 && n >= 1 && 1 <= |sum| <= |weights|
  {
    var scaled := ScaledPack(sum, StepScale(rf, cfg.bsize));
    if cfg.l2 > 0.0 then L2Pack(scaled, weights, cfg.l2, n) else scaled
  }

  /** The passes keep the shape of the sum. */
  lemma PreparedShape(cfg: Config, sum: Pack, weights: Pack, n: nat, rf: real)
    requires cfg.bsize >= 1 && n >= 1 && 1 <= |sum| <= |weights|
    ensures Congruent(Prepared(cfg, sum, weights, n, rf), sum)
  {
    var scaled := ScaledPack(sum, StepScale(rf, cfg.bsize));
    ScaledShape(sum, StepScale(rf, cfg.bsize));
    if cfg.l2 > 0.0 {
      L2PackAt(scaled, weights, cfg.l2, n);
      CongruentTrans(L2Pack(scaled, weights, cfg.l2, n), scaled, sum);
    }
  }

  /** Entry `[k][j][i]` of the update is the summed gradient times
      `c = -rf / bsize`; with `l2 > 0` an entry that is not a bias and has a
      weight also loses `weight * l2 / n`. */
  lemma PreparedAt(cfg: Config, sum: Pack, weights: Pack, n: nat, rf: real, c: real, k: nat, j: nat, i: nat)
    requires cfg.bsize >= 1 && n >= 1 && 1 <= |sum| <= |weights| && c == StepScale(rf, cfg.bsize)
    requires k < |sum| && j < |sum[k]| && i < |sum[k][j]|
    ensures var p := Prepared(cfg, sum, weights, n, rf); |p| == |sum| && |p[k]| == |sum[k]| && |p[k][j]| == |sum[k][j]|
    ensures cfg.l2 > 0.0 && j < |weights[k]| && 0 < i < |weights[k][j]| ==>
      Prepared(cfg, sum, weights, n, rf)[k][j][i] == Decayed(sum[k][j][i] * c, weights[k][j][i], cfg.l2, n)
    ensures !(cfg.l2 > 0.0 && j < |weights[k]| && 0 < i < |weights[k][j]|) ==>
      Prepared(cfg, sum, weights, n, rf)[k][j][i] == sum[k][j][i] * c
  {
    if cfg.l2 > 0.0 && j < |weights[k]| && 0 < i < |weights[k][j]| {
      DecayedAt(cfg, sum, weights, n, rf, c, k, j, i);
    } else {
      ScaledAt(cfg, sum, weights, n, rf, c, k, j, i);
    }
  }

  lemma DecayedAt(cfg: Config, sum: Pack, weights: Pack, n: nat, rf: real, c: real, k: nat, j: nat, i: nat)
    requires cfg.bsize >= 1 && n >= 1 && 1 <= |sum| <= |weights| && c == StepScale(rf, cfg.bsize)
    requires k < |sum| && j < |sum[k]| && i < |sum[k][j]|
    requires cfg.l2 > 0.0 && j < |weights[k]| && 0 < i < |weights[k][j]|
    ensures var p := Prepared(cfg, sum, weights, n, rf); |p| == |sum| && |p[k]| == |sum[k]| && |p[k][j]| == |sum[k][j]|
    ensures Prepared(cfg, sum, weights, n, rf)[k][j][i] == Decayed(sum[k][j][i] * c, weights[k][j][i], cfg.l2, n)
  {
    PreparedUnfold(cfg, sum, weights, n, rf, c);
    DecayEntry(sum, c, weights, cfg.l2, n, k, j, i);
    EntryOf(Prepared(cfg, sum, weights, n, rf), L2Pack(ScaledPack(sum, c), weights, cfg.l2, n), k, j, i,
            Decayed(sum[k][j][i] * c, weights[k][j][i], cfg.l2, n));
  }

  lemma EntryOf(p: Pack, q: Pack, k: nat, j: nat, i: nat, v: real)
    requires p == q && k < |q| && j < |q[k]| && i < |q[k][j]| && q[k][j][i] == v
    ensures p[k][j][i] == v
  {
  }

  lemma ScaledAt(cfg: Config, sum: Pack, weights: Pack, n: nat, rf: real, c: real, k: nat, j: nat, i: nat)
    requires cfg.bsize >= 1 && n >= 1 && 1 <= |sum| <= |weights| && c == StepScale(rf, cfg.bsize)
    requires k < |sum| && j < |sum[k]| && i < |sum[k][j]|
    requires !(cfg.l2 > 0.0 && j < |weights[k]| && 0 < i < |weights[k][j]|)
    ensures var p := Prepared(cfg, sum, weights, n, rf); |p| == |sum| && |p[k]| == |sum[k]| && |p[k][j]| == |sum[k][j]|
    ensures Prepared(cfg, sum, weights, n, rf)[k][j][i] == sum[k][j][i] * c
  {
    PreparedUnfold(cfg, sum, weights, n, rf, c);
    if cfg.l2 > 0.0 {
      DecayEntry(sum, c, weights, cfg.l2, n, k, j, i);
    } else {
      ScaledEntry(sum, c, k, j, i);
    }
  }

  lemma PreparedUnfold(cfg: Config, sum: Pack, weights: Pack, n: nat, rf: real, c: real)
    requires cfg.bsize >= 1 && n >= 1 && 1 <= |sum| <= |weights| && c == StepScale(rf, cfg.bsize)
    ensures cfg.l2 > 0.0 ==> Prepared(cfg, sum, weights, n, rf) == L2Pack(ScaledPack(sum, c), weights, cfg.l2, n)
    ensures cfg.l2 <= 0.0 ==> Prepared(cfg, sum, weights, n, rf) == ScaledPack(sum, c)
  {
  }

  /** One entry of the L2 pass over a scaled sum. */
  lemma DecayEntry(sum: Pack, c: real, weights: Pack, l2: real, n: nat, k: nat, j: nat, i: nat)
    requires 1 <= |sum| <= |weights| && n >= 1 && k < |sum| && j < |sum[k]| && i < |sum[k][j]|
    ensures var p := L2Pack(ScaledPack(sum, c), weights, l2, n); |p| == |sum| && |p[k]| == |sum[k]| && |p[k][j]| == |sum[k][j]|
    ensures j < |weights[k]| && 0 < i < |weights[k][j]| ==>
      L2Pack(ScaledPack(sum, c), weights, l2, n)[k][j][i] == Decayed(sum[k][j][i] * c, weights[k][j][i], l2, n)
    ensures !(j < |weights[k]| && 0 < i < |weights[k][j]|) ==>
      L2Pack(ScaledPack(sum, c), weights, l2, n)[k][j][i] == sum[k][j][i] * c
  {
    var scaled := ScaledPack(sum, c);
    ScaledEntry(sum, c, k, j, i);
    L2PackEntry(scaled, weights, l2, n, k, j, i);
  }


  /** The hook call `update_hook(gradients_sum)`, with `net.get_weights()`
      for the `lbfgs` hook. */
  function Hooked(hook: Hook, update: Pack, weights: Pack): (r: (Hook, Pack))
    requires |update| >= 1 && |weights| >= 1 && Size(update) == Size(weights)
    requires hook.Quasi? ==> HookFits(hook.state, Size(update))
    ensures Congruent(r.1, update) && SameHook(r.0, hook)
    ensures r.0.Quasi? ==> HookFits(r.0.state, Size(update))
  {
    match hook
    case Plain => (Plain, update)
    case Quasi(f, histsize, h) =>
      var (h', u) := HookStep(f, histsize, h, update, weights);
      (Quasi(f, histsize, h'), u)
  }

  /** The update `prepare_and_commit_update` hands to `net.update`, and the
      hook after the call. */
  function CommitUpdate(cfg: Config, sh: seq<LayerShape>, w: World, sum: Pack, n: nat, round: nat): (r: (Hook, Pack))
    requires Fits(sh, w) && Mirrors(sh, sum) && cfg.bsize >= 1 && n >= 1
    ensures Congruent(r.1, sum) && |r.1| == |w.layers| && SameHook(r.0, w.hook)
    ensures r.0.Quasi? ==> HookFits(r.0.state, Size(NetWeights(w.layers)))
  {
    var weights := NetWeights(w.layers);
    WeightsMirror(w.layers);
    MirrorsCongruent(sh, sum, weights);
    PreparedShape(cfg, sum, weights, n, cfg.ffactor(round));
    var p := Prepared(cfg, sum, weights, n, cfg.ffactor(round));
    CongruentTrans(p, sum, weights);
    SizeCongruent(p, weights);
    var r := Hooked(w.hook, p, weights);
    CongruentTrans(r.1, p, sum);
    r
  }

  /** `prepare_and_commit_update`: scale, decay, hook, then `net.update`. */
  function Commit(cfg: Config, sh: seq<LayerShape>, w: World, sum: Pack, n: nat, round: nat): (r: World)
    requires Fits(sh, w) && Mirrors(sh, sum) && cfg.bsize >= 1 && n >= 1
    ensures Fits(sh, r) && r.caches == w.caches && r.log == w.log + [Committed(round)]
    ensures SameHook(r.hook, w.hook)
  {
    var (hook, p) := CommitUpdate(cfg, sh, w, sum, n, round);
    var layers := NetUpdate(w.layers, p);
    WidthByShape(layers, w.layers);
    World(layers, w.caches, hook, w.log + [Committed(round)])
  }

  /** A commit adds its update to the weights, layer by layer; without an
      L-BFGS hook the update is the prepared sum. */
  lemma CommitAdds(cfg: Config, sh: seq<LayerShape>, w: World, sum: Pack, n: nat, round: nat)
    requires Fits(sh, w) && Mirrors(sh, sum) && cfg.bsize >= 1 && n >= 1
    ensures var p := CommitUpdate(cfg, sh, w, sum, n, round).1;
      NetWeights(Commit(cfg, sh, w, sum, n, round).layers)
        == seq(|w.layers|, k requires 0 <= k < |w.layers| => AddInto(NetWeights(w.layers)[k], p[k]))
    ensures |sum| <= |NetWeights(w.layers)|
    ensures w.hook.Plain? ==>
      CommitUpdate(cfg, sh, w, sum, n, round).1 == Prepared(cfg, sum, NetWeights(w.layers), n, cfg.ffactor(round))
  {
    WeightsMirror(w.layers);
    MirrorsCongruent(sh, sum, NetWeights(w.layers));
    UpdateAddsPack(w.layers, CommitUpdate(cfg, sh, w, sum, n, round).1);
  }

  // ---------------------------------------------------------------------------
  // `train_impl`
  // ---------------------------------------------------------------------------

  /** `batchcounter = (batchcounter + 1) % bsize` for a counter below
      `bsize`, the only counters the loop holds (see `TickIsMod`). */
  function Tick(counter: nat, b: nat): (k: nat)
    requires counter < b
    ensures k < b
  {
    if counter + 1 == b then 0 else counter + 1
  }

  /** `Tick` is `training.hpp`'s `(batchcounter + 1) % bsize`. */
  lemma TickIsMod(counter: nat, b: nat)
    requires counter < b
    ensures Tick(counter, b) == (counter + 1) % b
  {
  }

  lemma Regroup3(log: seq<Event>, a: Event, b: Event, c: Event)
    ensures log + [a] + [b] + [c] == log + [a, b, c]
  {
  }

  /** One turn of the sample loop: `backward` on sample `q`, then either the
      commit of the previous batch and a fresh sum, or the gradient added to
      the sum; then `batchcounter = (batchcounter + 1) % bsize`. */
  function SampleStep(cfg: Config, lossDf: (real, real) -> real, sh: seq<LayerShape>, w: World, b: BatchState,
                      x: Vector, t: Vector, n: nat, round: nat, q: nat): (r: (World, BatchState))
    requires Fits(sh, w) && BatchFits(sh, b) && b.counter < cfg.bsize && n >= 1 && BackwardAccepts(sh[0], x)
    ensures Fits(sh, r.0) && BatchFits(sh, r.1) && !r.1.first && SameHook(r.0.hook, w.hook)
    ensures r.0.log == w.log + TurnEvents(round, q, b.counter == 0 && !b.first)
    ensures r.1.counter == Tick(b.counter, cfg.bsize)
    ensures b.counter == 0 ==> r.1.sum == r.0.caches.gradient
    ensures b.counter != 0 ==> 1 <= |b.sum| <= |r.0.caches.gradient| && r.1.sum == PackAdd(b.sum, r.0.caches.gradient)
  {
    var pass := NetBackward(w.layers, lossDf, 0, x, t, w.caches.state, w.caches.error, w.caches.gradient);
    BackwardGradientMirrors(w.layers, lossDf, x, t, w.caches.state, w.caches.error, w.caches.gradient);
    WidthByShape(pass.layers, w.layers);
    var w1 := World(pass.layers, Caches(pass.state, pass.error, pass.gradient), w.hook, w.log + [Evaluated(round, q)]);
    if b.counter == 0 then
      var w2 := if b.first then w1 else (
        var c := Commit(cfg, sh, w1, b.sum, n, round);
        Regroup3(w.log, Evaluated(round, q), Committed(round), BatchCallback);
        World(c.layers, c.caches, c.hook, c.log + [BatchCallback]));
      (w2, BatchState(pass.gradient, Tick(b.counter, cfg.bsize), false))
    else
      MirrorsCongruent(sh, b.sum, pass.gradient);
      PackAddEntries(b.sum, pass.gradient);
      MirrorsCarry(sh, b.sum, PackAdd(b.sum, pass.gradient));
      (w1, BatchState(PackAdd(b.sum, pass.gradient), Tick(b.counter, cfg.bsize), b.first))
  }

  /** The sample loop of round `round` after its first `i` samples. */
  function RoundPrefix(cfg: Config, lossDf: (real, real) -> real, sh: seq<LayerShape>, w: World,
                       xs: seq<Vector>, ys: seq<Vector>, round: nat, i: nat): (r: (World, BatchState))
    requires Admits(cfg, sh, w, xs, ys) == Fit && i <= Min(|xs|, |ys|)
    ensures Fits(sh, r.0) && BatchFits(sh, r.1) && r.1.first == (i == 0) && SameHook(r.0.hook, w.hook)
    ensures cfg.bsize >= 1 ==> r.0.log == w.log + Events(round, i, cfg.bsize) && r.1.counter == CounterAt(i, cfg.bsize)
  {
    if i == 0 then
      assert w.log + [] == w.log;
      (w, BatchState([], 0, true))
    else
      var p := RoundPrefix(cfg, lossDf, sh, w, xs, ys, round, i - 1);
      var r := SampleStep(cfg, lossDf, sh, p.0, p.1, xs[i - 1], ys[i - 1], |xs|, round, i - 1);
      LogStep(w.log, p.0.log, r.0.log, Events(round, i - 1, cfg.bsize),
              TurnEvents(round, i - 1, i - 1 > 0 && CounterAt(i - 1, cfg.bsize) == 0), Events(round, i, cfg.bsize));
      r
  }

  /** `lbfgs`'s round callback sets `nround = round + 1`. */
  function NextRound(hook: Hook, round: nat): (r: Hook)
    ensures r.Plain? == hook.Plain? && (r.Quasi? ==> r.ffactor == hook.ffactor && r.histsize == hook.histsize)
    ensures r.Quasi? ==> r.state == hook.state.(nround := round + 1)
  {
    if hook.Quasi? then hook.(state := hook.state.(nround := round + 1)) else hook
  }

  /** One round: the sample loop, the commit of the last batch, the round
      callback. */
  function Round(cfg: Config, lossDf: (real, real) -> real, sh: seq<LayerShape>, w: World,
                 xs: seq<Vector>, ys: seq<Vector>, round: nat): (r: World)
    requires Admits(cfg, sh, w, xs, ys) == Fit
    ensures Fits(sh, r)
    ensures r.log == w.log + RoundEvents(round, Min(|xs|, |ys|), cfg.bsize)
    ensures r.hook.Plain? == w.hook.Plain?
    ensures r.hook.Quasi? ==> r.hook.ffactor == w.hook.ffactor && r.hook.histsize == w.hook.histsize && r.hook.state.nround == round + 1
  {
    var p := RoundPrefix(cfg, lossDf, sh, w, xs, ys, round, Min(|xs|, |ys|));
    var w2 := if p.1.first then p.0 else Commit(cfg, sh, p.0, p.1.sum, |xs|, round);
    var r := World(w2.layers, w2.caches, NextRound(w2.hook, round), w2.log + [RoundCallback(round)]);
    if p.1.first then r
    else
      CloseLog(w.log, Events(round, Min(|xs|, |ys|), cfg.bsize), round);
      r
  }

  /** The first `r` rounds. */
  function Rounds(cfg: Config, lossDf: (real, real) -> real, sh: seq<LayerShape>, w: World,
                  xs: seq<Vector>, ys: seq<Vector>, r: nat): (res: World)
    requires Admits(cfg, sh, w, xs, ys) == Fit
    ensures Fits(sh, res)
    ensures res.hook.Plain? == w.hook.Plain?
    ensures res.hook.Quasi? ==>
      (res.hook.ffactor == w.hook.ffactor && res.hook.histsize == w.hook.histsize
       && res.hook.state.nround == if r == 0 then w.hook.state.nround else r)
  {
    if r == 0 then w else Round(cfg, lossDf, sh, Rounds(cfg, lossDf, sh, w, xs, ys, r - 1), xs, ys, r - 1)
  }

  /** The events of rounds `0` to `r - 1`, `m` samples each. */
  function Repeated(r: nat, m: nat, b: nat): seq<Event>
    requires b >= 1 || m == 0
  {
    if r == 0 then [] else Repeated(r - 1, m, b) + RoundEvents(r - 1, m, b)
  }

  lemma Regroup(start: seq<Event>, prev: seq<Event>, next: seq<Event>, done: seq<Event>, ev: seq<Event>)
    requires prev == start + done && next == prev + ev
    ensures next == start + (done + ev)
  {
  }

  /** The caches `train_impl` allocates. */
  function Allocated(vs: seq<LayerValue>): (c: Caches)
    requires Chained(ShapesOf(vs))
    ensures CachesFit(ShapesOf(vs), c)
  {
    AllocDeltaMirrors(vs);
    Caches(AllocState(ShapesOf(vs)), AllocError(ShapesOf(vs)), AllocDelta(vs))
  }

  /** `train_impl` on layers `vs` with a hook and the trace so far. */
  function TrainImpl(cfg: Config, lossDf: (real, real) -> real, vs: seq<LayerValue>, hook: Hook, log: seq<Event>,
                     xs: seq<Vector>, ys: seq<Vector>): (r: World)
    requires Chained(ShapesOf(vs)) && Accepted(ShapesOf(vs), xs, ys) && (cfg.bsize >= 1 || Min(|xs|, |ys|) == 0)
    requires hook.Quasi? ==> HookFits(hook.state, Size(NetWeights(vs)))
    ensures ShapesOf(r.layers) == ShapesOf(vs)
  {
    var w := World(vs, Allocated(vs), hook, log);
    Rounds(cfg, lossDf, ShapesOf(vs), w, xs, ys, cfg.rounds)
  }

  // ---------------------------------------------------------------------------
  // Counting events
  // ---------------------------------------------------------------------------

  /** Number of events of the trace that satisfy `p`. */
  function Tally(log: seq<Event>, p: Event -> bool): nat {
    if log == [] then 0 else Tally(log[..|log| - 1], p) + (if p(log[|log| - 1]) then 1 else 0)
  }

  /** The samples evaluated, in trace order. */
  function Samples(log: seq<Event>): seq<nat> {
    if log == [] then []
    else Samples(log[..|log| - 1]) + (if log[|log| - 1].Evaluated? then [log[|log| - 1].sample] else [])
  }

  function IsCommit(e: Event): bool { e.Committed? }
  function IsBatchCall(e: Event): bool { e.BatchCallback? }
  function IsRoundCall(e: Event): bool { e.RoundCallback? }

  /** `0, 1, ..., m - 1`. */
  function Range(m: nat): (r: seq<nat>)
    ensures |r| == m && forall q :: 0 <= q < m ==> r[q] == q
  {
    seq(m, q requires 0 <= q < m => q)
  }

  /** `ceil(m / b)`. */
  function Ceil(m: nat, b: nat): nat
    requires b >= 1
  {
    (m + b - 1) / b
  }

  /** The events of one turn of the sample loop: the evaluation of sample
      `q`, then the commit and the batch callback when a batch is complete. */
  function TurnEvents(round: nat, q: nat, wrapped: bool): seq<Event> {
    if wrapped then [Evaluated(round, q), Committed(round), BatchCallback] else [Evaluated(round, q)]
  }

  /** A count grows by one event at a time. */
  lemma Snoc(log: seq<Event>, e: Event, p: Event -> bool)
    ensures Tally(log + [e], p) == Tally(log, p) + (if p(e) then 1 else 0)
    ensures Samples(log + [e]) == Samples(log) + (if e.Evaluated? then [e.sample] else [])
  {
    assert (log + [e])[..|log|] == log;
  }

  /** What a turn adds to the counts. */
  lemma TurnCounts(round: nat, q: nat, wrapped: bool, p: Event -> bool)
    ensures var t := TurnEvents(round, q, wrapped);
      Tally(t, p) == (if p(Evaluated(round, q)) then 1 else 0)
        + (if wrapped && p(Committed(round)) then 1 else 0) + (if wrapped && p(BatchCallback) then 1 else 0)
      && Samples(t) == [q]
  {
    var e := [Evaluated(round, q)];
    Snoc([], Evaluated(round, q), p);
    assert [] + e == e;
    if wrapped {
      var ec := e + [Committed(round)];
      Snoc(e, Committed(round), p);
      Snoc(ec, BatchCallback, p);
      assert ec + [BatchCallback] == TurnEvents(round, q, wrapped);
    }
  }

  /** What the end of a round adds to the counts. */
  lemma CloseCounts(round: nat, p: Event -> bool)
    ensures Tally([Committed(round), RoundCallback(round)], p)
      == (if p(Committed(round)) then 1 else 0) + (if p(RoundCallback(round)) then 1 else 0)
    ensures Tally([RoundCallback(round)], p) == if p(RoundCallback(round)) then 1 else 0
    ensures Samples([Committed(round), RoundCallback(round)]) == [] && Samples([RoundCallback(round)]) == []
  {
    Snoc([], Committed(round), p);
    assert [] + [Committed(round)] == [Committed(round)];
    Snoc([Committed(round)], RoundCallback(round), p);
    assert [Committed(round)] + [RoundCallback(round)] == [Committed(round), RoundCallback(round)];
    Snoc([], RoundCallback(round), p);
    assert [] + [RoundCallback(round)] == [RoundCallback(round)];
  }

  /** Counts over a trace add up over its parts. */
  lemma {:induction false} TallyAppend(a: seq<Event>, b: seq<Event>, p: Event -> bool)
    ensures Tally(a + b, p) == Tally(a, p) + Tally(b, p)
    ensures Samples(a + b) == Samples(a) + Samples(b)
    decreases |b|
  {
    if b == [] {
      assert a + b == a;
    } else {
      var b' := b[..|b| - 1];
      assert (a + b)[..|a + b| - 1] == a + b';
      TallyAppend(a, b', p);
    }
  }

  /** `batchcounter` before sample `i`: `0, 1, ..., b - 1, 0, 1, ...`. */
  function CounterAt(i: nat, b: nat): (k: nat)
    requires b >= 1
    ensures k < b
  {
    if i == 0 then 0 else Tick(CounterAt(i - 1, b), b)
  }

  /** The events the sample loop adds in its first `i` turns, `b` samples a
      batch. The commit of a batch follows the evaluation of the first
      sample of the next one. */
  function Events(round: nat, i: nat, b: nat): seq<Event>
    requires b >= 1
  {
    if i == 0 then [] else Events(round, i - 1, b) + TurnEvents(round, i - 1, i - 1 > 0 && CounterAt(i - 1, b) == 0)
  }

  /** The events of a round of `m` samples: the sample loop, the commit of
      the last batch when there was a sample, the round callback. */
  function RoundEvents(round: nat, m: nat, b: nat): seq<Event>
    requires b >= 1 || m == 0
  {
    if m == 0 then [RoundCallback(round)] else Events(round, m, b) + [Committed(round), RoundCallback(round)]
  }

  lemma LogStep(start: seq<Event>, mid: seq<Event>, end: seq<Event>, before: seq<Event>, turn: seq<Event>, after: seq<Event>)
    requires mid == start + before && end == mid + turn && after == before + turn
    ensures end == start + after
  {
    assert (start + before) + turn == start + (before + turn);
  }

  lemma CloseLog(log: seq<Event>, ev: seq<Event>, round: nat)
    ensures log + ev + [Committed(round)] + [RoundCallback(round)] == log + (ev + [Committed(round), RoundCallback(round)])
  {
  }

  lemma LessByFactor(x: int, y: int, b: int)
    requires b >= 1 && x * b < y * b
    ensures x < y
  {
  }

  /** The inequalities that pin `ceil(m / b)` down. */
  lemma CeilUnique(c: nat, m: nat, b: nat)
    requires b >= 1 && (c - 1) * b < m <= c * b
    ensures c == Ceil(m, b)
  {
    var q := (m + b - 1) / b;
    var r := (m + b - 1) % b;
    assert m + b - 1 == q * b + r && 0 <= r < b;
    assert c * b < (q + 1) * b;
    assert q * b < (c + 1) * b;
    LessByFactor(c, q + 1, b);
    LessByFactor(q, c + 1, b);
  }

  /** The unfinished batch before sample `i > 0`: `b` samples when the
      counter has wrapped round, `CounterAt(i, b)` samples otherwise. */
  function Open(i: nat, b: nat): nat
    requires b >= 1
  {
    if CounterAt(i, b) == 0 then b else CounterAt(i, b)
  }

  /** The turns among the first `i` that find a batch complete. */
  function Wraps(i: nat, b: nat): nat
    requires b >= 1
  {
    if i == 0 then 0 else Wraps(i - 1, b) + (if i - 1 > 0 && CounterAt(i - 1, b) == 0 then 1 else 0)
  }

  /** What turn `j` adds to a count over the loop's events. */
  lemma TurnTally(round: nat, i: nat, j: nat, b: nat, p: Event -> bool)
    requires b >= 1 && i >= 1 && j == i - 1
    ensures var wrapped := j > 0 && CounterAt(j, b) == 0;
      Tally(Events(round, i, b), p) == Tally(Events(round, j, b), p) + (if p(Evaluated(round, j)) then 1 else 0)
        + (if wrapped && p(Committed(round)) then 1 else 0) + (if wrapped && p(BatchCallback) then 1 else 0)
      && Samples(Events(round, i, b)) == Samples(Events(round, j, b)) + [j]
  {
    var wrapped := j > 0 && CounterAt(j, b) == 0;
    EventsStep(round, i, j, b);
    TallyAppend(Events(round, j, b), TurnEvents(round, j, wrapped), p);
    TurnCounts(round, j, wrapped, p);
  }

  /** Every wrapped turn commits once. */
  lemma {:induction false} CommitTally(round: nat, i: nat, b: nat)
    requires b >= 1
    ensures Tally(Events(round, i, b), IsCommit) == Wraps(i, b)
  {
    if i > 0 {
      CommitTally(round, i - 1, b);
      TurnTally(round, i, i - 1, b, IsCommit);
    }
  }

  /** Every wrapped turn calls the batch callback once. */
  lemma {:induction false} BatchCallTally(round: nat, i: nat, b: nat)
    requires b >= 1
    ensures Tally(Events(round, i, b), IsBatchCall) == Wraps(i, b)
  {
    if i > 0 {
      BatchCallTally(round, i - 1, b);
      TurnTally(round, i, i - 1, b, IsBatchCall);
    }
  }

  /** The sample loop makes no round callback. */
  lemma {:induction false} RoundCallTally(round: nat, i: nat, b: nat)
    requires b >= 1
    ensures Tally(Events(round, i, b), IsRoundCall) == 0
  {
    if i > 0 {
      RoundCallTally(round, i - 1, b);
      TurnTally(round, i, i - 1, b, IsRoundCall);
    }
  }

  lemma RangeSnoc(j: nat)
    ensures Range(j + 1) == Range(j) + [j]
  {
  }

  /** The sample loop evaluates the samples in order. */
  lemma {:induction false} SamplesInOrder(round: nat, i: nat, b: nat)
    requires b >= 1
    ensures Samples(Events(round, i, b)) == Range(i)
  {
    if i > 0 {
      SamplesInOrder(round, i - 1, b);
      TurnTally(round, i, i - 1, b, IsRoundCall);
      RangeSnoc(i - 1);
    }
  }

  /** `i > 0` samples are the wrapped batches and the open one. */
  lemma {:induction false} WrapsSplit(i: nat, b: nat)
    requires b >= 1 && i >= 1
    ensures i == Wraps(i, b) * b + Open(i, b)
  {
    var j := i - 1;
    if j > 0 {
      WrapsSplit(j, b);
    }
    OpenStep(i, j, b, Wraps(j, b), j > 0 && CounterAt(j, b) == 0);
  }

  /** After `i > 0` turns, `c` batches are committed, each followed by the
      batch callback, one batch of `Open(i, b)` samples is open, and
      `i == c * b + Open(i, b)`. The samples are evaluated in order. */
  lemma EventCounts(round: nat, i: nat, b: nat) returns (c: nat)
    requires b >= 1
    ensures Tally(Events(round, i, b), IsCommit) == c && Tally(Events(round, i, b), IsBatchCall) == c
    ensures Tally(Events(round, i, b), IsRoundCall) == 0 && Samples(Events(round, i, b)) == Range(i)
    ensures i == 0 ==> c == 0
    ensures i > 0 ==> i == c * b + Open(i, b)
  {
    c := Wraps(i, b);
    CommitTally(round, i, b);
    BatchCallTally(round, i, b);
    RoundCallTally(round, i, b);
    SamplesInOrder(round, i, b);
    if i > 0 {
      WrapsSplit(i, b);
    }
  }

  /** One more turn of the sample loop. */
  lemma EventsStep(round: nat, i: nat, j: nat, b: nat)
    requires b >= 1 && i >= 1 && j == i - 1
    ensures Events(round, i, b) == Events(round, j, b) + TurnEvents(round, j, j > 0 && CounterAt(j, b) == 0)
    ensures CounterAt(i, b) == Tick(CounterAt(j, b), b)
  {
  }

  /** The arithmetic of one turn of the batch counter. */
  lemma OpenStep(i: nat, j: nat, b: nat, c': nat, wrapped: bool)
    requires b >= 1 && i >= 1 && j == i - 1 && wrapped == (j > 0 && CounterAt(j, b) == 0)
    requires j == 0 ==> c' == 0
    requires j > 0 ==> j == c' * b + Open(j, b)
    ensures i == (if wrapped then c' + 1 else c') * b + Open(i, b)
  {
    EventsStep(0, i, j, b);
    if wrapped {
      assert (c' + 1) * b == c' * b + b;
    }
  }

  /** `c` full batches and an open one of `1 .. b` samples are
      `ceil(m / b)` commits once the open one is committed too. */
  lemma CountsCeil(m: nat, b: nat, c: nat)
    requires b >= 1 && m >= 1 && m == c * b + Open(m, b)
    ensures c + 1 == Ceil(m, b)
  {
    assert (c + 1) * b == c * b + b;
    CeilUnique(c + 1, m, b);
  }

  /** A round of `m` samples commits `ceil(m / b)` batches, and none when
      there are no samples. The batch callback follows every commit but the
      last; the round callback comes last, once; the samples are evaluated
      in order. */
  lemma RoundEventCounts(round: nat, m: nat, b: nat)
    requires b >= 1 || m == 0
    ensures var c := if m == 0 then 0 else Ceil(m, b);
      var ev := RoundEvents(round, m, b);
      Tally(ev, IsCommit) == c && Tally(ev, IsBatchCall) == (if m == 0 then 0 else c - 1)
      && Tally(ev, IsRoundCall) == 1 && Samples(ev) == Range(m) && ev[|ev| - 1] == RoundCallback(round)
  {
    CloseCounts(round, IsCommit);
    CloseCounts(round, IsBatchCall);
    CloseCounts(round, IsRoundCall);
    if m > 0 {
      var c := EventCounts(round, m, b);
      var close := [Committed(round), RoundCallback(round)];
      TallyAppend(Events(round, m, b), close, IsCommit);
      TallyAppend(Events(round, m, b), close, IsBatchCall);
      TallyAppend(Events(round, m, b), close, IsRoundCall);
      CountsCeil(m, b, c);
    }
  }

  /** Commits in a round of `m` samples, `b` samples a batch. */
  function Batches(m: nat, b: nat): nat
    requires b >= 1 || m == 0
  {
    if m == 0 then 0 else Ceil(m, b)
  }

  /** Over `r` rounds of `m` samples each, `r * ceil(m / b)` batches are
      committed (none without samples), `r` round callbacks are made, and
      each round makes one batch callback fewer than it commits. */
  lemma RoundsCounts(cfg: Config, lossDf: (real, real) -> real, sh: seq<LayerShape>, w: World,
                     xs: seq<Vector>, ys: seq<Vector>, r: nat)
    requires Admits(cfg, sh, w, xs, ys) == Fit
    ensures var res := Rounds(cfg, lossDf, sh, w, xs, ys, r);
      var c := Batches(Min(|xs|, |ys|), cfg.bsize);
      Tally(res.log, IsCommit) == Tally(w.log, IsCommit) + r * c
      && Tally(res.log, IsBatchCall) == Tally(w.log, IsBatchCall) + r * (if Min(|xs|, |ys|) == 0 then 0 else c - 1)
      && Tally(res.log, IsRoundCall) == Tally(w.log, IsRoundCall) + r
  {
    var m := Min(|xs|, |ys|);
    var c := Batches(m, cfg.bsize);
    RoundsTrace(cfg, lossDf, sh, w, xs, ys, r);
    PerRound(m, cfg.bsize);
    RepeatTally(w.log, r, m, cfg.bsize, IsCommit, c);
    RepeatTally(w.log, r, m, cfg.bsize, IsBatchCall, if m == 0 then 0 else c - 1);
    RepeatTally(w.log, r, m, cfg.bsize, IsRoundCall, 1);
  }

  /** The first `r` rounds append the events of rounds `0` to `r - 1`. */
  lemma RoundsTrace(cfg: Config, lossDf: (real, real) -> real, sh: seq<LayerShape>, w: World,
                    xs: seq<Vector>, ys: seq<Vector>, r: nat)
    requires Admits(cfg, sh, w, xs, ys) == Fit
    ensures Rounds(cfg, lossDf, sh, w, xs, ys, r).log == w.log + Repeated(r, Min(|xs|, |ys|), cfg.bsize)
  {
    var logs := (q: nat) => Rounds(cfg, lossDf, sh, w, xs, ys, q).log;
    RoundLogs(cfg, lossDf, sh, w, xs, ys, logs);
    LogInduction(logs, r, Min(|xs|, |ys|), cfg.bsize);
  }

  /** Round `q - 1` appends its events to the trace. */
  lemma RoundLogs(cfg: Config, lossDf: (real, real) -> real, sh: seq<LayerShape>, w: World,
                  xs: seq<Vector>, ys: seq<Vector>, logs: nat -> seq<Event>)
    requires Admits(cfg, sh, w, xs, ys) == Fit
    requires forall q: nat :: logs(q) == Rounds(cfg, lossDf, sh, w, xs, ys, q).log
    ensures cfg.bsize >= 1 || Min(|xs|, |ys|) == 0
    ensures logs(0) == w.log
    ensures forall q: nat :: q >= 1 ==> logs(q) == logs(q - 1) + RoundEvents(q - 1, Min(|xs|, |ys|), cfg.bsize)
  {
    forall q: nat | q >= 1
      ensures logs(q) == logs(q - 1) + RoundEvents(q - 1, Min(|xs|, |ys|), cfg.bsize)
    {
      RoundLog(cfg, lossDf, sh, w, xs, ys, q);
    }
  }

  lemma RoundLog(cfg: Config, lossDf: (real, real) -> real, sh: seq<LayerShape>, w: World,
                 xs: seq<Vector>, ys: seq<Vector>, q: nat)
    requires Admits(cfg, sh, w, xs, ys) == Fit && q >= 1
    ensures Rounds(cfg, lossDf, sh, w, xs, ys, q).log
         == Rounds(cfg, lossDf, sh, w, xs, ys, q - 1).log + RoundEvents(q - 1, Min(|xs|, |ys|), cfg.bsize)
  {
    var prev := Rounds(cfg, lossDf, sh, w, xs, ys, q - 1);
    assert Admits(cfg, sh, prev, xs, ys) == Fit;
    assert Rounds(cfg, lossDf, sh, w, xs, ys, q) == Round(cfg, lossDf, sh, prev, xs, ys, q - 1);
  }

  /** A trace that every round extends by that round's events holds, after
      `r` rounds, the start followed by the events of rounds `0` to `r - 1`. */
  lemma {:induction false} LogInduction(logs: nat -> seq<Event>, r: nat, m: nat, b: nat)
    requires b >= 1 || m == 0
    requires forall q: nat :: q >= 1 ==> logs(q) == logs(q - 1) + RoundEvents(q - 1, m, b)
    ensures logs(r) == logs(0) + Repeated(r, m, b)
  {
    if r == 0 {
      assert logs(0) + [] == logs(0);
    } else {
      LogInduction(logs, r - 1, m, b);
      Regroup(logs(0), logs(r - 1), logs(r), Repeated(r - 1, m, b), RoundEvents(r - 1, m, b));
    }
  }

  /** Every round has `c` events that satisfy `p`. */
  ghost predicate EachRound(p: Event -> bool, m: nat, b: nat, c: int)
    requires b >= 1 || m == 0
  {
    forall q: nat :: Tally(RoundEvents(q, m, b), p) == c
  }

  /** What each round adds to the three counts. */
  lemma PerRound(m: nat, b: nat)
    requires b >= 1 || m == 0
    ensures EachRound(IsCommit, m, b, Batches(m, b))
    ensures EachRound(IsBatchCall, m, b, if m == 0 then 0 else Batches(m, b) - 1)
    ensures EachRound(IsRoundCall, m, b, 1)
  {
    forall q: nat {
      RoundEventCounts(q, m, b);
    }
  }

  /** `r` rounds of `c` events each that satisfy `p` add `r * c` of them. */
  lemma {:induction false} RepeatTally(start: seq<Event>, r: nat, m: nat, b: nat, p: Event -> bool, c: int)
    requires (b >= 1 || m == 0) && EachRound(p, m, b, c)
    ensures Tally(start + Repeated(r, m, b), p) == Tally(start, p) + r * c
  {
    if r == 0 {
      assert start + [] == start;
    } else {
      RepeatTally(start, r - 1, m, b, p, c);
      RepeatStep(start, r, m, b, p, c);
    }
  }

  /** Round `r - 1` adds its `c` events. */
  lemma RepeatStep(start: seq<Event>, r: nat, m: nat, b: nat, p: Event -> bool, c: int)
    requires (b >= 1 || m == 0) && EachRound(p, m, b, c) && r >= 1
    requires Tally(start + Repeated(r - 1, m, b), p) == Tally(start, p) + (r - 1) * c
    ensures Tally(start + Repeated(r, m, b), p) == Tally(start, p) + r * c
  {
    RepeatedSnoc(start, r, m, b);
    TallyAppend(start + Repeated(r - 1, m, b), RoundEvents(r - 1, m, b), p);
    MulStep(r, r - 1, c);
  }

  lemma RepeatedSnoc(start: seq<Event>, r: nat, m: nat, b: nat)
    requires (b >= 1 || m == 0) && r >= 1
    ensures start + Repeated(r, m, b) == (start + Repeated(r - 1, m, b)) + RoundEvents(r - 1, m, b)
  {
  }

  lemma MulStep(r: nat, q: nat, c: int)
    requires q + 1 == r
    ensures r * c == q * c + c
  {
  }

  /** The gradient `backward` leaves in the cache in turn `i` of the sample
      loop, the one of sample `i - 1`. */
  function Gradient(cfg: Config, lossDf: (real, real) -> real, sh: seq<LayerShape>, w: World,
                    xs: seq<Vector>, ys: seq<Vector>, round: nat, i: nat): (g: Pack)
    requires Admits(cfg, sh, w, xs, ys) == Fit && 1 <= i <= Min(|xs|, |ys|)
    ensures Mirrors(sh, g) && |g| == |sh|
  {
    var g := RoundPrefix(cfg, lossDf, sh, w, xs, ys, round, i).0.caches.gradient;
    MirrorsCongruent(sh, g, g);
    g
  }

  /** The gradients of the first `m` turns, in order. */
  function Grads(cfg: Config, lossDf: (real, real) -> real, sh: seq<LayerShape>, w: World,
                 xs: seq<Vector>, ys: seq<Vector>, round: nat, m: nat): (gs: seq<Pack>)
    requires Admits(cfg, sh, w, xs, ys) == Fit && m <= Min(|xs|, |ys|)
    ensures |gs| == m && AllMirror(sh, gs)
  {
    seq(m, t requires 0 <= t < m => Gradient(cfg, lossDf, sh, w, xs, ys, round, t + 1))
  }

  /** Entry `t` of `Grads` is the gradient of turn `t + 1`. */
  lemma GradAt(cfg: Config, lossDf: (real, real) -> real, sh: seq<LayerShape>, w: World,
               xs: seq<Vector>, ys: seq<Vector>, round: nat, m: nat, t: nat)
    requires Admits(cfg, sh, w, xs, ys) == Fit && t < m <= Min(|xs|, |ys|)
    ensures Grads(cfg, lossDf, sh, w, xs, ys, round, m)[t] == Gradient(cfg, lossDf, sh, w, xs, ys, round, t + 1)
  {
  }

  /** Turn `t` of the sample loop, seen from the batch sum: with the
      gradient of its sample it opens a batch when it finds the counter at 0
      and adds to the open one otherwise. */
  lemma TurnOf(cfg: Config, lossDf: (real, real) -> real, sh: seq<LayerShape>, w: World,
               xs: seq<Vector>, ys: seq<Vector>, round: nat, t: nat)
    requires Admits(cfg, sh, w, xs, ys) == Fit && t < Min(|xs|, |ys|)
    ensures BatchTurn(CounterAt(t, cfg.bsize) == 0, Gradient(cfg, lossDf, sh, w, xs, ys, round, t + 1),
                      RoundPrefix(cfg, lossDf, sh, w, xs, ys, round, t).1.sum,
                      RoundPrefix(cfg, lossDf, sh, w, xs, ys, round, t + 1).1.sum)
  {
    var r := RoundPrefix(cfg, lossDf, sh, w, xs, ys, round, t + 1);
  }

  /** Every pack of `gs` has the weights' shape. */
  predicate AllMirror(sh: seq<LayerShape>, gs: seq<Pack>) {
    forall t :: 0 <= t < |gs| ==> Mirrors(sh, gs[t])
  }

  /** Appending a pack of the weights' shape, and taking it off again. */
  lemma SnocParts(sh: seq<LayerShape>, gs: seq<Pack>, g: Pack)
    requires AllMirror(sh, gs) && Mirrors(sh, g)
    ensures AllMirror(sh, gs + [g]) && (gs + [g])[..|gs|] == gs && (gs + [g])[|gs|] == g
  {
    assert (gs + [g])[..|gs|] == gs;
  }

  /** The batch sum the sample loop holds after turns whose gradients are
      `gs`, `b` samples a batch: the turn that finds the counter at 0 starts
      the sum afresh with its gradient, any other adds its gradient to it. */
  function OpenSum(sh: seq<LayerShape>, gs: seq<Pack>, b: nat): (s: Pack)
    requires b >= 1 && |sh| >= 1 && |gs| >= 1 && AllMirror(sh, gs)
    ensures Mirrors(sh, s)
    decreases |gs|
  {
    var n := |gs| - 1;
    if CounterAt(n, b) == 0 then gs[n]
    else
      var init := gs[..n];
      assert AllMirror(sh, init) by {
        forall t | 0 <= t < n ensures Mirrors(sh, init[t]) {
          assert init[t] == gs[t];
        }
      }
      var s := OpenSum(sh, init, b);
      MirrorsCongruent(sh, s, gs[n]);
      PackAddEntries(s, gs[n]);
      MirrorsCarry(sh, s, PackAdd(s, gs[n]));
      PackAdd(s, gs[n])
  }

  /** The last turn of `gs` as a batch turn: `OpenSum` of `gs` from that
      of the turns before it. */
  lemma OpenSumLast(sh: seq<LayerShape>, gs: seq<Pack>, b: nat)
    requires b >= 1 && |sh| >= 1 && |gs| >= 1 && AllMirror(sh, gs)
    ensures gs[..|gs| - 1] + [gs[|gs| - 1]] == gs && Mirrors(sh, gs[|gs| - 1]) && |gs[|gs| - 1]| >= 1
    ensures CounterAt(|gs| - 1, b) != 0 ==> |gs| >= 2 && AllMirror(sh, gs[..|gs| - 1])
    ensures BatchTurn(CounterAt(|gs| - 1, b) == 0, gs[|gs| - 1],
                      if CounterAt(|gs| - 1, b) == 0 then [] else OpenSum(sh, gs[..|gs| - 1], b),
                      OpenSum(sh, gs, b))
  {
    var n := |gs| - 1;
    assert gs[..n] + [gs[n]] == gs;
    MirrorsCongruent(sh, gs[n], gs[n]);
    if CounterAt(n, b) != 0 {
      assert AllMirror(sh, gs[..n]) by {
        forall t | 0 <= t < n ensures Mirrors(sh, gs[..n][t]) {
          assert gs[..n][t] == gs[t];
        }
      }
      MirrorsCongruent(sh, OpenSum(sh, gs[..n], b), gs[n]);
    }
  }

  /** However the turns fall, that sum is the sum of the gradients of the
      open batch: the last `Open(|gs|, b)` of them, added in order. */
  lemma {:induction false} OpenSumBatch(sh: seq<LayerShape>, gs: seq<Pack>, b: nat)
    requires b >= 1 && |sh| >= 1 && |gs| >= 1 && AllMirror(sh, gs)
    ensures 1 <= Open(|gs|, b) <= |gs| && OpenBatch(sh, gs, |gs| - Open(|gs|, b), OpenSum(sh, gs, b))
    decreases |gs|
  {
    var n := |gs| - 1;
    OpenSumLast(sh, gs, b);
    OpenNext(|gs|, n, b);
    if CounterAt(n, b) == 0 {
      BatchStep(sh, true, gs[..n], gs[n], n, 0, [], OpenSum(sh, gs, b));
    } else {
      OpenSumBatch(sh, gs[..n], b);
      BatchStep(sh, false, gs[..n], gs[n], n - Open(n, b), n - Open(n, b), OpenSum(sh, gs[..n], b), OpenSum(sh, gs, b));
    }
  }

  /** A batch turn with gradient `g` takes `OpenSum` of the turns before it
      to `OpenSum` of those and `g`. */
  lemma OpenSumSnoc(sh: seq<LayerShape>, init: seq<Pack>, g: Pack, all: seq<Pack>, b: nat, before: Pack, after: Pack)
    requires b >= 1 && |sh| >= 1 && AllMirror(sh, init) && Mirrors(sh, g) && all == init + [g]
    requires BatchTurn(CounterAt(|init|, b) == 0, g, before, after)
    requires |init| >= 1 ==> before == OpenSum(sh, init, b)
    ensures AllMirror(sh, all) && after == OpenSum(sh, all, b)
  {
    SnocParts(sh, init, g);
    OpenSumLast(sh, all, b);
  }

  /** The loop's batch sum after turn `i` is `OpenSum` of the gradients of
      its first `i` turns; by `OpenSumBatch`, the sum of the gradients of the
      open batch, those of the last `Open(i, b)` samples, added in order. So
      a batch committed inside the loop holds `bsize` gradients, and the
      last batch of a round between 1 and `bsize`. */
  lemma SumIsOpenSum(cfg: Config, lossDf: (real, real) -> real, sh: seq<LayerShape>, w: World,
                     xs: seq<Vector>, ys: seq<Vector>, round: nat, i: nat)
    requires Admits(cfg, sh, w, xs, ys) == Fit && 1 <= i <= Min(|xs|, |ys|)
    ensures cfg.bsize >= 1 && |sh| >= 1
    ensures RoundPrefix(cfg, lossDf, sh, w, xs, ys, round, i).1.sum == OpenSum(sh, Grads(cfg, lossDf, sh, w, xs, ys, round, i), cfg.bsize)
  {
    var m := Min(|xs|, |ys|);
    var gs := Grads(cfg, lossDf, sh, w, xs, ys, round, i);
    var sums := (t: nat) => if t <= m then RoundPrefix(cfg, lossDf, sh, w, xs, ys, round, t).1.sum else [];
    TurnsOf(cfg, lossDf, sh, w, xs, ys, round, i, gs, sums);
    SumInduction(sh, gs, sums, cfg.bsize, i);
    assert gs[..i] == gs;
  }

  /** Every turn up to `i`, seen from the batch sum. */
  lemma TurnsOf(cfg: Config, lossDf: (real, real) -> real, sh: seq<LayerShape>, w: World,
                xs: seq<Vector>, ys: seq<Vector>, round: nat, i: nat, gs: seq<Pack>, sums: nat -> Pack)
    requires Admits(cfg, sh, w, xs, ys) == Fit && 1 <= i <= Min(|xs|, |ys|)
    requires gs == Grads(cfg, lossDf, sh, w, xs, ys, round, i)
    requires forall t: nat :: t <= Min(|xs|, |ys|) ==> sums(t) == RoundPrefix(cfg, lossDf, sh, w, xs, ys, round, t).1.sum
    ensures cfg.bsize >= 1 && |sh| >= 1
    ensures forall t :: 0 <= t < |gs| ==> BatchTurn(CounterAt(t, cfg.bsize) == 0, gs[t], sums(t), sums(t + 1))
  {
    forall t | 0 <= t < |gs|
      ensures BatchTurn(CounterAt(t, cfg.bsize) == 0, gs[t], sums(t), sums(t + 1))
    {
      var g := Gradient(cfg, lossDf, sh, w, xs, ys, round, t + 1);
      var before := RoundPrefix(cfg, lossDf, sh, w, xs, ys, round, t).1.sum;
      var after := RoundPrefix(cfg, lossDf, sh, w, xs, ys, round, t + 1).1.sum;
      assert BatchTurn(CounterAt(t, cfg.bsize) == 0, g, before, after) by {
        TurnOf(cfg, lossDf, sh, w, xs, ys, round, t);
      }
      GradAt(cfg, lossDf, sh, w, xs, ys, round, i, t);
      assert gs[t] == g && sums(t) == before && sums(t + 1) == after;
      TurnRenamed(CounterAt(t, cfg.bsize) == 0, g, before, after, gs[t], sums(t), sums(t + 1));
    }
  }

  /** `BatchTurn` of equal arguments. */
  lemma TurnRenamed(opens: bool, g: Pack, before: Pack, after: Pack, g': Pack, before': Pack, after': Pack)
    requires BatchTurn(opens, g, before, after) && g' == g && before' == before && after' == after
    ensures BatchTurn(opens, g', before', after')
  {
  }

  /** A sum that every turn opens or extends with that turn's gradient is,
      after `i` turns, the sum of the open batch of the first `i` gradients. */
  lemma {:induction false} SumInduction(sh: seq<LayerShape>, gs: seq<Pack>, sums: nat -> Pack, b: nat, i: nat)
    requires b >= 1 && |sh| >= 1 && AllMirror(sh, gs) && 1 <= i <= |gs|
    requires forall t :: 0 <= t < |gs| ==> BatchTurn(CounterAt(t, b) == 0, gs[t], sums(t), sums(t + 1))
    ensures AllMirror(sh, gs[..i])
    ensures sums(i) == OpenSum(sh, gs[..i], b)
    decreases i
  {
    if i > 1 {
      SumInduction(sh, gs, sums, b, i - 1);
    }
    SumStep(sh, gs, sums(i - 1), sums(i), b, i);
  }

  /** Turn `i - 1` of `SumInduction`: from the sum before it to the sum
      after it. */
  lemma SumStep(sh: seq<LayerShape>, gs: seq<Pack>, before: Pack, after: Pack, b: nat, i: nat)
    requires b >= 1 && |sh| >= 1 && AllMirror(sh, gs) && 1 <= i <= |gs|
    requires BatchTurn(CounterAt(i - 1, b) == 0, gs[i - 1], before, after)
    requires i > 1 ==> before == OpenSum(sh, gs[..i - 1], b)
    ensures AllMirror(sh, gs[..i]) && after == OpenSum(sh, gs[..i], b)
  {
    var init := gs[..i - 1];
    assert AllMirror(sh, init) by {
      assert forall t :: 0 <= t < |init| ==> init[t] == gs[t];
    }
    assert init + [gs[i - 1]] == gs[..i];
    OpenSumSnoc(sh, init, gs[i - 1], gs[..i], b, before, after);
  }

  /** How the open batch grows: a turn that finds the counter at 0 starts a
      batch of one, any other adds one to it. */
  lemma OpenNext(i: nat, j: nat, b: nat)
    requires b >= 1 && i >= 1 && j == i - 1
    ensures CounterAt(j, b) == 0 ==> Open(i, b) == 1
    ensures CounterAt(j, b) != 0 ==> j >= 1 && Open(j, b) == CounterAt(j, b) && Open(i, b) == Open(j, b) + 1
  {
    EventsStep(0, i, j, b);
  }

  /** What a commit without an L-BFGS hook does to one weight: weight
      `[k][j][i]` moves by that entry of the batch sum times the factor
      `c = -ffactor(round) / bsize`; with `l2 > 0` a weight that is not a
      bias, `i > 0`, also loses `weight * l2 / n`. `SumIsOpenSum` and
      `OpenSumBatch` say which gradients the sum adds up and `PackSumAt` what its entry is. */
  lemma CommitEntry(cfg: Config, sh: seq<LayerShape>, w: World, sum: Pack, n: nat, round: nat, c: real,
                    k: nat, j: nat, i: nat)
    requires Fits(sh, w) && w.hook.Plain? && cfg.bsize >= 1 && n >= 1 && c == StepScale(cfg.ffactor(round), cfg.bsize)
    requires Mirrors(sh, sum) && k < |sum| && j < |sum[k]| && i < |sum[k][j]|
    ensures var before := NetWeights(w.layers);
      k < |before| && j < |before[k]| && i < |before[k][j]|
    ensures var before := NetWeights(w.layers)[k][j][i];
      var after := NetWeights(Commit(cfg, sh, w, sum, n, round).layers);
      k < |after| && j < |after[k]| && i < |after[k][j]|
      && after[k][j][i] == before + (if cfg.l2 > 0.0 && i > 0 then Decayed(sum[k][j][i] * c, before, cfg.l2, n) else sum[k][j][i] * c)
  {
    var weights := NetWeights(w.layers);
    WeightsMirror(w.layers);
    MirrorsCongruent(sh, sum, weights);
    CommitAdds(cfg, sh, w, sum, n, round);
    PreparedAt(cfg, sum, weights, n, cfg.ffactor(round), c, k, j, i);
    var p := Prepared(cfg, sum, weights, n, cfg.ffactor(round));
    AddIntoAt(weights[k], p[k]);
    assert NetWeights(Commit(cfg, sh, w, sum, n, round).layers)[k] == AddInto(weights[k], p[k]);
  }

  /** With no history, the first `lbfgs` commit of an unregularised run is
      the plain gradient step of `batch` with the hook's factor: `lbfgs`
      scales by `-1 / bsize`, the hook by `ffactor(nround)`. */
  lemma FirstLbfgsCommit(lbfgs: Config, plain: Config, sh: seq<LayerShape>, w: World, sum: Pack, n: nat, round: nat)
    requires Fits(sh, w) && Mirrors(sh, sum) && lbfgs.bsize >= 1 && n >= 1
    requires w.hook.Quasi? && w.hook.state.first && w.hook.state.history == []
    requires lbfgs.ffactor(round) == 1.0 && lbfgs.l2 <= 0.0
    requires plain.bsize == lbfgs.bsize && plain.l2 <= 0.0 && plain.ffactor(round) == w.hook.ffactor(w.hook.state.nround)
    ensures Commit(lbfgs, sh, w, sum, n, round).layers == Commit(plain, sh, w.(hook := Plain), sum, n, round).layers
  {
    var weights := NetWeights(w.layers);
    var f := w.hook.ffactor(w.hook.state.nround);
    WeightsMirror(w.layers);
    MirrorsCongruent(sh, sum, weights);
    var c := StepScale(1.0, lbfgs.bsize);
    var scaled := ScaledPack(sum, c);
    PreparedUnfold(lbfgs, sum, weights, n, 1.0, c);
    ScaledShape(sum, c);
    CongruentTrans(scaled, sum, weights);
    SizeCongruent(scaled, weights);
    HookFirstStep(w.hook.ffactor, w.hook.histsize, w.hook.state, scaled, weights);
    ScaleProduct(lbfgs.bsize, f);
    var d := StepScale(f, plain.bsize);
    Rescale(sum, c, f, d);
    PreparedUnfold(plain, sum, weights, n, f, d);
    var pl := Prepared(lbfgs, sum, weights, n, lbfgs.ffactor(round));
    assert pl == scaled;
    assert CommitUpdate(lbfgs, sh, w, sum, n, round).1 == HookStep(w.hook.ffactor, w.hook.histsize, w.hook.state, scaled, weights).1;
    assert CommitUpdate(plain, sh, w.(hook := Plain), sum, n, round).1 == ScaledPack(sum, d);
  }

  lemma Rescale(p: Pack, c: real, f: real, d: real)
    requires c * f == d
    ensures ScaledPack(ScaledPack(p, c), f) == ScaledPack(p, d)
  {
    ScaledTwice(p, c, f);
  }

  lemma ScaleProduct(b: nat, f: real)
    requires b >= 1
    ensures StepScale(1.0, b) * f == StepScale(f, b)
  {
  }
}
