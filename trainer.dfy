/** The trainers of `training.hpp` as objects: `train_impl` runs on a `Net`
    whose layers it updates in place, and `lbfgs` hands its updates to an
    `LbfgsHook`. Each method is proved against the functions of module
    `Training`, which state what a run computes. */
module Trainers {
  import opened Utils
  import opened Layer
  import opened Net
  import opened Packs
  import opened Vectorize
  import opened Lbfgs
  import opened Training

  /** The update hook `train_impl` is given: the no-op of `batch` or the
      hook object of `lbfgs`. */
  datatype HookRef = NoHook | LbfgsRef(obj: LbfgsHook)

  /** The objects a hook call may change. */
  function HookObjects(r: HookRef): set<object> {
    if r.LbfgsRef? then {r.obj} else {}
  }

  /** The hook as a value. */
  function HookOf(r: HookRef): Hook
    reads HookObjects(r)
  {
    match r
    case NoHook => Plain
    case LbfgsRef(o) => Quasi(o.ffactor, o.histsize, o.State())
  }

  /** A hook object is never one of the net's layers. */
  lemma HookApart(slots: seq<Slot>, o: LbfgsHook)
    ensures o !in Objects(slots)
  {
    forall k | 0 <= k < |slots|
      ensures slots[k].Obj() != o
    {
      match slots[k]
      case Dense(fc) =>
      case Drop(d) =>
    }
  }

  /** The scaling and L2 passes of `prepare_and_commit_update`. */
  method Prepare(cfg: Config, sum: Pack, weights: Pack, n: nat, rf: real) returns (update: Pack)
    requires cfg.bsize >= 1 && n >= 1 && 1 <= |sum| <= |weights|
    ensures update == Prepared(cfg, sum, weights, n, rf)
  {
    var c := StepScale(rf, cfg.bsize);
    update := ScalePack(sum, c);
    if cfg.l2 > 0.0 {
      update := L2Pack(update, weights, cfg.l2, n);
    }
    PreparedUnfold(cfg, sum, weights, n, rf, c);
  }

  /** The update a commit hands to the hook satisfies the hook's demands,
      and the hook's answer is the one `CommitUpdate` states. */
  lemma HookInput(cfg: Config, sh: seq<LayerShape>, w: World, sum: Pack, n: nat, round: nat, update: Pack)
    requires Fits(sh, w) && Mirrors(sh, sum) && cfg.bsize >= 1 && n >= 1
    requires update == Prepared(cfg, sum, NetWeights(w.layers), n, cfg.ffactor(round))
    ensures 1 <= |update| == |w.layers| && |NetWeights(w.layers)| >= 1 && Size(update) == Size(NetWeights(w.layers))
    ensures w.hook.Quasi? ==> HookFits(w.hook.state, Size(update))
    ensures Hooked(w.hook, update, NetWeights(w.layers)) == CommitUpdate(cfg, sh, w, sum, n, round)
  {
    var weights := NetWeights(w.layers);
    WeightsMirror(w.layers);
    MirrorsCongruent(sh, sum, weights);
    PreparedShape(cfg, sum, weights, n, cfg.ffactor(round));
    CongruentTrans(update, sum, weights);
    SizeCongruent(update, weights);
  }

  lemma CommitOf(cfg: Config, sh: seq<LayerShape>, w: World, sum: Pack, n: nat, round: nat, hook: Hook, p: Pack)
    requires Fits(sh, w) && Mirrors(sh, sum) && cfg.bsize >= 1 && n >= 1
    requires (hook, p) == CommitUpdate(cfg, sh, w, sum, n, round)
    ensures Commit(cfg, sh, w, sum, n, round) == World(NetUpdate(w.layers, p), w.caches, hook, w.log + [Committed(round)])
  {
  }

  /** A call that leaves the layer objects alone leaves the net as it was. */
  twostate lemma LayersKept(net: Net)
    requires old(net.Valid())
    requires forall k :: 0 <= k < |net.slots| ==> net.slots[k].Value() == old(net.slots[k].Value())
    ensures net.Valid() && Values(net.slots) == old(Values(net.slots))
  {
    assert Values(net.slots) == old(Values(net.slots));
  }

  /** `update_hook(gradients_sum)`: the hook of `lbfgs` rewrites the update
      and its own state; it leaves the net alone. */
  method CallHook(net: Net, hook: HookRef, update: Pack, weights: Pack) returns (update': Pack)
    requires |update| >= 1 && |weights| >= 1 && Size(update) == Size(weights)
    requires HookOf(hook).Quasi? ==> HookFits(HookOf(hook).state, Size(update))
    requires net.Valid()
    modifies HookObjects(hook)
    ensures net.Valid() && Values(net.slots) == old(Values(net.slots))
    ensures (HookOf(hook), update') == Hooked(old(HookOf(hook)), update, weights)
  {
    update' := update;
    match hook {
      case NoHook =>
      case LbfgsRef(o) =>
        update' := o.Call(update, weights);
        forall k | 0 <= k < |net.slots|
          ensures net.slots[k].Value() == old(net.slots[k].Value())
        {
          match net.slots[k]
          case Dense(fc) =>
          case Drop(d) =>
        }
        LayersKept(net);
    }
  }

  /** `prepare_and_commit_update`: scale the sum, decay it, call the hook
      with `net.get_weights()`, then `net.update`. */
  method PrepareAndCommit(cfg: Config, net: Net, hook: HookRef, sum: Pack, n: nat, round: nat,
                          ghost sh: seq<LayerShape>, ghost caches: Caches, ghost log: seq<Event>)
    requires net.Valid() && Mirrors(sh, sum) && cfg.bsize >= 1 && n >= 1
    requires Fits(sh, World(Values(net.slots), caches, HookOf(hook), log))
    modifies Objects(net.slots), HookObjects(hook)
    ensures net.Valid()
    ensures World(Values(net.slots), caches, HookOf(hook), log + [Committed(round)])
      == Commit(cfg, sh, old(World(Values(net.slots), caches, HookOf(hook), log)), sum, n, round)
  {
    ghost var w := World(Values(net.slots), caches, HookOf(hook), log);
    var weights := NetWeights(Values(net.slots));
    WeightsMirror(w.layers);
    MirrorsCongruent(sh, sum, weights);
    var update := Prepare(cfg, sum, weights, n, cfg.ffactor(round));
    assert Values(net.slots) == w.layers && HookOf(hook) == w.hook;
    HookInput(cfg, sh, w, sum, n, round, update);
    update := CallHook(net, hook, update, weights);
    ghost var h := HookOf(hook);
    assert Values(net.slots) == w.layers;
    CommitOf(cfg, sh, w, sum, n, round, h, update);
    if hook.LbfgsRef? {
      HookApart(net.slots, hook.obj);
    }
    net.Update(update);
    assert HookOf(hook) == h;
    assert Values(net.slots) == NetUpdate(w.layers, update);
  }

  /** One turn of the sample loop of `train_impl`: `net.backward` on sample
      `q` into the caches, then either the commit of the previous batch, the
      batch callback and a fresh sum, or the gradient added to the sum; then
      `batchcounter = (batchcounter + 1) % bsize`. */
  method TurnStep(cfg: Config, net: Net, hook: HookRef, x: Vector, t: Vector, n: nat, round: nat, q: nat,
                  caches: Caches, b: BatchState, log: seq<Event>, ghost sh: seq<LayerShape>)
      returns (caches': Caches, b': BatchState, log': seq<Event>)
    requires net.Valid() && Fits(sh, World(Values(net.slots), caches, HookOf(hook), log))
    requires BatchFits(sh, b) && b.counter < cfg.bsize && n >= 1 && BackwardAccepts(sh[0], x)
    modifies Objects(net.slots), HookObjects(hook)
    ensures net.Valid()
    ensures (World(Values(net.slots), caches', HookOf(hook), log'), b')
      == SampleStep(cfg, net.lossDf, sh, old(World(Values(net.slots), caches, HookOf(hook), log)), b, x, t, n, round, q)
  {
    ghost var w := World(Values(net.slots), caches, HookOf(hook), log);
    var st, er, gr := net.Backward(x, t, caches.state, caches.error, caches.gradient);
    BackwardGradientMirrors(w.layers, net.lossDf, x, t, caches.state, caches.error, caches.gradient);
    WidthByShape(Values(net.slots), w.layers);
    if hook.LbfgsRef? {
      HookApart(net.slots, hook.obj);
    }
    caches' := Caches(st, er, gr);
    log' := log + [Evaluated(round, q)];
    if b.counter == 0 {
      if !b.first {
        PrepareAndCommit(cfg, net, hook, b.sum, n, round, sh, caches', log');
        Regroup3(log, Evaluated(round, q), Committed(round), BatchCallback);
        log' := log' + [Committed(round)] + [BatchCallback];
      }
      b' := BatchState(gr, Tick(b.counter, cfg.bsize), false);
    } else {
      MirrorsCongruent(sh, b.sum, gr);
      PackAddEntries(b.sum, gr);
      b' := BatchState(PackAdd(b.sum, gr), Tick(b.counter, cfg.bsize), b.first);
    }
  }

  /** Turn `i` of the sample loop meets the demands of `SampleStep` and
      takes the loop from `i` samples to `i + 1`. */
  lemma PrefixStep(cfg: Config, lossDf: (real, real) -> real, sh: seq<LayerShape>, w0: World,
                   xs: seq<Vector>, ys: seq<Vector>, round: nat, i: nat)
    requires Admits(cfg, sh, w0, xs, ys) == Fit && i < Min(|xs|, |ys|)
    ensures var p := RoundPrefix(cfg, lossDf, sh, w0, xs, ys, round, i);
      Fits(sh, p.0) && BatchFits(sh, p.1) && p.1.counter < cfg.bsize && |xs| >= 1 && BackwardAccepts(sh[0], xs[i])
      && RoundPrefix(cfg, lossDf, sh, w0, xs, ys, round, i + 1)
         == SampleStep(cfg, lossDf, sh, p.0, p.1, xs[i], ys[i], |xs|, round, i)
  {
  }

  /** The sample loop of one round: `net.backward` on every sample while
      both ranges last, with the batch bookkeeping of `TurnStep`. */
  method SampleLoop(cfg: Config, net: Net, hook: HookRef, xs: seq<Vector>, ys: seq<Vector>, round: nat,
                    caches: Caches, log: seq<Event>, ghost sh: seq<LayerShape>, ghost w0: World)
      returns (caches': Caches, b: BatchState, log': seq<Event>)
    requires net.Valid() && w0 == World(Values(net.slots), caches, HookOf(hook), log)
    requires Admits(cfg, sh, w0, xs, ys) == Fit
    modifies Objects(net.slots), HookObjects(hook)
    ensures net.Valid()
    ensures (World(Values(net.slots), caches', HookOf(hook), log'), b)
      == RoundPrefix(cfg, net.lossDf, sh, w0, xs, ys, round, Min(|xs|, |ys|))
  {
    caches', b, log' := caches, BatchState([], 0, true), log;
    var i := 0;
    while i < |xs| && i < |ys|
      invariant i <= Min(|xs|, |ys|) && net.Valid()
      invariant (World(Values(net.slots), caches', HookOf(hook), log'), b)
        == RoundPrefix(cfg, net.lossDf, sh, w0, xs, ys, round, i)
    {
      caches', b, log' := PrefixTurn(cfg, net, hook, xs, ys, round, i, caches', b, log', sh, w0);
      i := i + 1;
    }
    assert i == Min(|xs|, |ys|);
    assert (World(Values(net.slots), caches', HookOf(hook), log'), b) == RoundPrefix(cfg, net.lossDf, sh, w0, xs, ys, round, i);
  }

  /** Turn `i` of the sample loop takes the loop state from the first `i`
      samples to the first `i + 1`. */
  method PrefixTurn(cfg: Config, net: Net, hook: HookRef, xs: seq<Vector>, ys: seq<Vector>, round: nat, i: nat,
                    caches: Caches, b: BatchState, log: seq<Event>, ghost sh: seq<LayerShape>, ghost w0: World)
      returns (caches': Caches, b': BatchState, log': seq<Event>)
    requires net.Valid() && Admits(cfg, sh, w0, xs, ys) == Fit && i < Min(|xs|, |ys|)
    requires (World(Values(net.slots), caches, HookOf(hook), log), b)
      == RoundPrefix(cfg, net.lossDf, sh, w0, xs, ys, round, i)
    modifies Objects(net.slots), HookObjects(hook)
    ensures net.Valid()
    ensures (World(Values(net.slots), caches', HookOf(hook), log'), b')
      == RoundPrefix(cfg, net.lossDf, sh, w0, xs, ys, round, i + 1)
  {
    PrefixStep(cfg, net.lossDf, sh, w0, xs, ys, round, i);
    caches', b', log' := TurnStep(cfg, net, hook, xs[i], ys[i], |xs|, round, i, caches, b, log, sh);
  }

  /** The round callback `fround(round)`; the one `lbfgs` installs sets
      `nround = round + 1` on its hook. */
  method RoundCallbackOf(net: Net, hook: HookRef, round: nat)
    requires net.Valid()
    modifies HookObjects(hook)
    ensures net.Valid() && Values(net.slots) == old(Values(net.slots))
    ensures HookOf(hook) == NextRound(old(HookOf(hook)), round)
  {
    match hook {
      case NoHook =>
      case LbfgsRef(o) =>
        o.RoundDone(round);
        forall k | 0 <= k < |net.slots|
          ensures net.slots[k].Value() == old(net.slots[k].Value())
        {
          match net.slots[k]
          case Dense(fc) =>
          case Drop(d) =>
        }
        LayersKept(net);
    }
  }

  /** One round of `train_impl`: the sample loop, the commit of the last
      partial batch, the round callback. */
  method RunRound(cfg: Config, net: Net, hook: HookRef, xs: seq<Vector>, ys: seq<Vector>, round: nat,
                  caches: Caches, log: seq<Event>, ghost sh: seq<LayerShape>, ghost w0: World)
      returns (caches': Caches, log': seq<Event>)
    requires net.Valid() && w0 == World(Values(net.slots), caches, HookOf(hook), log)
    requires Admits(cfg, sh, w0, xs, ys) == Fit
    modifies Objects(net.slots), HookObjects(hook)
    ensures net.Valid()
    ensures World(Values(net.slots), caches', HookOf(hook), log') == Training.Round(cfg, net.lossDf, sh, w0, xs, ys, round)
  {
    var b;
    caches', b, log' := SampleLoop(cfg, net, hook, xs, ys, round, caches, log, sh, w0);
    if !b.first {
      PrepareAndCommit(cfg, net, hook, b.sum, |xs|, round, sh, caches', log');
      log' := log' + [Committed(round)];
    }
    if hook.LbfgsRef? {
      HookApart(net.slots, hook.obj);
    }
    RoundCallbackOf(net, hook, round);
    log' := log' + [RoundCallback(round)];
  }

  /** `train_impl`: allocate the caches, then run `rounds` rounds. */
  method Run(cfg: Config, net: Net, hook: HookRef, xs: seq<Vector>, ys: seq<Vector>, log: seq<Event>)
      returns (log': seq<Event>)
    requires net.Valid() && Accepted(ShapesOf(Values(net.slots)), xs, ys) && (cfg.bsize >= 1 || Min(|xs|, |ys|) == 0)
    requires HookOf(hook).Quasi? ==> HookFits(HookOf(hook).state, Size(NetWeights(Values(net.slots))))
    modifies Objects(net.slots), HookObjects(hook)
    ensures net.Valid()
    ensures var r := TrainImpl(cfg, net.lossDf, old(Values(net.slots)), old(HookOf(hook)), log, xs, ys);
      Values(net.slots) == r.layers && HookOf(hook) == r.hook && log' == r.log
  {
    ghost var sh := ShapesOf(Values(net.slots));
    var caches := Allocated(Values(net.slots));
    ghost var w0 := World(Values(net.slots), caches, HookOf(hook), log);
    log' := log;
    for round := 0 to cfg.rounds
      invariant net.Valid()
      invariant World(Values(net.slots), caches, HookOf(hook), log') == Training.Rounds(cfg, net.lossDf, sh, w0, xs, ys, round)
    {
      caches, log' := RunRound(cfg, net, hook, xs, ys, round, caches, log', sh, World(Values(net.slots), caches, HookOf(hook), log'));
    }
  }

  /** `training::batch`: plain gradient descent with batches of `bsize`. */
  class BatchTrainer {
    const cfg: Config

    /** `batch(func_factor, batch_size, n_rounds, l2)`. */
    constructor(ffactor: nat -> real, bsize: nat, rounds: nat, l2: real)
      ensures cfg == Config(ffactor, bsize, rounds, l2)
    {
      cfg := Config(ffactor, bsize, rounds, l2);
    }

    /** `train`: `train_impl` with a hook that leaves the update alone. */
    method Train(net: Net, xs: seq<Vector>, ys: seq<Vector>, log: seq<Event>) returns (log': seq<Event>)
      requires net.Valid() && Accepted(ShapesOf(Values(net.slots)), xs, ys) && (cfg.bsize >= 1 || Min(|xs|, |ys|) == 0)
      modifies Objects(net.slots)
      ensures net.Valid()
      ensures var r := TrainImpl(cfg, net.lossDf, old(Values(net.slots)), Plain, log, xs, ys);
        Values(net.slots) == r.layers && log' == r.log
    {
      log' := Run(cfg, net, NoHook, xs, ys, log);
    }
  }

  /** `training::lbfgs`: batches as in `batch` with the base schedule fixed
      at 1, each update rewritten by the L-BFGS hook. The hook object holds
      the trainer's own schedule, history bound and `nround`, and the locals
      the hook lambda of `train` captures. */
  class LbfgsTrainer {
    const cfg: Config
    const hook: LbfgsHook

    /** `lbfgs(history_size, func_factor, batch_size, n_rounds, l2)`. */
    constructor(histsize: nat, ffactor: nat -> real, bsize: nat, rounds: nat, l2: real)
      ensures cfg == Config(FactorConst(1.0), bsize, rounds, l2)
      ensures fresh(hook) && hook.histsize == histsize && hook.ffactor == ffactor
    {
      cfg := Config(FactorConst(1.0), bsize, rounds, l2);
      hook := new LbfgsHook(histsize, ffactor);
    }

    /** `train`: `nround = 0` and a fresh history, then `train_impl` with the
        hook; afterwards `nround` is the number of rounds run. */
    method Train(net: Net, xs: seq<Vector>, ys: seq<Vector>, log: seq<Event>) returns (log': seq<Event>)
      requires net.Valid() && Accepted(ShapesOf(Values(net.slots)), xs, ys) && (cfg.bsize >= 1 || Min(|xs|, |ys|) == 0)
      modifies Objects(net.slots), hook
      ensures net.Valid()
      ensures var r := TrainImpl(cfg, net.lossDf, old(Values(net.slots)), Quasi(hook.ffactor, hook.histsize, Fresh(0)), log, xs, ys);
        Values(net.slots) == r.layers && log' == r.log && r.hook.Quasi? && hook.State() == r.hook.state
      ensures hook.State().nround == cfg.rounds
    {
      hook.Reset();
      forall k | 0 <= k < |net.slots|
        ensures net.slots[k].Value() == old(net.slots[k].Value())
      {
        match net.slots[k]
        case Dense(fc) =>
        case Drop(d) =>
      }
      LayersKept(net);
      log' := Run(cfg, net, LbfgsRef(hook), xs, ys, log);
    }
  }
}
