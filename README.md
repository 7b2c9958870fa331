# nntlib in Dafny

A model of the core of nntlib, a header-only C++ library for small
feed-forward neural networks, with proofs about that model. The model covers:

- the tuple helpers of `utils.hpp`: `tuple_apply`, `tuple_join` and the
  lock-step loop `multi_foreach`;
- the two layer kinds of `layer.hpp`. `fully_connected` has initialisation,
  forward, backward and update. `dropout` has the random mask and an identity
  backward;
- the network of `net.hpp`, a chain of layers with a loss derivative. It
  provides allocation of the caller's buffers, forward, backward, update and
  weight snapshots;
- the trainers of `training.hpp`:
  - the factor schedules;
  - the batch loop `train_impl`, with its scaling, L2 decay and update hook;
  - the plain `batch` trainer;
  - the `lbfgs` trainer. Its hook flattens the update and the weights into
    vectors, folds its history into an inverse-Hessian estimate `B`, and
    writes `B` times the update back.

How the model is laid out:

- `utils.dfy` (module `Utils`) holds the tuple helpers.
  - `tuple_apply` and `tuple_join` are recursive functions. They thread the
    state that the C++ lambdas capture by reference.
  - `multi_foreach` is a method with a while loop over iterators
    (`Iter(stream, pos)`). It is proved against the closed-form function
    `Zipped`.
- `layer.dfy` (module `Layer`) holds the layer classes `FullyConnected` and
  `Dropout`.
  - Their methods update caller buffers that are passed as sequences.
  - Each method is proved equal to a specification function, such as
    `DenseForward`, `DenseError` or `DenseGradient`.
  - Lemmas then relate those functions to the chain rule for `net_j`.
- `net.dfy` (module `Net`) holds the class `Net`. It borrows the layer objects
  as `Slot`s and runs the recursion of `net.hpp` over them.
  - The whole-network functions are `NetForward`, `NetBackward` and
    `NetUpdate`.
  - They work on a value snapshot of each layer (`LayerValue`).
- `packs.dfy` (module `Packs`) covers weight packs and gradient packs:
  - a pack is one matrix per layer;
  - mirroring means a pack has the same shape as the weights;
  - it also covers sums over a batch, scaling and the L2 term.
- `training.dfy` (module `Training`) models the training state machine as
  functions over a `World`: the layers, the caches, the hook and a trace of
  events. The callbacks become events in that trace.
- `lbfgs.dfy` (module `Lbfgs`) holds the L-BFGS hook: the fold that builds `B`,
  the bounded history and the class `LbfgsHook`.
- `vectorize.dfy` (module `Vectorize`) holds `update2vector` and
  `vector2update`.
- `trainer.dfy` (module `Trainers`) holds the imperative trainers.
  - They hold the `Net` object and, for L-BFGS, the hook object.
  - Each one is proved to compute what `Training.TrainImpl` describes.

Choices the model makes where the code leaves something open:

- **Flattening order.** `tuple_apply` visits the layers last first
  (`utils.hpp:16-29`), so the flat vector of the L-BFGS hook starts with the
  last layer. The model keeps that order (`Utils.TupleApplyOrder`,
  `Vectorize.FlattenIsConcat`). Flattening and writing back use the same
  order, so `Vectorize.FlattenUnflatten` holds.
- **Width checks.** The code checks no widths at run time. The model makes
  width agreement a precondition:
  - `Net.Chained` for adjacent layers;
  - `Training.Accepted` for the samples;
  - `Layer.BackwardFits` for the buffers.
- **Zero `yk·sk` in the L-BFGS fold.** The fold computes `ρ = 1/(yk·sk)`
  (`training.hpp:218-223`), which is undefined when `yk·sk = 0`, and the code
  does not guard it. The model keeps the fold as written and uses a corrected
  fold that skips such an entry (see Findings).
- **Batch callback timing.** Inside the sample loop, every commit is followed
  by the batch callback (`training.hpp:78-81`). The final commit of a round
  (`training.hpp:104-107`) is not.

## Model

| member | source | states |
|---|---|---|
| Utils.MultiForeach | include/nntlib/utils.hpp:146-154 | The callback runs exactly as many times as the shortest stream has elements left. Afterwards every iterator has advanced by that count and at least one stream is at its end. Each buffer position `first + p` holds what the callback wrote at step `p` (`Zipped`); every other position is untouched. |
| Utils.Rounds | include/nntlib/utils.hpp:150-153 | The loop stops after as many turns as the shortest stream has elements: the count is at most every stream's remaining length and equal to one of them. By then every buffer is in its state after that many visits, and every iterator is that many places further on. |
| Utils.Round | include/nntlib/utils.hpp:151-152 | While every stream still has more than `calls` elements, one turn of the loop moves the buffers from the state after `calls` visits to the state after `calls + 1`, and advances every iterator by one. |
| Utils.SomeExhausted | include/nntlib/utils.hpp:150 | After `Shortest` steps some stream's iterator equals its end, so the loop condition fails. |
| Utils.NoneVisited | include/nntlib/utils.hpp:146-154 | Before the first step, the buffers are the streams as passed. |
| Utils.ZippedPair | include/nntlib/utils.hpp:146-154 | For two whole streams: below the shorter length, position `p` of the first buffer is the callback's first output on `[a[p], b[p]]`. Beyond that length, position `p` is unchanged. |
| Utils.StripInOrder | include/nntlib/utils.hpp:66-85 | The `apply`/`apply_strip` rotation hands the current iterators to the callback in the order the streams were passed. |
| Utils.LiveIff | include/nntlib/utils.hpp:46-61 | `multi_foreach_impl_eq` yields true exactly when no stream's iterator equals its end, in both directions. |
| Utils.IncrAdvances | include/nntlib/utils.hpp:87-103 | `incr` advances every current iterator by one position and leaves the end iterators alone. |
| Utils.TupleApply | include/nntlib/utils.hpp:130-133 | The result has as many elements as the tuple. Visiting order and effects are stated by the three lemmas below. |
| Utils.TupleApplyOrder | include/nntlib/utils.hpp:16-29 | The callback sees every element exactly once, from the last index down to index 0. |
| Utils.TupleApplyAppends | include/nntlib/utils.hpp:16-29 | A callback that appends `h(x)` to its captured state collects the contributions of the elements last-first (`ConcatRev`). The elements stay unchanged. |
| Utils.TupleApplyPure | include/nntlib/utils.hpp:130-133 | A callback that rewrites each element by `g` and keeps its state maps element `i` to `g(t[i])`. |
| Utils.TupleJoin | include/nntlib/utils.hpp:141-144 | The number of tuples and the length of every tuple are kept. |
| Utils.TupleJoinOrder | include/nntlib/utils.hpp:31-44 | The callback sees the columns (the `i`-th element of every tuple) for `i` from the first tuple's last index down to 0. |
| Utils.TupleJoinPure | include/nntlib/utils.hpp:141-144 | Under a stateless callback `g`, column `i` of the result is `g` applied to column `i`, for every `i` below the first tuple's length. Entries beyond that length are unchanged. |
| Layer.Rng.Next | include/nntlib/layer.hpp:173 | A draw is the generator's unit value at its current position, in `[0, 1)`. The position moves on by one. |
| Layer.UniformInRange | include/nntlib/layer.hpp:34 | `uniform_real_distribution(-w, w)` applied to a unit draw lies in `[-w, w)`. |
| Layer.InitWeightsInRange | include/nntlib/layer.hpp:32-43 | The initial weights form `n_output` rows of `n_input + 1` entries. Each entry lies in `[-0.2/(n_input+1), 0.2/(n_input+1))`. |
| Layer.FullyConnected.constructor | include/nntlib/layer.hpp:32-43 | The weights are the next `n_output·(n_input+1)` draws of the generator, row by row, mapped into the initial range. The generator has advanced by exactly that many draws. |
| Layer.CalcNetj | include/nntlib/layer.hpp:121-130 | Computes `net_j = w_j[0] + Σ x[i]·w_j[i+1]` over the inputs that have a weight. |
| Layer.NetJBiasSlope | include/nntlib/layer.hpp:122-130 | `net_j` moves one-for-one with the bias `w_j[0]`. |
| Layer.NetJWeightSlope | include/nntlib/layer.hpp:122-130 | Moving weight `w_j[i]` (`i ≥ 1`) by `h` moves `net_j` by `h·x[i-1]` when that input is read, and not at all otherwise. |
| Layer.NetJInputSlope | include/nntlib/layer.hpp:122-130 | Moving input `x[i]` by `h` moves `net_j` by `h·w_j[i+1]` when that weight exists, and not at all otherwise. |
| Layer.NetJIgnoresExtraInputs | include/nntlib/layer.hpp:125 | Inputs beyond the row's `n_input` weights never affect `net_j`. |
| Layer.FullyConnected.Forward | include/nntlib/layer.hpp:75-80 | Output `j` becomes `f(net_j(x))` for every row `j`. State entries past the rows keep their contents. |
| Layer.ZeroFill | include/nntlib/layer.hpp:84 | The error buffer becomes all zeros and keeps its length. |
| Layer.CalcDelta | include/nntlib/layer.hpp:87-89 | Computes `d_j = e_j · f'(net_j)`. |
| Layer.WriteGradRow | include/nntlib/layer.hpp:91-95 | Gradient row `j` becomes `[d_j, d_j·x[0], d_j·x[1], …]`, bias first. |
| Layer.AddErrorShare | include/nntlib/layer.hpp:97-99 | Adding unit `j`'s share `d_j·w_j[i+1]` takes every error entry from the sum over units `< j` to the sum over units `≤ j`. |
| Layer.BackwardRows | include/nntlib/layer.hpp:86-100 | After the row loop, the error buffer and the gradient are the layer's full error and gradient (`DenseError`, `DenseGradient`). |
| Layer.FullyConnected.Backward | include/nntlib/layer.hpp:82-101 | `backward` writes the full error and the full gradient of the layer. The weights are unchanged. |
| Layer.GradientIsChainRule | include/nntlib/layer.hpp:86-95 | Gradient entry `[j][i]` times `h` equals `d_j` times the change in `net_j` when `w_j[i]` moves by `h`. This is the chain rule for every weight, bias included. |
| Layer.ErrorSumIsChainRule | include/nntlib/layer.hpp:97-99 | After the first `m` units, error entry `i` is `Σ_{j<m} d_j · ∂net_j/∂x[i]`. |
| Layer.ErrorIsChainRule | include/nntlib/layer.hpp:97-99 | Error entry `i` is the chain-rule sensitivity of the layer to input `i`, summed over all units, with the bias excluded. |
| Layer.FullyConnected.Update | include/nntlib/layer.hpp:106-112 | `update` adds the delta storage into the weights entry by entry. |
| Layer.AddRowAt | include/nntlib/layer.hpp:108-110 | Adding a row: each entry that both have gains the delta; the others keep their values. The row length is kept. |
| Layer.AddIntoAt | include/nntlib/layer.hpp:106-112 | Entry `[j][i]` of the weights gains `delta[j][i]` where the delta has that entry, and is unchanged elsewhere. The shape is kept. |
| Layer.AddZero | include/nntlib/layer.hpp:106-112 | Adding zeros of the same shape changes no weight. |
| Layer.AddIntoShaped | include/nntlib/layer.hpp:106-112 | An update keeps the weight matrix's shape. |
| Layer.AddIntoTwice | include/nntlib/layer.hpp:106-112 | Two same-shaped updates compose as one update by their entrywise sum. |
| Layer.MaskedKeepsAll | include/nntlib/layer.hpp:170-175 | With `prob ≤ 0`, every input passes through the mask. |
| Layer.MaskedDropsAll | include/nntlib/layer.hpp:170-175 | With `prob ≥ 1`, every input is replaced by `value`. |
| Layer.Dropout.constructor | include/nntlib/layer.hpp:141-142 | The layer holds a copy of the caller's generator (its draws and position). |
| Layer.Dropout.Forward | include/nntlib/layer.hpp:170-175 | Each input passes if its fresh draw is at least `prob`, and is replaced by `value` otherwise. The generator advances by `|x|` draws. With `prob ≤ 0` the output is `x`; with `prob ≥ 1` it is all `value`. |
| Layer.Dropout.Backward | include/nntlib/layer.hpp:177-180 | The incoming error is copied into the error buffer unchanged. The rest of the buffer is kept. |
| Net.DenseFacts | include/nntlib/layer.hpp:51-57 | For a fully connected layer, `size_out` is its number of rows, and every row is `size_in + 1` long: one bias and one weight per input. |
| Net.AllocState | include/nntlib/net.hpp:117-119 | Gives one slot per layer, of that layer's output width. |
| Net.AllocError | include/nntlib/net.hpp:121-123 | Gives one slot per layer of its input width, plus a final slot of the network's output width. |
| Net.AllocDelta | include/nntlib/net.hpp:125-127 | Gives one matrix per layer, in that layer's weight shape. |
| Net.NetWeights | include/nntlib/net.hpp:170-172 | `get_weights` gives one matrix per layer, in network order. Packs.WeightsMirror states their shape. |
| Net.PacksMirror | include/nntlib/net.hpp:170-172 | `get_weights` and `allocate_delta_storage` have the same shape, layer by layer. |
| Packs.WeightsMirror | include/nntlib/net.hpp:170-172 | The weight pack mirrors the network's shape. |
| Packs.AllocDeltaMirrors | include/nntlib/net.hpp:125-127 | The delta storage mirrors the network's shape. |
| Packs.BackwardGradientMirrors | include/nntlib/net.hpp:154-162 | After `backward`, the gradient buffers mirror the weights, so they can be committed. |
| Net.ForwardAt | include/nntlib/net.hpp:136-141 | Slot `k` of a forward pass holds layer `k`'s output on slot `k-1`, or on `x` for the first layer. |
| Net.ForwardKeepsWeights | include/nntlib/net.hpp:57-62 | A forward pass changes no weight. |
| Net.ForwardIgnoresState | include/nntlib/net.hpp:136-141 | What forward computes does not depend on the earlier contents of the state buffers. |
| Net.LayerForwardIgnoresState | include/nntlib/layer.hpp:75-80 | The same holds for one layer's forward. |
| Net.Net.Forward | include/nntlib/net.hpp:136-141 | The state buffers become the whole-network forward pass. No weight changes. |
| Net.Net.Predict | include/nntlib/net.hpp:129-134 | `forward(x)` returns the last layer's slot of a forward pass into freshly allocated state. |
| Net.WriteLossError | include/nntlib/net.hpp:84-89 | Position `p` of the output error becomes `Loss::df(y[p], t[p])` while both ranges last. The rest is kept. |
| Net.LossStep | include/nntlib/net.hpp:84-89 | The loss loop writes only the final error slot. |
| Net.BackwardRunsForward | include/nntlib/net.hpp:154-162 | The state buffers and layers after `backward` are those of a forward pass on the same input. |
| Net.BackwardAt | include/nntlib/net.hpp:154-162 | Layer `k`'s error and gradient slots are that layer's backward. Its inputs are error slot `k+1` (the loss error for the last layer) and its own cached input. |
| Net.BackwardAtFirst | include/nntlib/net.hpp:91-92 | The error returned for the network's input is the first layer's input error. |
| Net.Net.Backward | include/nntlib/net.hpp:154-162 | The buffers become the whole-network backward pass. |
| Net.UpdateAddsPack | include/nntlib/net.hpp:164-168 | After `update`, every layer's weights are its weights plus its own element of the pack. |
| Net.UpdateZero | include/nntlib/net.hpp:164-168 | Updating with freshly allocated delta storage changes nothing. |
| Net.Net.Update | include/nntlib/net.hpp:164-168 | The layers become the whole-network update by the pack. |
| Net.Net.constructor | include/nntlib/net.hpp:115 | The network holds the given layers and the loss derivative. |
| Packs.PackAddAt | include/nntlib/training.hpp:89-95 | `gradients_sum += gradients`: each layer of the sum adds that layer of the gradient entrywise. |
| Packs.PackAddEntries | include/nntlib/training.hpp:89-95 | For same-shaped packs, entry `[k][j][i]` of the sum is the sum of the entries. |
| Packs.PackSumAt | include/nntlib/training.hpp:75-95 | Entry `[k][j][i]` of a batch's summed gradient is the sum of that entry over the batch's gradients. |
| Packs.ScaledEntry | include/nntlib/training.hpp:125-131 | Scaling a pack multiplies every entry by the factor and keeps the shape. |
| Packs.ScaledTwice | include/nntlib/training.hpp:125-131 | Scaling by `a` and then by `b` equals scaling by `a·b`. |
| Packs.ScaleIsTupleApply | include/nntlib/training.hpp:125-131 | The `tuple_apply` pass over the layers scales the whole pack. |
| Packs.ScalePack | include/nntlib/training.hpp:125-131 | The in-place loops compute the scaled pack. |
| Packs.L2RowAt | include/nntlib/training.hpp:137-146 | In each row, entry `i > 0` that has a weight gets `- w·l2/n` added. The bias entry and entries without a weight are unchanged. |
| Packs.L2PackAt | include/nntlib/training.hpp:134-149 | The L2 pass adds `- w·l2/n` to every non-bias entry of the update that has a weight, and leaves the other entries alone. |
| Training.FactorConst | include/nntlib/training.hpp:25-29 | `func_factor_const` gives the same factor in every round. |
| Training.FactorExp | include/nntlib/training.hpp:31-35 | `func_factor_exp` starts at `factor` in round 0. Together with `FactorExpStep`, round `i` is `factor·base^i`. |
| Training.FactorExpStep | include/nntlib/training.hpp:31-35 | Each round's factor is the previous one times `base`. |
| Training.FactorExpOne | include/nntlib/training.hpp:25-35 | With base 1, the exponential schedule is the constant schedule. |
| Training.PreparedShape | include/nntlib/training.hpp:122-149 | The prepared update mirrors the weights. |
| Training.PreparedAt | include/nntlib/training.hpp:122-149 | Entry `[k][j][i]` of the prepared update is `sum·(-factor/bsize)`. It also gets `- w·l2/n` when `l2 > 0`, `i > 0` and the weight exists. |
| Training.Commit | include/nntlib/training.hpp:122-156 | A commit keeps the shape of every layer and the caches, and appends `Committed(round)` to the trace. The hook keeps its schedule and history bound. |
| Training.CommitAdds | include/nntlib/training.hpp:151-155 | The weights after a commit are the weights plus the hook's output, layer by layer. With no hook, that output is the prepared update. |
| Training.CommitEntry | include/nntlib/training.hpp:122-156 | Weight `[k][j][i]` after a plain commit is `before + sum·c`, with `c = -ffactor(round)/bsize`. When `l2 > 0` and `i > 0` it is also decayed by `- before·l2/n`. |
| Training.FirstLbfgsCommit | include/nntlib/training.hpp:209-226 | With an empty history and no L2, the first L-BFGS commit moves the weights exactly as a plain commit whose factor is the hook's `func_factor(nround)`. |
| Training.TickIsMod | include/nntlib/training.hpp:97 | The counter step equals `(batchcounter + 1) % bsize`. |
| Training.SampleStep | include/nntlib/training.hpp:65-100 | One sample turn first appends `Evaluated`. When the previous batch was complete, it then commits it and fires the batch callback. The counter ticks. At counter 0 the sum restarts at this gradient; otherwise the gradient is added to the sum. |
| Training.RoundPrefix | include/nntlib/training.hpp:61-101 | After `i` sample turns, the trace has gained the events of those turns and the counter has stepped `i` times from 0. The first-batch flag is set only when `i = 0`. |
| Training.SumIsOpenSum | include/nntlib/training.hpp:65-101 | After `i ≥ 1` turns, the loop's `gradients_sum` is determined by the gradients of those turns (`OpenSum`). |
| Training.OpenSumBatch | include/nntlib/training.hpp:74-97 | That sum is the sum of exactly the last `Open(i, bsize)` gradients, the unfinished batch: between 1 and `bsize` samples. So each commit gets the sum of its own batch and no other sample. |
| Training.NextRound | include/nntlib/training.hpp:187-190 | The L-BFGS round callback sets `nround` to `round + 1` and keeps the rest of the hook. |
| Training.Round | include/nntlib/training.hpp:56-111 | A round appends its events: `Evaluated` for every sample in turn, one `Committed` per batch, and the round callback last. For L-BFGS, `nround` becomes `round + 1`. |
| Training.RoundEventCounts | include/nntlib/training.hpp:56-111 | A round of `m > 0` samples commits `ceil(m/bsize)` times, makes one batch callback fewer, makes one round callback as its last event, and evaluates samples `0..m-1` in order. With `m = 0` it only calls the round callback. |
| Training.SamplesInOrder | include/nntlib/training.hpp:65-100 | The sample loop evaluates the samples in dataset order, each exactly once. |
| Training.RoundsTrace | include/nntlib/training.hpp:56-111 | After `r` rounds, the trace is the starting trace followed by rounds `0` to `r-1`, in order. |
| Training.RoundsCounts | include/nntlib/training.hpp:56-111 | Over `r` rounds there are `r·ceil(m/bsize)` commits (none without samples), `r` round callbacks, and one batch callback fewer than commits per round. |
| Training.TrainImpl | include/nntlib/training.hpp:49-112 | Training keeps every layer's shape. The trace, counts and batch sums are stated by `RoundsTrace`, `RoundsCounts`, `SumIsOpenSum`, `OpenSumBatch` and `CommitEntry`. |
| Lbfgs.BuildB | include/nntlib/training.hpp:215-224 | The loop starts `B` at the identity and folds the history in, oldest first, to give the corrected fold `BFold`. |
| Lbfgs.BFoldAgrees | include/nntlib/training.hpp:216-224 | When no entry has `yk·sk = 0`, the corrected fold equals the fold as written. |
| Lbfgs.BFoldSkips | include/nntlib/training.hpp:218-223 | An entry with `yk·sk = 0` leaves `B` unchanged in the corrected fold. |
| Lbfgs.RecastSecant | include/nntlib/training.hpp:220-223 | One BFGS update `(I - ρ s yᵀ) B (I - ρ y sᵀ) + ρ s sᵀ`, with `ρ = 1/(y·s)`, maps `y` to `s` (the secant equation). |
| Lbfgs.BFoldSecant | include/nntlib/training.hpp:217-224 | After the fold, `B` satisfies the secant equation of the newest history entry with nonzero `yk·sk`. |
| Lbfgs.Evict | include/nntlib/training.hpp:228-230 | Eviction keeps the newest `min(|h|, history_size)` entries, in order, as a suffix of the history. |
| Lbfgs.EvictOldest | include/nntlib/training.hpp:228-230 | The erase-front loop computes that suffix. |
| Lbfgs.Record | include/nntlib/training.hpp:209-213 | Except on the first call, the history gains the entry `sk = w - w_last`, `yk = g - g_last`. Here `w` is the flat weights and `g` the negated flat update, each against the vectors stored by the previous call. |
| Lbfgs.HookStep | include/nntlib/training.hpp:205-234 | The hook keeps `nround` and clears the first-call flag. The history stays within `history_size`, and the update keeps its shape. |
| Lbfgs.HookFirstStep | include/nntlib/training.hpp:215-226 | With an empty history, the hook returns the update scaled by `func_factor(nround)`. |
| Lbfgs.HookHistory | include/nntlib/training.hpp:209-233 | The stored last vectors are this call's flattened weights and update. The history is the old history plus the new entry (except on the first call), then evicted to `history_size`. |
| Lbfgs.HookSecant | include/nntlib/training.hpp:212-226 | The `B` this call applies satisfies the secant equation of the entry just recorded, unless that entry has `yk·sk = 0`. |
| Lbfgs.UnmovedWeightsZeroNorm | include/nntlib/training.hpp:212-218 | When the weights did not move since the last call, the new entry has `sk = 0` and so `yk·sk = 0`. |
| Lbfgs.HookRun | include/nntlib/training.hpp:205-234 | The imperative hook body computes `HookStep`. |
| Lbfgs.LbfgsHook.constructor | include/nntlib/training.hpp:183-186 | The hook object holds the schedule and history bound and starts fresh. |
| Lbfgs.LbfgsHook.Reset | include/nntlib/training.hpp:199-203 | `nround = 0`, an empty history, and the first-call flag set. |
| Lbfgs.LbfgsHook.RoundDone | include/nntlib/training.hpp:187-190 | The round callback sets `nround` to `round + 1`. |
| Lbfgs.LbfgsHook.Call | include/nntlib/training.hpp:205-234 | One hook call updates the object's state and returns the update, as `HookStep` says. |
| Vectorize.Update2Vector | include/nntlib/training.hpp:246-261 | The flat vector has one entry per weight, and is the flattening of the pack. |
| Vectorize.FlattenLength | include/nntlib/training.hpp:246-261 | The flattening's length is the pack's number of entries. |
| Vectorize.FlattenIsConcat | include/nntlib/training.hpp:249-255 | The flattening concatenates the layers' rows, last layer first, as `tuple_apply` visits them. |
| Vectorize.Vector2Update | include/nntlib/training.hpp:263-275 | Writing a vector back fills the pack in flattening order, scaled by the factor. |
| Vectorize.UnflattenShape | include/nntlib/training.hpp:263-275 | Writing back keeps the pack's shape. |
| Vectorize.UnflattenFlatten | include/nntlib/training.hpp:246-275 | Writing back a pack's own flattening of factor `a`, with factor `c`, gives the pack scaled by `a·c`. |
| Vectorize.FlattenUnflatten | include/nntlib/training.hpp:246-275 | Flattening what a vector was written back into, both with factor 1, returns the vector. |
| Trainers.Prepare | include/nntlib/training.hpp:125-149 | Scaling and the L2 pass compute the prepared update. |
| Trainers.PrepareAndCommit | include/nntlib/training.hpp:122-156 | The imperative commit leaves the network and hook as `Training.Commit` says. |
| Trainers.SampleLoop | include/nntlib/training.hpp:61-101 | The imperative sample loop ends in the state `RoundPrefix` describes for all samples. |
| Trainers.RoundCallbackOf | include/nntlib/training.hpp:110 | The round callback changes the hook as `NextRound` says. |
| Trainers.RunRound | include/nntlib/training.hpp:56-111 | One imperative round ends where `Training.Round` says. |
| Trainers.Run | include/nntlib/training.hpp:49-112 | The imperative `train_impl` ends in the state `Training.TrainImpl` describes. |
| Trainers.BatchTrainer.constructor | include/nntlib/training.hpp:167 | Holds the schedule, batch size, rounds and L2 factor. |
| Trainers.BatchTrainer.Train | include/nntlib/training.hpp:169-173 | `batch::train` is `train_impl` with a hook that returns the update unchanged. |
| Trainers.LbfgsTrainer.constructor | include/nntlib/training.hpp:183-191 | The outer schedule is constant 1. The hook holds the caller's schedule and history size. |
| Trainers.LbfgsTrainer.Train | include/nntlib/training.hpp:197-236 | `lbfgs::train` resets the hook, then runs `train_impl` with it. The hook's final state is the run's, and `nround` ends at the number of rounds. |

## Left out

- The random source becomes an oracle of unit draws:
  - `std::mt19937`'s draw sequence is a function from positions to `[0, 1)` values (`Layer.Rng`);
  - `uniform_real_distribution(a, b)` is the affine map `a + u·(b - a)` of a unit draw. Its bits-to-real conversion is not modelled.
- `double` becomes `real`. There is no NaN, infinity or rounding. `std::pow` becomes `Pow` with a natural exponent.
- `size_t` becomes `nat`, so there is no wrap-around. No index in the core gets near the limit.
- Training with `bsize = 0` is excluded by precondition when there are samples, because `% bsize` at `training.hpp:97` would divide by zero.
- Buffer overruns are excluded by preconditions. Undersized caller buffers are undefined behaviour in the C++, so they are not modelled. The preconditions are `BackwardFits`, `ForwardAccepts`, `BackwardAccepts`, `Accepted`, `StateFits`, `|weights| ≤ |state|` on the fully connected forward and `|x| ≤ |state|` on the dropout forward.
- Net.Chained requires adjacent layers to have exactly matching widths. Nothing in the code checks the widths; wider buffers would index past them.
- A zero-row `fully_connected` can be built (`Layer.FullyConnected.constructor` with `nOutput = 0`). Its `size_in` reads `weights[0]` out of range, which is undefined behaviour. `Net.LayerShape.SizeIn` returns 0 for such a `DenseShape`, and `Net.LayerShape.Valid` keeps zero-row layers out of a `Net`.
- Layer.Dropout.constructor: the default `dropout_value = 0.0` of `layer.hpp:141-142` is not modelled, because Dafny has no default arguments. A caller that omits it passes 0.0.
- The flag and the cache that `net.hpp` passes to the layers are left out. `net.hpp:60` and `net.hpp:78` call `forward(x_first, x_last, y, flag)` and keep the result as `cache`, and `net.hpp:91` passes that cache to `backward` as a sixth argument. `layer.hpp:76`, `83`, `171` and `178` declare only a three-argument `forward` that returns nothing and a five-argument `backward`, so neither call matches a declared member. The model follows `layer.hpp`: forward returns nothing and backward takes no cache and recomputes `net_j` from its input, as `layer.hpp:82-101` does. The multi-layer calls at `net.hpp:138` and `net.hpp:157-160` are modelled the same way. The 4-argument `backward` overloads (`net.hpp:64-73`, `143-152`) are also left out, because they only allocate buffers for the 7-argument ones.
- Callbacks are events in a trace. The setters `callback_round` and `callback_batch` (`training.hpp:40-46`, `193-195`) are left out because they only store the `std::function`. What a callback does is outside nntlib.
- Datasets are sequences of vectors. `iterator.hpp` is not part of this model.
- `activation.hpp` and `loss.hpp` are not part of this model. Activations are pairs `(f, df)` of `real -> real`. The loss is its derivative, a `(real, real) -> real`.
- Eigen vectors and matrices become `seq<real>` and `seq<seq<real>>`.
- The layers' copy and move constructors (`layer.hpp:45-49`, `144-148`) are left out, because the model never copies a layer.
- The helpers `head_tail`, `undef` and the `std::tuple` plumbing are left out: packs are sequences.
- The even-arity `static_assert` of `multi_foreach` (`utils.hpp:148`) is structural: streams come as `(first, last)` pairs.
- Layers are borrowed by reference as `Slot` objects. `Distinct` excludes two slots holding the same object, so the model does not cover one layer object appearing twice in a network.
- HookStep: uses the corrected fold, which skips entries with `yk·sk = 0`; `training.hpp:218-223` divides by that value unguarded. So do `BuildB`, `HookMatrix`, `HookRun`, `Training.Hooked`, `LbfgsHook.Call` and `LbfgsTrainer.Train`. The as-written fold is `BFoldAsWritten` (see Findings).
- TrainImpl: its own `ensures` states only that shapes are kept. What a run does is stated about the same functions by `RoundsTrace`, `RoundsCounts`, `SumIsOpenSum`, `OpenSumBatch` and `CommitEntry`.

## Findings

| source | as written | input that shows it | evidently intended | confidence | as-written member | corrected member |
|---|---|---|---|---|---|---|
| include/nntlib/training.hpp:218-223 | The L-BFGS fold divides by `norm = yk·sk` with no guard. | `lbfgs` with `func_factor_exp(f, 0.0)` and at least two batches per round. From round 1 the hook's factor is 0, so its commits do not move the weights. The next call records `sk = 0`, so `norm = 0` and `0/0` puts NaN into `bk` and then into every weight. | Skip a history entry whose `yk·sk` is zero. | not executed | Lbfgs.BFoldAsWritten, Lbfgs.UnmovedWeightsZeroNorm | Lbfgs.BFold, Lbfgs.BFoldAgrees, Lbfgs.BFoldSkips |
