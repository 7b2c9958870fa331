/** Traversal combinators of nntlib (`utils.hpp`): `multi_foreach`, which walks
    several iterator streams in lock-step and stops at the shortest one, and
    `tuple_apply` / `tuple_join`, which visit the elements of (joined) tuples
    from the last index down to 0.

    Tuples become sequences. A C++ callback may keep state in variables it
    captured by reference; that state is the threaded value `S` here. A
    `multi_foreach` callback receives the step index, which stands for any
    counter its closure keeps (nntlib's L2 pass keeps a "first element" flag). */
module Utils {

  // ---------------------------------------------------------------------------
  // multi_foreach
  // ---------------------------------------------------------------------------

  /** One stream of `multi_foreach`: the range `buf[first..last]` delimited by a
      first/last iterator pair over the container `buf`. */
  datatype Stream<T> = Stream(buf: seq<T>, first: nat, last: nat) {
    predicate Valid() { first <= last <= |buf| }

    function Remaining(): nat
      requires Valid()
    {
      last - first
    }
  }

  /** The stream `[c.begin(), c.end())` of a whole container. */
  function Whole<T>(s: seq<T>): (r: Stream<T>)
    ensures r.Valid() && r.buf == s && r.first == 0 && r.Remaining() == |s|
  {
    Stream(s, 0, |s|)
  }

  predicate ValidStreams<T>(streams: seq<Stream<T>>) {
    forall k :: 0 <= k < |streams| ==> streams[k].Valid()
  }

  /** A callback that writes back exactly one value per argument. */
  ghost predicate LengthPreserving<T(!new)>(f: (nat, seq<T>) -> seq<T>) {
    forall i: nat, xs: seq<T> :: |f(i, xs)| == |xs|
  }

  /** Length of the shortest stream: the number of rounds `multi_foreach` makes. */
  function Shortest<T>(streams: seq<Stream<T>>): (m: nat)
    requires |streams| >= 1 && ValidStreams(streams)
    ensures forall k :: 0 <= k < |streams| ==> m <= streams[k].Remaining()
    ensures exists k :: 0 <= k < |streams| && m == streams[k].Remaining()
  {
    if |streams| == 1 then streams[0].Remaining()
    else
      var rest := Shortest(streams[1..]);
      assert forall k :: 1 <= k < |streams| ==> streams[k] == streams[1..][k - 1];
      if streams[0].Remaining() <= rest then streams[0].Remaining() else rest
  }

  /** The arguments of the `i`-th callback: the `i`-th element of every stream,
      in the order the streams were passed. */
  function Args<T>(streams: seq<Stream<T>>, i: nat): (xs: seq<T>)
    requires |streams| >= 1 && ValidStreams(streams) && i < Shortest(streams)
    ensures |xs| == |streams|
  {
    seq(|streams|, k requires 0 <= k < |streams| => streams[k].buf[streams[k].first + i])
  }

  /** The containers after the first `n` callbacks: position `first + i` of stream
      `k` holds what the `i`-th callback wrote for its `k`-th argument; every
      other position keeps its value. */
  function Visited<T(!new)>(f: (nat, seq<T>) -> seq<T>, streams: seq<Stream<T>>, n: nat): (bufs: seq<seq<T>>)
    requires |streams| >= 1 && ValidStreams(streams) && LengthPreserving(f)
    requires n <= Shortest(streams)
    ensures |bufs| == |streams| && forall k :: 0 <= k < |streams| ==> |bufs[k]| == |streams[k].buf|
  {
    seq(|streams|, k requires 0 <= k < |streams| =>
      seq(|streams[k].buf|, p requires 0 <= p < |streams[k].buf| =>
        if streams[k].first <= p < streams[k].first + n
        then f(p - streams[k].first, Args(streams, p - streams[k].first))[k]
        else streams[k].buf[p]))
  }

  /** What a complete `multi_foreach` leaves in the containers. */
  function Zipped<T(!new)>(f: (nat, seq<T>) -> seq<T>, streams: seq<Stream<T>>): (bufs: seq<seq<T>>)
    requires |streams| >= 1 && ValidStreams(streams) && LengthPreserving(f)
  {
    Visited(f, streams, Shortest(streams))
  }

  /** An iterator value: a position in the container of stream `stream`. */
  datatype Iter = Iter(stream: nat, pos: nat)

  /** The variadic argument list `first_0, last_0, first_1, last_1, ...`. */
  function Interleave(cs: seq<Iter>, es: seq<Iter>): (its: seq<Iter>)
    requires |cs| == |es|
    ensures |its| == 2 * |cs|
    ensures forall k :: 0 <= k < |cs| ==> its[2 * k] == cs[k] && its[2 * k + 1] == es[k]
  {
    if cs == [] then [] else [cs[0], es[0]] + Interleave(cs[1..], es[1..])
  }

  /** The current iterators after `i` increments. */
  function Currents<T>(streams: seq<Stream<T>>, i: nat): (cs: seq<Iter>)
    ensures |cs| == |streams|
  {
    seq(|streams|, k requires 0 <= k < |streams| => Iter(k, streams[k].first + i))
  }

  function Ends<T>(streams: seq<Stream<T>>): (es: seq<Iter>)
    ensures |es| == |streams|
  {
    seq(|streams|, k requires 0 <= k < |streams| => Iter(k, streams[k].last))
  }

  /** `multi_foreach_impl_eq`: no stream has reached its end. */
  function Live(its: seq<Iter>): bool
    requires |its| >= 2 && |its| % 2 == 0
  {
    if |its| == 2 then its[0].pos != its[1].pos
    else its[0].pos != its[1].pos && Live(its[2..])
  }

  /** `multi_foreach_impl_incr`: advance every current iterator by one. */
  function Incr(its: seq<Iter>): (r: seq<Iter>)
    requires |its| % 2 == 0
    ensures |r| == |its|
  {
    if its == [] then [] else [Iter(its[0].stream, its[0].pos + 1), its[1]] + Incr(its[2..])
  }

  /** `multi_foreach_impl_apply` / `_apply_strip`: while `n > 0`, drop the leading
      first/last pair and append its first iterator at the back; at `n == 0`
      the remaining iterators are the callback's arguments. */
  function Strip(n: nat, its: seq<Iter>): seq<Iter>
    requires n % 2 == 0 && n <= |its|
  {
    if n == 0 then its else Strip(n - 2, its[2..] + [its[0]])
  }

  /** Dereference every iterator against the containers. */
  function Deref<T>(bufs: seq<seq<T>>, order: seq<Iter>): (xs: seq<T>)
    requires forall k :: 0 <= k < |order| ==> order[k].stream < |bufs| && order[k].pos < |bufs[order[k].stream]|
    ensures |xs| == |order|
  {
    seq(|order|, k requires 0 <= k < |order| => bufs[order[k].stream][order[k].pos])
  }

  /** The callback's writes through its reference arguments, one after another. */
  function WriteBack<T>(bufs: seq<seq<T>>, order: seq<Iter>, ys: seq<T>): (r: seq<seq<T>>)
    requires |order| == |ys|
    requires forall k :: 0 <= k < |order| ==> order[k].stream < |bufs| && order[k].pos < |bufs[order[k].stream]|
    ensures |r| == |bufs| && forall s :: 0 <= s < |bufs| ==> |r[s]| == |bufs[s]|
  {
    if order == [] then bufs
    else
      var o := order[|order| - 1];
      var b := WriteBack(bufs, order[..|order| - 1], ys[..|ys| - 1]);
      b[o.stream := b[o.stream][o.pos := ys[|ys| - 1]]]
  }

  lemma {:induction false} InterleaveTail(cs: seq<Iter>, es: seq<Iter>)
    requires |cs| == |es| && |cs| >= 1
    ensures Interleave(cs, es)[2..] == Interleave(cs[1..], es[1..])
  {
  }

  /** The rotation of `apply_strip` hands the current iterators to the callback
      in the order the streams were passed. */
  lemma {:induction false} StripRotates(cs: seq<Iter>, es: seq<Iter>, j: nat)
    requires |cs| == |es| && j <= |cs|
    ensures 2 * (|cs| - j) <= |Interleave(cs[j..], es[j..]) + cs[..j]|
    ensures Strip(2 * (|cs| - j), Interleave(cs[j..], es[j..]) + cs[..j]) == cs
    decreases |cs| - j
  {
    var its := Interleave(cs[j..], es[j..]) + cs[..j];
    if j == |cs| {
      assert its == cs;
    } else {
      InterleaveTail(cs[j..], es[j..]);
      assert cs[j..][1..] == cs[j + 1..] && es[j..][1..] == es[j + 1..];
      assert its[2..] + [its[0]] == Interleave(cs[j + 1..], es[j + 1..]) + cs[..j + 1];
      StripRotates(cs, es, j + 1);
    }
  }

  lemma StripInOrder(cs: seq<Iter>, es: seq<Iter>)
    requires |cs| == |es|
    ensures Strip(2 * |cs|, Interleave(cs, es)) == cs
  {
    StripRotates(cs, es, 0);
    assert cs[0..] == cs && es[0..] == es && cs[..0] == [];
    assert Interleave(cs[0..], es[0..]) + cs[..0] == Interleave(cs, es);
  }

  lemma {:induction false} LiveIff(cs: seq<Iter>, es: seq<Iter>)
    requires |cs| == |es| && |cs| >= 1
    ensures Live(Interleave(cs, es)) <==> forall k :: 0 <= k < |cs| ==> cs[k].pos != es[k].pos
  {
    if |cs| > 1 {
      InterleaveTail(cs, es);
      LiveIff(cs[1..], es[1..]);
      assert forall k :: 1 <= k < |cs| ==> cs[k] == cs[1..][k - 1] && es[k] == es[1..][k - 1];
    }
  }

  /** Every current iterator one position further. */
  function Advance(cs: seq<Iter>): (r: seq<Iter>)
    ensures |r| == |cs| && forall k :: 0 <= k < |cs| ==> r[k] == Iter(cs[k].stream, cs[k].pos + 1)
  {
    if cs == [] then [] else [Iter(cs[0].stream, cs[0].pos + 1)] + Advance(cs[1..])
  }

  lemma {:induction false} IncrAdvances(cs: seq<Iter>, es: seq<Iter>)
    requires |cs| == |es|
    ensures Incr(Interleave(cs, es)) == Interleave(Advance(cs), es)
  {
    if cs != [] {
      var its := Interleave(cs, es);
      InterleaveTail(cs, es);
      IncrAdvances(cs[1..], es[1..]);
      assert Incr(its) == [Iter(cs[0].stream, cs[0].pos + 1), es[0]] + Incr(its[2..]);
      assert Interleave(Advance(cs), es)
          == [Advance(cs)[0], es[0]] + Interleave(Advance(cs)[1..], es[1..]);
      assert Advance(cs)[1..] == Advance(cs[1..]);
    }
  }

  /** Writing back through iterators that point into distinct streams, the
      `k`-th into stream `k`, sets exactly one position per stream. */
  lemma {:induction false} WriteBackDistinct<T>(bufs: seq<seq<T>>, order: seq<Iter>, ys: seq<T>, s: nat, q: nat)
    requires |order| == |ys| && |order| <= |bufs|
    requires forall k :: 0 <= k < |order| ==> order[k].stream == k && order[k].pos < |bufs[k]|
    requires s < |bufs| && q < |bufs[s]|
    ensures WriteBack(bufs, order, ys)[s][q] == if s < |order| && q == order[s].pos then ys[s] else bufs[s][q]
  {
    if order != [] {
      WriteBackDistinct(bufs, order[..|order| - 1], ys[..|ys| - 1], s, q);
    }
  }

  lemma ArgsAreCurrents<T(!new)>(f: (nat, seq<T>) -> seq<T>, streams: seq<Stream<T>>, n: nat)
    requires |streams| >= 1 && ValidStreams(streams) && LengthPreserving(f)
    requires n < Shortest(streams)
    ensures Deref(Visited(f, streams, n), Currents(streams, n)) == Args(streams, n)
  {
  }

  lemma VisitedAt<T(!new)>(f: (nat, seq<T>) -> seq<T>, streams: seq<Stream<T>>, n: nat, s: nat, q: nat)
    requires |streams| >= 1 && ValidStreams(streams) && LengthPreserving(f)
    requires n <= Shortest(streams) && s < |streams| && q < |streams[s].buf|
    ensures Visited(f, streams, n)[s][q]
         == if streams[s].first <= q < streams[s].first + n
            then f(q - streams[s].first, Args(streams, q - streams[s].first))[s]
            else streams[s].buf[q]
  {
  }

  lemma CurrentsInRange<T>(streams: seq<Stream<T>>, bufs: seq<seq<T>>, n: nat)
    requires |streams| >= 1 && ValidStreams(streams) && n < Shortest(streams)
    requires |bufs| == |streams| && forall k :: 0 <= k < |streams| ==> |bufs[k]| == |streams[k].buf|
    ensures forall k :: 0 <= k < |streams| ==>
      Currents(streams, n)[k].stream == k && Currents(streams, n)[k].pos < |bufs[k]|
  {
    forall k | 0 <= k < |streams|
      ensures Currents(streams, n)[k].pos < |bufs[k]|
    {
      assert n < streams[k].Remaining();
    }
  }

  lemma VisitedStepAt<T(!new)>(f: (nat, seq<T>) -> seq<T>, streams: seq<Stream<T>>, n: nat, s: nat, q: nat)
    requires |streams| >= 1 && ValidStreams(streams) && LengthPreserving(f)
    requires n < Shortest(streams) && s < |streams| && q < |streams[s].buf|
    requires forall k :: 0 <= k < |streams| ==>
      Currents(streams, n)[k].stream == k && Currents(streams, n)[k].pos < |Visited(f, streams, n)[k]|
    ensures WriteBack(Visited(f, streams, n), Currents(streams, n), f(n, Args(streams, n)))[s][q]
         == Visited(f, streams, n + 1)[s][q]
  {
    if q == streams[s].first + n {
      StepHit(f, streams, n, s, q);
    } else {
      StepMiss(f, streams, n, s, q);
    }
  }

  lemma StepHit<T(!new)>(f: (nat, seq<T>) -> seq<T>, streams: seq<Stream<T>>, n: nat, s: nat, q: nat)
    requires |streams| >= 1 && ValidStreams(streams) && LengthPreserving(f)
    requires n < Shortest(streams) && s < |streams| && q < |streams[s].buf| && q == streams[s].first + n
    requires forall k :: 0 <= k < |streams| ==>
      Currents(streams, n)[k].stream == k && Currents(streams, n)[k].pos < |Visited(f, streams, n)[k]|
    ensures WriteBack(Visited(f, streams, n), Currents(streams, n), f(n, Args(streams, n)))[s][q]
         == Visited(f, streams, n + 1)[s][q]
  {
    var ys := f(n, Args(streams, n));
    var v := Visited(f, streams, n + 1)[s][q];
    assert v == ys[s] by {
      VisitedHit(f, streams, n, s);
    }
    WriteBackHit(Visited(f, streams, n), Currents(streams, n), ys, s, q, v);
  }

  lemma WriteBackHit<T>(bufs: seq<seq<T>>, order: seq<Iter>, ys: seq<T>, s: nat, q: nat, v: T)
    requires |order| == |ys| && |order| <= |bufs|
    requires forall k :: 0 <= k < |order| ==> order[k].stream == k && order[k].pos < |bufs[k]|
    requires s < |order| && q == order[s].pos && v == ys[s]
    ensures WriteBack(bufs, order, ys)[s][q] == v
  {
    WriteBackDistinct(bufs, order, ys, s, q);
  }

  lemma StepMiss<T(!new)>(f: (nat, seq<T>) -> seq<T>, streams: seq<Stream<T>>, n: nat, s: nat, q: nat)
    requires |streams| >= 1 && ValidStreams(streams) && LengthPreserving(f)
    requires n < Shortest(streams) && s < |streams| && q < |streams[s].buf| && q != streams[s].first + n
    requires forall k :: 0 <= k < |streams| ==>
      Currents(streams, n)[k].stream == k && Currents(streams, n)[k].pos < |Visited(f, streams, n)[k]|
    ensures WriteBack(Visited(f, streams, n), Currents(streams, n), f(n, Args(streams, n)))[s][q]
         == Visited(f, streams, n + 1)[s][q]
  {
    VisitedUnmoved(f, streams, n, s, q);
    WriteBackDistinct(Visited(f, streams, n), Currents(streams, n), f(n, Args(streams, n)), s, q);
  }

  /** The `n`-th round writes, in stream `s`, what the callback returns for it. */
  lemma VisitedHit<T(!new)>(f: (nat, seq<T>) -> seq<T>, streams: seq<Stream<T>>, n: nat, s: nat)
    requires |streams| >= 1 && ValidStreams(streams) && LengthPreserving(f)
    requires n < Shortest(streams) && s < |streams|
    ensures streams[s].first + n < |streams[s].buf|
    ensures Visited(f, streams, n + 1)[s][streams[s].first + n] == f(n, Args(streams, n))[s]
  {
    var q := streams[s].first + n;
    assert n < streams[s].Remaining();
    VisitedAt(f, streams, n + 1, s, q);
    assert q - streams[s].first == n;
  }

  /** A position the `n`-th round does not reach keeps its contents. */
  lemma VisitedUnmoved<T(!new)>(f: (nat, seq<T>) -> seq<T>, streams: seq<Stream<T>>, n: nat, s: nat, q: nat)
    requires |streams| >= 1 && ValidStreams(streams) && LengthPreserving(f)
    requires n < Shortest(streams) && s < |streams| && q < |streams[s].buf| && q != streams[s].first + n
    ensures Visited(f, streams, n + 1)[s][q] == Visited(f, streams, n)[s][q]
  {
    VisitedAt(f, streams, n, s, q);
    VisitedAt(f, streams, n + 1, s, q);
  }

  lemma VisitedStep<T(!new)>(f: (nat, seq<T>) -> seq<T>, streams: seq<Stream<T>>, n: nat)
    requires |streams| >= 1 && ValidStreams(streams) && LengthPreserving(f)
    requires n < Shortest(streams)
    ensures Visited(f, streams, n + 1) == WriteBack(Visited(f, streams, n), Currents(streams, n), f(n, Args(streams, n)))
  {
    CurrentsInRange(streams, Visited(f, streams, n), n);
    VisitedStepEntries(f, streams, n);
    GridsEqual(WriteBack(Visited(f, streams, n), Currents(streams, n), f(n, Args(streams, n))), Visited(f, streams, n + 1));
  }

  lemma VisitedStepEntries<T(!new)>(f: (nat, seq<T>) -> seq<T>, streams: seq<Stream<T>>, n: nat)
    requires |streams| >= 1 && ValidStreams(streams) && LengthPreserving(f)
    requires n < Shortest(streams)
    requires forall k :: 0 <= k < |streams| ==>
      Currents(streams, n)[k].stream == k && Currents(streams, n)[k].pos < |Visited(f, streams, n)[k]|
    ensures forall s, q :: 0 <= s < |streams| && 0 <= q < |streams[s].buf| ==>
      WriteBack(Visited(f, streams, n), Currents(streams, n), f(n, Args(streams, n)))[s][q]
      == Visited(f, streams, n + 1)[s][q]
  {
    forall s, q | 0 <= s < |streams| && 0 <= q < |streams[s].buf|
      ensures WriteBack(Visited(f, streams, n), Currents(streams, n), f(n, Args(streams, n)))[s][q]
           == Visited(f, streams, n + 1)[s][q]
    {
      VisitedStepAt(f, streams, n, s, q);
    }
  }

  /** Two sequences of rows with the same shape and the same entries are equal. */
  lemma GridsEqual<T>(a: seq<seq<T>>, b: seq<seq<T>>)
    requires |a| == |b| && forall s :: 0 <= s < |a| ==> |a[s]| == |b[s]|
    requires forall s, q :: 0 <= s < |a| && 0 <= q < |a[s]| ==> a[s][q] == b[s][q]
    ensures a == b
  {
    forall s | 0 <= s < |a|
      ensures a[s] == b[s]
    {
      assert forall q :: 0 <= q < |a[s]| ==> a[s][q] == b[s][q];
    }
  }

  /** While no stream is exhausted another round remains; once one is, the
      rounds made are exactly the shortest length. */
  lemma RoundsLeft<T>(streams: seq<Stream<T>>, n: nat)
    requires |streams| >= 1 && ValidStreams(streams) && n <= Shortest(streams)
    ensures (forall k :: 0 <= k < |streams| ==> streams[k].first + n != streams[k].last) <==> n < Shortest(streams)
  {
    var m := Shortest(streams);
    if n == m {
      var k :| 0 <= k < |streams| && m == streams[k].Remaining();
      assert streams[k].first + n == streams[k].last;
    }
  }

  lemma LiveRounds<T>(streams: seq<Stream<T>>, n: nat)
    requires |streams| >= 1 && ValidStreams(streams) && n <= Shortest(streams)
    ensures Live(Interleave(Currents(streams, n), Ends(streams))) <==> n < Shortest(streams)
  {
    var cs, es := Currents(streams, n), Ends(streams);
    LiveIff(cs, es);
    RoundsLeft(streams, n);
    assert forall k :: 0 <= k < |streams| ==> cs[k].pos == streams[k].first + n && es[k].pos == streams[k].last;
  }

  lemma AdvanceCurrents<T>(streams: seq<Stream<T>>, n: nat)
    ensures Advance(Currents(streams, n)) == Currents(streams, n + 1)
  {
  }

  /** One round of the `multi_foreach` loop body: hand the current elements to
      the callback, store what it writes, and increment every current iterator. */
  method Round<T(!new)>(f: (nat, seq<T>) -> seq<T>, streams: seq<Stream<T>>, bufs: seq<seq<T>>, its: seq<Iter>, calls: nat)
      returns (bufs': seq<seq<T>>, its': seq<Iter>)
    requires |streams| >= 1 && ValidStreams(streams) && LengthPreserving(f)
    requires forall k :: 0 <= k < |streams| ==> calls < streams[k].Remaining()
    requires its == Interleave(Currents(streams, calls), Ends(streams))
    requires bufs == Visited(f, streams, calls)
    ensures its' == Interleave(Currents(streams, calls + 1), Ends(streams))
    ensures bufs' == Visited(f, streams, calls + 1)
  {
    var cs := Currents(streams, calls);
    StripInOrder(cs, Ends(streams));
    var order := Strip(|its|, its);
    CurrentsInRange(streams, bufs, calls);
    ArgsAreCurrents(f, streams, calls);
    var args := Deref(bufs, order);
    var ys := f(calls, args);
    VisitedStep(f, streams, calls);
    bufs' := WriteBack(bufs, order, ys);
    IncrAdvances(cs, Ends(streams));
    AdvanceCurrents(streams, calls);
    its' := Incr(its);
  }

  /** `multi_foreach(function, first_0, last_0, ..., first_k, last_k)`. The
      static_assert that the iterators come in first/last pairs is built into
      `Stream`. Returns the containers, the final current iterators and the
      number of callbacks. */
  method MultiForeach<T(!new)>(f: (nat, seq<T>) -> seq<T>, streams: seq<Stream<T>>)
      returns (bufs: seq<seq<T>>, cur: seq<nat>, calls: nat)
    requires |streams| >= 1 && ValidStreams(streams) && LengthPreserving(f)
    ensures calls == Shortest(streams)
    ensures |cur| == |streams| && forall k :: 0 <= k < |streams| ==> cur[k] == streams[k].first + calls
    ensures exists k :: 0 <= k < |streams| && cur[k] == streams[k].last
    ensures bufs == Zipped(f, streams)
  {
    var its;
    bufs, its, calls := Rounds(f, streams);
    cur := seq(|streams|, k requires 0 <= k < |streams| => its[2 * k].pos);
    var k := SomeExhausted(streams);
    assert cur[k] == streams[k].last;
  }

  /** The loop of `multi_foreach_impl`: a round while no stream has reached
      its end. Returns the containers, the iterators and the rounds made. */
  method Rounds<T(!new)>(f: (nat, seq<T>) -> seq<T>, streams: seq<Stream<T>>)
      returns (bufs: seq<seq<T>>, its: seq<Iter>, calls: nat)
    requires |streams| >= 1 && ValidStreams(streams) && LengthPreserving(f)
    ensures forall k :: 0 <= k < |streams| ==> calls <= streams[k].Remaining()
    ensures exists k :: 0 <= k < |streams| && calls == streams[k].Remaining()
    ensures its == Interleave(Currents(streams, calls), Ends(streams))
    ensures bufs == Visited(f, streams, calls)
  {
    bufs := Buffers(streams);
    NoneVisited(f, streams);
    its := Interleave(Currents(streams, 0), Ends(streams));
    calls := 0;
    var live := Live(its);
    while live
      invariant calls <= Shortest(streams)
      invariant its == Interleave(Currents(streams, calls), Ends(streams))
      invariant bufs == Visited(f, streams, calls)
      invariant live == Live(its)
      decreases Shortest(streams) - calls
    {
      LiveRounds(streams, calls);
      bufs, its := Round(f, streams, bufs, its, calls);
      calls := calls + 1;
      live := Live(its);
    }
    LiveRounds(streams, calls);
  }

  /** A stream that the shortest length exhausts. */
  lemma SomeExhausted<T>(streams: seq<Stream<T>>) returns (k: nat)
    requires |streams| >= 1 && ValidStreams(streams)
    ensures k < |streams| && streams[k].first + Shortest(streams) == streams[k].last
  {
    k :| 0 <= k < |streams| && Shortest(streams) == streams[k].Remaining();
  }

  /** The containers the streams run over. */
  function Buffers<T>(streams: seq<Stream<T>>): (bufs: seq<seq<T>>)
    ensures |bufs| == |streams| && forall k :: 0 <= k < |streams| ==> bufs[k] == streams[k].buf
  {
    seq(|streams|, k requires 0 <= k < |streams| => streams[k].buf)
  }

  /** Before the first round every container holds what the caller passed. */
  lemma NoneVisited<T(!new)>(f: (nat, seq<T>) -> seq<T>, streams: seq<Stream<T>>)
    requires |streams| >= 1 && ValidStreams(streams) && LengthPreserving(f)
    ensures Visited(f, streams, 0) == Buffers(streams)
  {
    forall k | 0 <= k < |streams|
      ensures Buffers(streams)[k] == Visited(f, streams, 0)[k]
    {
    }
  }

  function Min(a: nat, b: nat): (m: nat)
    ensures m <= a && m <= b && (m == a || m == b)
  {
    if a <= b then a else b
  }

  /** `multi_foreach` over two whole containers: the first `min(|a|, |b|)`
      positions of `a` receive the callback's first result, the rest of `a`
      is untouched. */
  lemma ZippedPair<T(!new)>(f: (nat, seq<T>) -> seq<T>, a: seq<T>, b: seq<T>)
    requires LengthPreserving(f)
    ensures |Zipped(f, [Whole(a), Whole(b)])| == 2
    ensures |Zipped(f, [Whole(a), Whole(b)])[0]| == |a|
    ensures forall p :: 0 <= p < |a| ==>
      Zipped(f, [Whole(a), Whole(b)])[0][p] == if p < Min(|a|, |b|) then f(p, [a[p], b[p]])[0] else a[p]
  {
    var streams := [Whole(a), Whole(b)];
    assert streams[1..] == [Whole(b)];
    var m := Shortest(streams);
    assert m == Min(|a|, |b|);
    forall p | 0 <= p < |a|
      ensures Zipped(f, streams)[0][p] == if p < m then f(p, [a[p], b[p]])[0] else a[p]
    {
      VisitedAt(f, streams, m, 0, p);
      if p < m {
        assert Args(streams, p) == [a[p], b[p]];
      }
    }
  }

  // ---------------------------------------------------------------------------
  // tuple_apply / tuple_join
  // ---------------------------------------------------------------------------

  /** `tuple_apply_impl<N>`: apply `f` to element `n`, then recurse on `n - 1`;
      the element is replaced by what `f` writes through its reference. */
  function ApplyFrom<S, X>(t: seq<X>, f: (S, X) -> (S, X), s: S, n: nat): (r: (S, seq<X>))
    requires n < |t|
    ensures |r.1| == |t|
    decreases n
  {
    var (s1, x1) := f(s, t[n]);
    if n == 0 then (s1, t[0 := x1]) else ApplyFrom(t[n := x1], f, s1, n - 1)
  }

  /** `tuple_apply(tuple, f)`: visits `tuple_size - 1` down to 0. */
  function TupleApply<S, X>(t: seq<X>, f: (S, X) -> (S, X), s: S): (r: (S, seq<X>))
    requires |t| >= 1
    ensures |r.1| == |t|
  {
    ApplyFrom(t, f, s, |t| - 1)
  }

  /** Concatenation of `h` over the elements from last to first. */
  function ConcatRev<X, Y>(h: X -> seq<Y>, t: seq<X>): seq<Y> {
    if t == [] then [] else h(t[|t| - 1]) + ConcatRev(h, t[..|t| - 1])
  }

  lemma {:induction false} ApplyFromAppends<X, Y>(t: seq<X>, h: X -> seq<Y>, f: (seq<Y>, X) -> (seq<Y>, X), s: seq<Y>, n: nat)
    requires n < |t|
    requires forall acc: seq<Y>, x: X :: f(acc, x) == (acc + h(x), x)
    ensures ApplyFrom(t, f, s, n) == (s + ConcatRev(h, t[..n + 1]), t)
    decreases n
  {
    var s1 := s + h(t[n]);
    assert f(s, t[n]) == (s1, t[n]);
    assert t[n := t[n]] == t;
    assert t[..n + 1][..n] == t[..n] && t[..n + 1][n] == t[n];
    assert ConcatRev(h, t[..n + 1]) == h(t[n]) + ConcatRev(h, t[..n]);
    if n > 0 {
      assert ApplyFrom(t, f, s, n) == ApplyFrom(t, f, s1, n - 1);
      ApplyFromAppends(t, h, f, s1, n - 1);
      assert ApplyFrom(t, f, s1, n - 1).0 == s1 + ConcatRev(h, t[..n]);
      assert s1 + ConcatRev(h, t[..n]) == s + ConcatRev(h, t[..n + 1]);
    } else {
      assert t[..0] == [];
      assert ConcatRev(h, t[..0]) == [];
      assert ApplyFrom(t, f, s, 0) == (s1, t);
      assert s1 == s + ConcatRev(h, t[..1]);
    }
  }

  /** A callback that appends `h(x)` to a captured accumulator collects the
      elements from the last down to the first, each exactly once. */
  lemma TupleApplyAppends<X, Y>(t: seq<X>, h: X -> seq<Y>, f: (seq<Y>, X) -> (seq<Y>, X), s: seq<Y>)
    requires |t| >= 1
    requires forall acc: seq<Y>, x: X :: f(acc, x) == (acc + h(x), x)
    ensures TupleApply(t, f, s) == (s + ConcatRev(h, t), t)
  {
    ApplyFromAppends(t, h, f, s, |t| - 1);
    assert t[..|t|] == t;
  }

  /** Recording every visited element yields the tuple reversed. */
  lemma TupleApplyOrder<X>(t: seq<X>)
    requires |t| >= 1
    ensures TupleApply(t, Record, []).0 == Reverse(t)
  {
    TupleApplyAppends(t, Single, Record, []);
    ConcatRevSingletons(t, Single);
  }

  /** A callback that records the element it visits. */
  function Record<X>(acc: seq<X>, x: X): (seq<X>, X) {
    (acc + [x], x)
  }

  function Single<X>(x: X): seq<X> {
    [x]
  }

  function Reverse<X>(t: seq<X>): (r: seq<X>)
    ensures |r| == |t|
  {
    if t == [] then [] else [t[|t| - 1]] + Reverse(t[..|t| - 1])
  }

  lemma {:induction false} ConcatRevSingletons<X>(t: seq<X>, h: X -> seq<X>)
    requires forall x :: h(x) == [x]
    ensures ConcatRev(h, t) == Reverse(t)
  {
    if t != [] {
      ConcatRevSingletons(t[..|t| - 1], h);
    }
  }

  lemma {:induction false} ApplyFromPure<S, X>(t: seq<X>, f: (S, X) -> (S, X), g: X -> X, s: S, n: nat)
    requires n < |t|
    requires forall u: S, x: X :: f(u, x) == (u, g(x))
    ensures ApplyFrom(t, f, s, n).0 == s
    ensures forall i :: 0 <= i < |t| ==> ApplyFrom(t, f, s, n).1[i] == if i <= n then g(t[i]) else t[i]
    decreases n
  {
    if n > 0 {
      ApplyFromPure(t[n := g(t[n])], f, g, s, n - 1);
    }
  }

  /** A callback that ignores its captured state rewrites every element once. */
  lemma TupleApplyPure<S, X>(t: seq<X>, f: (S, X) -> (S, X), g: X -> X, s: S)
    requires |t| >= 1
    requires forall u: S, x: X :: f(u, x) == (u, g(x))
    ensures TupleApply(t, f, s).0 == s
    ensures forall i :: 0 <= i < |t| ==> TupleApply(t, f, s).1[i] == g(t[i])
  {
    ApplyFromPure(t, f, g, s, |t| - 1);
  }

  /** The `i`-th element of every tuple, in the order the tuples were passed. */
  function Column<X>(ts: seq<seq<X>>, i: nat): (xs: seq<X>)
    requires forall k :: 0 <= k < |ts| ==> i < |ts[k]|
    ensures |xs| == |ts|
  {
    seq(|ts|, k requires 0 <= k < |ts| => ts[k][i])
  }

  /** Writes the callback's results back into the `i`-th element of every tuple. */
  function SetColumn<X>(ts: seq<seq<X>>, i: nat, ys: seq<X>): (r: seq<seq<X>>)
    requires |ys| == |ts| && forall k :: 0 <= k < |ts| ==> i < |ts[k]|
    ensures |r| == |ts| && forall k :: 0 <= k < |ts| ==> |r[k]| == |ts[k]|
  {
    seq(|ts|, k requires 0 <= k < |ts| => ts[k][i := ys[k]])
  }

  ghost predicate JoinPreserving<S(!new), X(!new)>(f: (S, seq<X>) -> (S, seq<X>)) {
    forall s: S, xs: seq<X> :: |f(s, xs).1| == |xs|
  }

  /** Every tuple is at least as long as the first one, whose length is used. */
  predicate Joinable<X>(ts: seq<seq<X>>) {
    |ts| >= 1 && |ts[0]| >= 1 && forall k :: 0 <= k < |ts| ==> |ts[0]| <= |ts[k]|
  }

  /** `tuple_join_impl<N>`. */
  function JoinFrom<S(!new), X(!new)>(f: (S, seq<X>) -> (S, seq<X>), s: S, ts: seq<seq<X>>, n: nat): (r: (S, seq<seq<X>>))
    requires Joinable(ts) && n < |ts[0]| && JoinPreserving(f)
    ensures |r.1| == |ts| && forall k :: 0 <= k < |ts| ==> |r.1[k]| == |ts[k]|
    decreases n
  {
    var (s1, ys) := f(s, Column(ts, n));
    var ts1 := SetColumn(ts, n, ys);
    if n == 0 then (s1, ts1) else JoinFrom(f, s1, ts1, n - 1)
  }

  /** `tuple_join(f, tuples...)`: the length comes from the first tuple. */
  function TupleJoin<S(!new), X(!new)>(f: (S, seq<X>) -> (S, seq<X>), s: S, ts: seq<seq<X>>): (r: (S, seq<seq<X>>))
    requires Joinable(ts) && JoinPreserving(f)
    ensures |r.1| == |ts| && forall k :: 0 <= k < |ts| ==> |r.1[k]| == |ts[k]|
  {
    JoinFrom(f, s, ts, |ts[0]| - 1)
  }

  /** A joined callback that records the arguments it receives. */
  function RecordColumn<X>(acc: seq<seq<X>>, xs: seq<X>): (seq<seq<X>>, seq<X>) {
    (acc + [xs], xs)
  }

  /** Columns `n, n - 1, ..., 0`. */
  function ColumnsDown<X>(ts: seq<seq<X>>, n: nat): (cols: seq<seq<X>>)
    requires Joinable(ts) && n < |ts[0]|
    ensures |cols| == n + 1
    ensures forall j :: 0 <= j <= n ==> cols[j] == Column(ts, n - j)
  {
    if n == 0 then [Column(ts, 0)] else [Column(ts, n)] + ColumnsDown(ts, n - 1)
  }

  lemma {:induction false} JoinFromRecords<X(!new)>(ts: seq<seq<X>>, acc: seq<seq<X>>, n: nat)
    requires Joinable(ts) && n < |ts[0]|
    requires JoinPreserving(RecordColumn<X>)
    ensures JoinFrom(RecordColumn, acc, ts, n).0 == acc + ColumnsDown(ts, n)
    decreases n
  {
    forall k | 0 <= k < |ts| ensures SetColumn(ts, n, Column(ts, n))[k] == ts[k] { }
    assert SetColumn(ts, n, Column(ts, n)) == ts;
    if n > 0 {
      JoinFromRecords(ts, acc + [Column(ts, n)], n - 1);
    }
  }

  /** `tuple_join` calls its function with the `i`-th elements of all tuples,
      for `i` from the first tuple's last index down to 0. */
  lemma TupleJoinOrder<X(!new)>(ts: seq<seq<X>>)
    requires Joinable(ts)
    ensures JoinPreserving(RecordColumn<X>)
    ensures TupleJoin(RecordColumn, [], ts).0 == ColumnsDown(ts, |ts[0]| - 1)
  {
    RecordPreserving<X>();
    JoinFromRecords(ts, [], |ts[0]| - 1);
  }

  lemma RecordPreserving<X(!new)>()
    ensures JoinPreserving(RecordColumn<X>)
  {
  }

  lemma {:induction false} JoinFromPure<S(!new), X(!new)>(f: (S, seq<X>) -> (S, seq<X>), g: seq<X> -> seq<X>, s: S, ts: seq<seq<X>>, n: nat)
    requires Joinable(ts) && n < |ts[0]| && JoinPreserving(f)
    requires forall xs: seq<X> :: |g(xs)| == |xs|
    requires forall u: S, xs: seq<X> :: f(u, xs) == (u, g(xs))
    ensures forall k, i :: 0 <= k < |ts| && 0 <= i <= n ==> JoinFrom(f, s, ts, n).1[k][i] == g(Column(ts, i))[k]
    ensures forall k, i :: 0 <= k < |ts| && n < i < |ts[k]| ==> JoinFrom(f, s, ts, n).1[k][i] == ts[k][i]
    decreases n
  {
    var ts1 := SetColumn(ts, n, g(Column(ts, n)));
    assert f(s, Column(ts, n)) == (s, g(Column(ts, n)));
    if n > 0 {
      assert JoinFrom(f, s, ts, n) == JoinFrom(f, s, ts1, n - 1);
      JoinFromPure(f, g, s, ts1, n - 1);
      forall i | 0 <= i < n ensures Column(ts1, i) == Column(ts, i) { }
    } else {
      assert JoinFrom(f, s, ts, 0) == (s, ts1);
    }
  }

  /** A stateless joined callback rewrites each column `i < |ts[0]|` once and
      leaves the extra elements of longer tuples alone. */
  lemma TupleJoinPure<S(!new), X(!new)>(f: (S, seq<X>) -> (S, seq<X>), g: seq<X> -> seq<X>, s: S, ts: seq<seq<X>>)
    requires Joinable(ts) && JoinPreserving(f)
    requires forall xs: seq<X> :: |g(xs)| == |xs|
    requires forall u: S, xs: seq<X> :: f(u, xs) == (u, g(xs))
    ensures forall k, i :: 0 <= k < |ts| && 0 <= i < |ts[0]| ==> TupleJoin(f, s, ts).1[k][i] == g(Column(ts, i))[k]
    ensures forall k, i :: 0 <= k < |ts| && |ts[0]| <= i < |ts[k]| ==> TupleJoin(f, s, ts).1[k][i] == ts[k][i]
  {
    JoinFromPure(f, g, s, ts, |ts[0]| - 1);
  }
}
