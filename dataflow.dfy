/** Elements, pads and pad dispatch (src/traits.rs and src/pad.rs).

    The two source files import each other, so they form one module here.
    Everything the source keeps behind an `Arc` is a class, so that copies of
    a reference see the same object: a `Pad`, a muxer's fan-in queue, and the
    lock-guarded handle to an element's user logic.  The exception is
    `PadMeta`: nothing mutates one behind its `Arc` (`set_meta` swaps the
    `Arc`), so it is a value.  An `Element` is a
    datatype holding such references; copying an `Element` value is exactly
    the derived `Clone`: the output-pad fields are copied (a snapshot), the
    logic handle and the muxer queue stay shared. */
module Dataflow {
  import opened Types

  /** The concrete format tag carried by every buffer in flight. */
  datatype PadMeta =
    | Audio(container: string, format: string, rate: Range, channels: Range, layout: string)
    | Video(container: string, format: string)
    | Application(container: string)
    | Text(encoding: string)
    | Any

  /** The shared handle to an element's user logic.  The logic itself is
      outside the model; only the identity of the handle matters, and every
      call the engine makes through it is recorded in a `Trace`. */
  class Logic {
    constructor () {}
  }

  /** A muxer's fan-in queue: two parallel sequences of pending buffers and
      of the metadata they were pushed with. */
  class FanInQueue {
    var buffers: seq<Buffer>
    var metas: seq<PadMeta>

    constructor ()
      ensures buffers == [] && metas == []
    {
      buffers, metas := [], [];
    }
  }

  /** The five roles.  Source, Muxer and Transformer hold at most one output
      pad, a DeMuxer an ordered sequence of them, a Sink none.  `lanes` is
      the muxer's batch size, fixed once the element is built. */
  datatype Element =
    | Source(srcPad: Option<Pad>, src: Logic)
    | Muxer(srcPad: Option<Pad>, queue: FanInQueue, lanes: nat, muxer: Logic)
    | DeMuxer(srcPads: seq<Pad>, demuxer: Logic)
    | Transformer(srcPad: Option<Pad>, transformer: Logic)
    | Sink(src: Logic)

  /** The handle through which the element's user logic is called. */
  function Handle(e: Element): Logic {
    match e
    case Source(_, l) => l
    case Muxer(_, _, _, l) => l
    case DeMuxer(_, l) => l
    case Transformer(_, l) => l
    case Sink(l) => l
  }

  /** The element's output pads, in order. */
  function OutputPads(e: Element): (r: seq<Pad>)
    ensures !e.DeMuxer? ==> |r| <= 1
    ensures e.Sink? ==> r == []
    ensures e.DeMuxer? ==> r == e.srcPads
    ensures !e.DeMuxer? && !e.Sink? ==> (r == [] <==> e.srcPad.None?)
  {
    match e
    case DeMuxer(ps, _) => ps
    case Sink(_) => []
    case _ => if e.srcPad.Some? then [e.srcPad.value] else []
  }

  /** One call into user logic, as made by the engine. */
  datatype Call =
    | SourceStateChange(on: Logic, nextPad: Pad, state: State)
    | MuxerChain(on: Logic, nextPad: Pad, bufs: seq<Buffer>, metas: seq<PadMeta>)
    | DeMuxerChain(on: Logic, nextPads: seq<Pad>, buf: Buffer, meta: PadMeta)
    | TransformerChain(on: Logic, nextPad: Pad, buf: Buffer, meta: PadMeta)
    | SinkCall(on: Logic, buf: Buffer, meta: PadMeta)

  /** The record of every call made into user logic, oldest first. */
  class Trace {
    var calls: seq<Call>

    constructor ()
      ensures calls == []
    {
      calls := [];
    }
  }

  /** Why a push did not complete: the `unwrap` of a missing downstream, the
      `unimplemented!()` of a push into a Source, or the `unwrap` of a
      missing output pad in the downstream's snapshot. */
  datatype Cause = Unconnected | PushIntoSource | MissingOutputPad

  datatype Outcome = Delivered | Panicked(cause: Cause)

  /** The contents of a fan-in queue as values. */
  datatype Pending = Pending(buffers: seq<Buffer>, metas: seq<PadMeta>)

  predicate Parallel(p: Pending) {
    |p.buffers| == |p.metas|
  }

  /** The objects a push through a pad bound to `target` may change besides
      the trace: the fan-in queue when the target is a Muxer. */
  function QueueOf(target: Option<Element>): set<object> {
    if target.Some? && target.value.Muxer? then {target.value.queue} else {}
  }

  /** What the queue of `target` holds (nothing unless it is a Muxer). */
  function Held(target: Option<Element>): Pending
    reads QueueOf(target)
  {
    if target.Some? && target.value.Muxer?
    then Pending(target.value.queue.buffers, target.value.queue.metas)
    else Pending([], [])
  }

  /** The effect of one push: its outcome, the fan-in queue afterwards, and
      the calls it made. */
  datatype Step = Step(outcome: Outcome, pending: Pending, calls: seq<Call>)

  /** One push of `buf`, stamped with `meta`, into `target` whose fan-in
      queue holds `pending` (src/pad.rs:44-66).  A Muxer appends first and
      hands the whole batch over only when the length is exactly `lanes`;
      when its snapshot has no output pad at that moment the push fails with
      the appended entries left in the queue. */
  function Dispatch(target: Option<Element>, pending: Pending, buf: Buffer, meta: PadMeta): (r: Step)
    ensures |r.calls| <= 1
    ensures r.outcome.Panicked? ==> r.calls == []
    ensures Parallel(pending) ==> Parallel(r.pending)
  {
    match target
    case None => Step(Panicked(Unconnected), pending, [])
    case Some(e) =>
      match e
      case DeMuxer(pads, l) => Step(Delivered, pending, [DeMuxerChain(l, pads, buf, meta)])
      case Muxer(out, _, lanes, l) =>
        var grown := Pending(pending.buffers + [buf], pending.metas + [meta]);
        if |grown.buffers| != lanes then Step(Delivered, grown, [])
        else if out.None? then Step(Panicked(MissingOutputPad), grown, [])
        else Step(Delivered, Pending([], []), [MuxerChain(l, out.value, grown.buffers, grown.metas)])
      case Transformer(out, l) =>
        if out.None? then Step(Panicked(MissingOutputPad), pending, [])
        else Step(Delivered, pending, [TransformerChain(l, out.value, buf, meta)])
      case Sink(l) => Step(Delivered, pending, [SinkCall(l, buf, meta)])
      case Source(_, _) => Step(Panicked(PushIntoSource), pending, [])
  }

  /** A named output endpoint: its format tag and at most one downstream,
      held as a copy of the element it was connected to. */
  class Pad {
    const name: string
    var meta: PadMeta
    var sink: Option<Element>

    /** The pad `elem_add_pad` creates: meta `Any`, no downstream. */
    constructor (name: string)
      ensures this.name == name && meta == Any && sink == None
    {
      this.name := name;
      meta := Any;
      sink := None;
    }

    /** The name given at creation; no operation changes it. */
    function Name(): (n: string)
      ensures n == name
    {
      name
    }

    /** Delivers one buffer, stamped with the pad's current meta, to the
        bound downstream; the pad itself is left as it was. */
    method Push(buf: Buffer, trace: Trace) returns (r: Outcome)
      modifies trace, QueueOf(sink)
      ensures var step := Dispatch(sink, old(Held(sink)), buf, meta);
        && r == step.outcome
        && trace.calls == old(trace.calls) + step.calls
        && Held(sink) == step.pending
    {
      match sink
      case None =>
        r := Panicked(Unconnected);
      case Some(e) =>
        match e
        case DeMuxer(pads, l) =>
          trace.calls := trace.calls + [DeMuxerChain(l, pads, buf, meta)];
          r := Delivered;
        case Muxer(out, q, lanes, l) =>
          q.buffers := q.buffers + [buf];
          q.metas := q.metas + [meta];
          if |q.buffers| == lanes {
            if out.None? {
              r := Panicked(MissingOutputPad);
            } else {
              trace.calls := trace.calls + [MuxerChain(l, out.value, q.buffers, q.metas)];
              q.buffers := [];
              q.metas := [];
              r := Delivered;
            }
          } else {
            r := Delivered;
          }
        case Transformer(out, l) =>
          if out.None? {
            r := Panicked(MissingOutputPad);
          } else {
            trace.calls := trace.calls + [TransformerChain(l, out.value, buf, meta)];
            r := Delivered;
          }
        case Sink(l) =>
          trace.calls := trace.calls + [SinkCall(l, buf, meta)];
          r := Delivered;
        case Source(_, _) =>
          r := Panicked(PushIntoSource);
    }

    /** Replaces the meta only; the next push carries it. */
    method SetMeta(m: PadMeta)
      modifies this`meta
      ensures meta == m
    {
      meta := m;
    }
  }

  // ---------------------------------------------------------------------
  // What one push means, role by role.

  /** A push into a Sink calls `sink` exactly once, with the buffer and the
      pad's meta, and nothing else happens. */
  lemma PushIntoSinkCallsOnce(l: Logic, pending: Pending, buf: Buffer, meta: PadMeta)
    ensures Dispatch(Some(Sink(l)), pending, buf, meta) == Step(Delivered, pending, [SinkCall(l, buf, meta)])
  {
  }

  /** A Transformer's `chain` gets its own snapshot output pad; a DeMuxer's
      gets all its snapshot output pads, in order. */
  lemma ChainGetsSnapshotPads(e: Element, pending: Pending, buf: Buffer, meta: PadMeta)
    requires e.Transformer? || e.DeMuxer?
    requires e.Transformer? ==> OutputPads(e) != []
    ensures var s := Dispatch(Some(e), pending, buf, meta);
      && s.outcome == Delivered && s.pending == pending && |s.calls| == 1
      && (e.Transformer? ==> s.calls[0] == TransformerChain(Handle(e), OutputPads(e)[0], buf, meta))
      && (e.DeMuxer? ==> s.calls[0] == DeMuxerChain(Handle(e), OutputPads(e), buf, meta))
  {
  }

  /** Exactly which pushes fail; by the contract of `Dispatch` a failing
      push makes no call at all. */
  lemma PanicMakesNoCall(target: Option<Element>, pending: Pending, buf: Buffer, meta: PadMeta)
    ensures Dispatch(target, pending, buf, meta).outcome.Panicked? <==>
      || target.None?
      || target.value.Source?
      || (target.value.Transformer? && target.value.srcPad.None?)
      || (target.value.Muxer? && target.value.srcPad.None? && |pending.buffers| + 1 == target.value.lanes)
  {
  }

  // ---------------------------------------------------------------------
  // A run of pushes into one Muxer.

  /** The pushes of `bufs[i]` stamped with `metas[i]`, in order, all into
      the same `target`, starting from queue contents `pending`: the queue
      at the end and every call made, in order. */
  function Feed(target: Option<Element>, pending: Pending, bufs: seq<Buffer>, metas: seq<PadMeta>): (r: (Pending, seq<Call>))
    requires |bufs| == |metas|
    ensures |r.1| <= |bufs|
    ensures Parallel(pending) ==> Parallel(r.0)
    decreases |bufs|
  {
    if bufs == [] then (pending, [])
    else
      var s := Dispatch(target, pending, bufs[0], metas[0]);
      var rest := Feed(target, s.pending, bufs[1..], metas[1..]);
      (rest.0, s.calls + rest.1)
  }

  /** The batches a muxer with `lanes` lanes hands to its logic when the
      entries of `all` arrive in order at an empty queue: consecutive runs of
      exactly `lanes` entries, in arrival order. */
  function Batches(l: Logic, out: Pad, lanes: nat, all: Pending): (r: seq<Call>)
    requires lanes >= 1 && Parallel(all)
    ensures forall k :: 0 <= k < |r| ==>
      r[k].MuxerChain? && r[k].on == l && r[k].nextPad == out &&
      |r[k].bufs| == lanes && |r[k].metas| == lanes
    decreases |all.buffers|
  {
    if |all.buffers| < lanes then []
    else
      [MuxerChain(l, out, all.buffers[..lanes], all.metas[..lanes])]
      + Batches(l, out, lanes, Pending(all.buffers[lanes..], all.metas[lanes..]))
  }

  /** Two queue contents one after the other. */
  function Append(a: Pending, b: Pending): Pending {
    Pending(a.buffers + b.buffers, a.metas + b.metas)
  }

  /** The entries of a run of muxer batches, laid end to end. */
  function Joined(cs: seq<Call>): Pending {
    if cs == [] then Pending([], [])
    else Append(if cs[0].MuxerChain? then Pending(cs[0].bufs, cs[0].metas) else Pending([], []), Joined(cs[1..]))
  }

  /** What stays queued once the batches of `all` are handed over: fewer
      than `lanes` entries. */
  function Leftover(lanes: nat, all: Pending): (r: Pending)
    requires lanes >= 1 && Parallel(all)
    ensures Parallel(r) && |r.buffers| < lanes && |r.buffers| <= |all.buffers|
    decreases |all.buffers|
  {
    if |all.buffers| < lanes then all
    else Leftover(lanes, Pending(all.buffers[lanes..], all.metas[lanes..]))
  }

  /** Nothing is lost or reordered: the batches followed by the leftover
      are exactly the arrivals, buffers and metas alike. */
  lemma {:induction false} BatchesCoverArrivals(l: Logic, out: Pad, lanes: nat, all: Pending)
    requires lanes >= 1 && Parallel(all)
    ensures Append(Joined(Batches(l, out, lanes, all)), Leftover(lanes, all)) == all
    decreases |all.buffers|
  {
    if |all.buffers| < lanes {
      assert Append(Pending([], []), all) == all;
    } else {
      var first := Pending(all.buffers[..lanes], all.metas[..lanes]);
      var rest := Pending(all.buffers[lanes..], all.metas[lanes..]);
      var later := Batches(l, out, lanes, rest);
      BatchesCoverArrivals(l, out, lanes, rest);
      JoinedCons(MuxerChain(l, out, first.buffers, first.metas), later);
      AppendAssociative(first, Joined(later), Leftover(lanes, rest));
      SplitAt(all, lanes);
    }
  }

  lemma JoinedCons(c: Call, cs: seq<Call>)
    requires c.MuxerChain?
    ensures Joined([c] + cs) == Append(Pending(c.bufs, c.metas), Joined(cs))
  {
    assert ([c] + cs)[1..] == cs;
  }

  lemma SplitAt(all: Pending, n: nat)
    requires n <= |all.buffers| && n <= |all.metas|
    ensures Append(Pending(all.buffers[..n], all.metas[..n]), Pending(all.buffers[n..], all.metas[n..])) == all
  {
    assert all.buffers[..n] + all.buffers[n..] == all.buffers;
    assert all.metas[..n] + all.metas[n..] == all.metas;
  }

  lemma AppendAssociative(a: Pending, b: Pending, c: Pending)
    ensures Append(Append(a, b), c) == Append(a, Append(b, c))
  {
    assert (a.buffers + b.buffers) + c.buffers == a.buffers + (b.buffers + c.buffers);
    assert (a.metas + b.metas) + c.metas == a.metas + (b.metas + c.metas);
  }

  /** The whole behaviour of a Muxer with an output pad and at least one
      lane: starting from a queue holding fewer than `lanes` entries, a run
      of pushes hands over exactly the `lanes`-sized batches of everything
      that arrived (queued entries first), in order, and leaves the rest
      queued. */
  lemma {:induction false} FeedIsBatches(q: FanInQueue, lanes: nat, l: Logic, out: Pad,
                                         pending: Pending, bufs: seq<Buffer>, metas: seq<PadMeta>)
    requires lanes >= 1 && Parallel(pending) && |pending.buffers| < lanes && |bufs| == |metas|
    ensures var all := Pending(pending.buffers + bufs, pending.metas + metas);
      Feed(Some(Muxer(Some(out), q, lanes, l)), pending, bufs, metas)
        == (Leftover(lanes, all), Batches(l, out, lanes, all))
    decreases |bufs|
  {
    var target := Some(Muxer(Some(out), q, lanes, l));
    var all := Pending(pending.buffers + bufs, pending.metas + metas);
    if bufs == [] {
      assert all == pending;
    } else {
      var s := Dispatch(target, pending, bufs[0], metas[0]);
      var grown := Pending(pending.buffers + [bufs[0]], pending.metas + [metas[0]]);
      var later := Pending(bufs[1..], metas[1..]);
      assert grown.buffers + later.buffers == all.buffers;
      assert grown.metas + later.metas == all.metas;
      if |grown.buffers| == lanes {
        assert s == Step(Delivered, Pending([], []), [MuxerChain(l, out, grown.buffers, grown.metas)]);
        FeedIsBatches(q, lanes, l, out, Pending([], []), bufs[1..], metas[1..]);
        var rest := Feed(target, Pending([], []), bufs[1..], metas[1..]);
        assert Feed(target, pending, bufs, metas) == (rest.0, s.calls + rest.1);
        assert Pending([] + bufs[1..], [] + metas[1..]) == later;
        assert all.buffers[..lanes] == grown.buffers && all.metas[..lanes] == grown.metas;
        assert Pending(all.buffers[lanes..], all.metas[lanes..]) == later;
      } else {
        assert s == Step(Delivered, grown, []);
        FeedIsBatches(q, lanes, l, out, grown, bufs[1..], metas[1..]);
        var rest := Feed(target, grown, bufs[1..], metas[1..]);
        assert Feed(target, pending, bufs, metas) == (rest.0, [] + rest.1);
        assert Pending(grown.buffers + later.buffers, grown.metas + later.metas) == all;
        assert rest == (Leftover(lanes, all), Batches(l, out, lanes, all));
        assert [] + rest.1 == rest.1;
      }
    }
  }

  /** Pushing exactly `lanes` buffers into an empty queue calls `chain` once
      with the whole batch in push order and empties the queue; pushing one
      fewer calls nothing and leaves all of them queued. */
  lemma {:induction false} OneFullBatch(q: FanInQueue, lanes: nat, l: Logic, out: Pad,
                                        bufs: seq<Buffer>, metas: seq<PadMeta>)
    requires lanes >= 1 && |bufs| == |metas| == lanes
    ensures Feed(Some(Muxer(Some(out), q, lanes, l)), Pending([], []), bufs, metas)
      == (Pending([], []), [MuxerChain(l, out, bufs, metas)])
    ensures Feed(Some(Muxer(Some(out), q, lanes, l)), Pending([], []), bufs[..lanes - 1], metas[..lanes - 1])
      == (Pending(bufs[..lanes - 1], metas[..lanes - 1]), [])
  {
    FeedIsBatches(q, lanes, l, out, Pending([], []), bufs, metas);
    var all := Pending([] + bufs, [] + metas);
    assert all == Pending(bufs, metas);
    assert all.buffers[..lanes] == bufs && all.metas[..lanes] == metas;
    var none := Pending(all.buffers[lanes..], all.metas[lanes..]);
    assert none == Pending([], []);
    assert Batches(l, out, lanes, none) == [];
    assert Leftover(lanes, none) == none;
    assert Batches(l, out, lanes, all) == [MuxerChain(l, out, bufs, metas)] + Batches(l, out, lanes, none);
    assert Leftover(lanes, all) == Leftover(lanes, none);
    assert [MuxerChain(l, out, bufs, metas)] + [] == [MuxerChain(l, out, bufs, metas)];
    assert Feed(Some(Muxer(Some(out), q, lanes, l)), Pending([], []), bufs, metas)
      == (Pending([], []), [MuxerChain(l, out, bufs, metas)]);
    FeedIsBatches(q, lanes, l, out, Pending([], []), bufs[..lanes - 1], metas[..lanes - 1]);
    assert Pending([] + bufs[..lanes - 1], [] + metas[..lanes - 1]) == Pending(bufs[..lanes - 1], metas[..lanes - 1]);
  }

  /** With at least one lane and a queue below `lanes`, the queue stays below
      `lanes` after any run of pushes, and its sequences stay parallel. */
  lemma {:induction false} FeedStaysBelowLanes(q: FanInQueue, lanes: nat, l: Logic, out: Pad,
                                               pending: Pending, bufs: seq<Buffer>, metas: seq<PadMeta>)
    requires lanes >= 1 && Parallel(pending) && |pending.buffers| < lanes && |bufs| == |metas|
    ensures var r := Feed(Some(Muxer(Some(out), q, lanes, l)), pending, bufs, metas).0;
      Parallel(r) && |r.buffers| < lanes
  {
    FeedIsBatches(q, lanes, l, out, pending, bufs, metas);
  }

  /** A queue already holding `lanes` entries or more never reaches the
      batch size again: every later push is only queued, whatever output pad
      the pushing pad's snapshot holds. */
  lemma {:induction false} OverfullQueueNeverFires(q: FanInQueue, out: Option<Pad>, lanes: nat, l: Logic,
                                                   pending: Pending, bufs: seq<Buffer>, metas: seq<PadMeta>)
    requires |bufs| == |metas| && |pending.buffers| >= lanes
    ensures Feed(Some(Muxer(out, q, lanes, l)), pending, bufs, metas)
      == (Pending(pending.buffers + bufs, pending.metas + metas), [])
    decreases |bufs|
  {
    var target := Some(Muxer(out, q, lanes, l));
    if bufs == [] {
      assert pending.buffers + bufs == pending.buffers && pending.metas + metas == pending.metas;
    } else {
      var grown := Pending(pending.buffers + [bufs[0]], pending.metas + [metas[0]]);
      assert |grown.buffers| > lanes;
      assert Dispatch(target, pending, bufs[0], metas[0]) == Step(Delivered, grown, []);
      OverfullQueueNeverFires(q, out, lanes, l, grown, bufs[1..], metas[1..]);
      var rest := Feed(target, grown, bufs[1..], metas[1..]);
      assert Feed(target, pending, bufs, metas) == (rest.0, [] + rest.1);
      assert [bufs[0]] + bufs[1..] == bufs && [metas[0]] + metas[1..] == metas;
      assert grown.buffers + bufs[1..] == pending.buffers + bufs;
      assert grown.metas + metas[1..] == pending.metas + metas;
      assert rest == (Pending(pending.buffers + bufs, pending.metas + metas), []);
    }
  }

  /** A Muxer with zero lanes never hands over a batch: every push is only
      queued. */
  lemma {:induction false} ZeroLanesNeverFire(q: FanInQueue, out: Option<Pad>, l: Logic,
                                              pending: Pending, bufs: seq<Buffer>, metas: seq<PadMeta>)
    requires |bufs| == |metas|
    ensures Feed(Some(Muxer(out, q, 0, l)), pending, bufs, metas)
      == (Pending(pending.buffers + bufs, pending.metas + metas), [])
  {
    OverfullQueueNeverFires(q, out, 0, l, pending, bufs, metas);
  }

  /** A push that reaches the batch size through a snapshot without output
      pad fails and leaves the full batch queued; from then on no push into
      that queue, through any snapshot of the Muxer, ever hands a batch over. */
  lemma StuckAfterMissingPad(q: FanInQueue, lanes: nat, l: Logic, pending: Pending, buf: Buffer, meta: PadMeta,
                             later: Option<Pad>, bufs: seq<Buffer>, metas: seq<PadMeta>)
    requires |pending.buffers| + 1 == lanes && |bufs| == |metas|
    ensures var s := Dispatch(Some(Muxer(None, q, lanes, l)), pending, buf, meta);
      && s.outcome == Panicked(MissingOutputPad)
      && |s.pending.buffers| == lanes
      && Feed(Some(Muxer(later, q, lanes, l)), s.pending, bufs, metas).1 == []
  {
    var s := Dispatch(Some(Muxer(None, q, lanes, l)), pending, buf, meta);
    assert s == Step(Panicked(MissingOutputPad), Pending(pending.buffers + [buf], pending.metas + [meta]), []);
    OverfullQueueNeverFires(q, later, lanes, l, s.pending, bufs, metas);
  }
}
