/** Whole-graph runs: the repository's `test_basic` (src/lib.rs) and small
    runs that pin down how the builder and the pads behave together.  Where
    the engine calls into user logic, the run takes the logged call and
    performs it on the plugin that the handle stands for, as the trait
    object's dispatch would. */
module Scenarios {
  import opened Types
  import opened Dataflow
  import opened PipelineGraph
  import opened AppSrcPlugin
  import opened AppSinkPlugin

  /** The bytes of "hello world". */
  function HelloWorld(): (b: Buffer)
    ensures |b| == 11
  {
    [0x68, 0x65, 0x6c, 0x6c, 0x6f, 0x20, 0x77, 0x6f, 0x72, 0x6c, 0x64]
  }

  /** The graph `test_basic` builds before it starts the run: the
      source's pad is connected to the sink, the printing callback is
      registered and "hello world" waits in the source's channel. */
  method BuildBasic() returns (pipeline: Pipeline, srcClone: AppSrc, sinkClone: AppSink,
                               printer: SinkCallback, pad: Pad, padAdded: bool)
    ensures padAdded
    ensures |pipeline.elems| == 2 && pipeline.elems[0].Source? && pipeline.elems[0].srcPad == Some(pad)
    ensures pipeline.elems[1].Sink?
    ensures pad.sink == Some(pipeline.elems[1]) && pad.meta == Any
    ensures srcClone.channel.items == [HelloWorld()]
    ensures sinkClone.callback == Some(printer) && printer.received == []
    ensures fresh(srcClone.channel) && fresh(printer)
  {
    pipeline := new Pipeline();
    var sink := new AppSink();
    var src := new AppSrc();
    printer := new SinkCallback();
    sink.RegisterCallback(printer);

    // add_src(src.clone()): the new handle stands for `srcClone`
    srcClone := src.Clone();
    var srcE := pipeline.AddSrc();
    var pid := pipeline.ElemAddPad(srcE, "src");
    padAdded := pid.Some?;
    // add_sink(sink.clone()): the new handle stands for `sinkClone`
    sinkClone := sink.Clone();
    var sinkE := pipeline.AddSink();
    pipeline.Connect(pid.value, sinkE);
    pad := pipeline.pads[pid.value];

    var _ := src.PushBuffer(HelloWorld());
  }

  /** `test_basic`: an application source connected straight to an
      application sink.  Adding the source's pad succeeds, and once the
      graph is set to Playing the source alone is notified, once, and the
      first delivery gives the sink's callback exactly the one "hello world"
      buffer, with the pad's meta `Any`. */
  method TestBasic() returns (padAdded: bool, notified: seq<Call>, delivered: seq<Delivery>)
    ensures padAdded
    ensures |notified| == 1 && notified[0].SourceStateChange? && notified[0].state == Playing
    ensures delivered == [Delivery(HelloWorld(), Any)]
  {
    var pipeline, srcClone, sinkClone, printer, pad;
    pipeline, srcClone, sinkClone, printer, pad, padAdded := BuildBasic();

    var trace := new Trace();
    pipeline.SetState(Playing, trace);
    var elems := pipeline.elems;
    assert elems == [elems[0]] + [elems[1]];
    NotificationsAppend([elems[0]], [elems[1]], Playing);
    NotificationsSingle(elems[0], Playing);
    NotificationsSingle(elems[1], Playing);
    assert trace.calls == [SourceStateChange(elems[0].src, pad, Playing)];
    notified := trace.calls;

    // the source's logic reacts: one step of its feed loop
    var call := trace.calls[0];
    var fed := srcClone.OnStateChangeStep(call.nextPad, call.state, trace);
    assert fed == Some(Delivered);
    assert trace.calls[1] == SinkCall(elems[1].src, HelloWorld(), Any);

    // the sink's logic receives the buffer
    var delivery := trace.calls[1];
    sinkClone.Sink(delivery.buf, delivery.meta);
    delivered := printer.received;
  }

  /** `connect` stores a snapshot: a Transformer connected before it had an
      output pad keeps failing pushes through that pad, although the element
      in the table has an output pad by then. */
  method SnapshotScenario() returns (r: Outcome, targetHasPad: bool)
    ensures targetHasPad
    ensures r == Panicked(MissingOutputPad)
  {
    var pipeline := new Pipeline();
    var srcE := pipeline.AddSrc();
    var logic := new Logic();
    var transformerE := pipeline.AddElem(Transformer(None, logic));
    var pid := pipeline.ElemAddPad(srcE, "src");
    pipeline.Connect(pid.value, transformerE);
    var pad := pipeline.pads[pid.value];
    var _ := pipeline.ElemAddPad(transformerE, "src");
    targetHasPad := pipeline.elems[transformerE].srcPad.Some?;
    var trace := new Trace();
    r := pad.Push([0x00], trace);
  }

  /** `set_meta` acts from the next push on: with two lanes, a buffer
      queued before the change keeps the old meta in the muxer's batch, the
      one pushed after carries the new meta, and the queue is emptied. */
  method MetaChangeScenario() returns (calls: seq<Call>, queued: nat)
    ensures |calls| == 1 && calls[0].MuxerChain?
    ensures calls[0].bufs == [[0x01], [0x02]]
    ensures calls[0].metas == [Any, Text("utf-8")]
    ensures queued == 0
  {
    var pad, queue, logic, out := BuildMuxerFeed();
    var trace := new Trace();
    var first := pad.Push([0x01], trace);
    assert queue.buffers == [[0x01]] && queue.metas == [Any] && trace.calls == [];
    pad.SetMeta(Text("utf-8"));
    var second := pad.Push([0x02], trace);
    assert [[0x01]] + [[0x02 as Byte]] == [[0x01], [0x02]];
    assert [Any] + [Text("utf-8")] == [Any, Text("utf-8")];
    assert trace.calls == [MuxerChain(logic, out, [[0x01], [0x02]], [Any, Text("utf-8")])];
    calls := trace.calls;
    queued := |queue.buffers|;
  }

  /** A two-lane muxer that already has its output pad, and a source pad
      connected to it afterwards, so the snapshot carries the output pad. */
  method BuildMuxerFeed() returns (pad: Pad, queue: FanInQueue, logic: Logic, out: Pad)
    ensures pad.sink == Some(Muxer(Some(out), queue, 2, logic)) && pad.meta == Any
    ensures queue.buffers == [] && queue.metas == []
    ensures fresh(queue)
  {
    var pipeline := new Pipeline();
    queue := new FanInQueue();
    logic := new Logic();
    var muxE := pipeline.AddElem(Muxer(None, queue, 2, logic));
    var _ := pipeline.ElemAddPad(muxE, "src");
    var srcE := pipeline.AddSrc();
    var pid := pipeline.ElemAddPad(srcE, "src");
    out := pipeline.elems[muxE].srcPad.value;
    pipeline.Connect(pid.value, muxE);
    pad := pipeline.pads[pid.value];
  }

  /** A second `elem_add_pad` on a Source replaces its output pad in the
      table's element and leaves the first one in the pad table; one on a
      Sink adds a pad to the table and returns `None`. */
  method OrphanScenario() returns (first: Option<nat>, second: Option<nat>, current: Option<nat>,
                                   firstStillBound: bool, onSink: Option<nat>, tableSize: nat)
    ensures first == Some(0) && second == Some(1) && current == Some(1)
    ensures !firstStillBound
    ensures onSink == None && tableSize == 3
  {
    var pipeline := new Pipeline();
    var srcE := pipeline.AddSrc();
    first := pipeline.ElemAddPad(srcE, "a");
    second := pipeline.ElemAddPad(srcE, "b");
    current := pipeline.ElemGetPad(srcE, 0);
    firstStillBound := pipeline.elems[srcE].srcPad == Some(pipeline.pads[0]);
    var sinkE := pipeline.AddSink();
    onSink := pipeline.ElemAddPad(sinkE, "c");
    tableSize := |pipeline.pads|;
  }

  /** A replaced output pad lives on in earlier snapshots: a Transformer
      with pad 0 is connected from pad 1, then given pad 2.  The table
      reports pad 2 as its output, but a push through pad 1 still hands
      pad 0 to `chain`. */
  method StalePadScenario() returns (current: Option<nat>, stale: bool)
    ensures current == Some(2)
    ensures stale
  {
    var pipeline := new Pipeline();
    var logic := new Logic();
    var tE := pipeline.AddElem(Transformer(None, logic));
    var _ := pipeline.ElemAddPad(tE, "a");
    var sE := pipeline.AddSrc();
    var x := pipeline.ElemAddPad(sE, "x");
    pipeline.Connect(x.value, tE);
    var _ := pipeline.ElemAddPad(tE, "b");
    current := pipeline.ElemGetPad(tE, 0);
    var pad := pipeline.pads[1];
    assert pad.sink == Some(Transformer(Some(pipeline.pads[0]), logic));
    var trace := new Trace();
    var _ := pad.Push([0x01], trace);
    stale := trace.calls == [TransformerChain(logic, pipeline.pads[0], [0x01], Any)];
  }

  /** The inverted DeMuxer guard: for a DeMuxer with one pad, asking for
      pad 0 gives `None` as written, and that pad's index once the guard is
      corrected. */
  method DeMuxerLookupScenario() returns (asWritten: Option<nat>, intended: Option<nat>)
    ensures asWritten == None
    ensures intended == Some(0)
  {
    var pipeline := new Pipeline();
    var logic := new Logic();
    var demuxE := pipeline.AddElem(DeMuxer([], logic));
    var _ := pipeline.ElemAddPad(demuxE, "a");
    asWritten := pipeline.ElemGetPad(demuxE, 0);
    intended := pipeline.ElemGetPadIntended(demuxE, 0);
  }
}
