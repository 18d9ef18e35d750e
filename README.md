# rstreamer core in Dafny

A model of the runtime core of rstreamer, a small push-based dataflow
engine. The model covers four pieces:

- **The graph builder.** `Pipline` keeps a dense table of pads and a dense
  table of elements; identifiers are table indices.
- **Pad dispatch.** `Pad::push` routes one buffer by the role of the
  element the pad is bound to. Its Muxer branch is a fan-in state machine
  that hands its logic batches of exactly `lanes` buffers.
- **The five element roles and their sharing rule.** Source, Muxer,
  DeMuxer, Transformer and Sink are an enum whose derived `Clone` copies the
  output-pad fields and shares the logic handle and the muxer queue.
- **The application plugins.** `AppSrc` is a byte counter with an advisory
  high-water callback in front of a FIFO channel. `AppSink` forwards every
  buffer to a registered callback.

Modules follow the source files:

| module | file | source |
|---|---|---|
| `Types` | types.dfy | src/lib.rs: `State`, the capability records, `Capability::Any` |
| `Dataflow` | dataflow.dfy | src/traits.rs and src/pad.rs |
| `PipelineGraph` | pipeline.dfy | src/pipeline.rs |
| `AppSrcPlugin` | appsrc.dfy | src/plugins/appsrc.rs |
| `AppSinkPlugin` | appsink.dfy | src/plugins/appsink.rs |
| `Scenarios` | scenarios.dfy | `test_basic` (src/lib.rs) and small runs of the builder and the pads |

src/traits.rs and src/pad.rs import each other, and Dafny modules cannot
form a cycle, so both live in `Dataflow`.

How the Rust maps onto Dafny:

- **Shared objects.** Everything the source keeps behind an `Arc` is a
  Dafny class, so every copy of a reference sees the same object. These are
  `Pad`, the muxer's `FanInQueue`, the user-logic handle `Logic`, the
  AppSrc channel and counters, and the AppSink callback. The exception is
  `PadMeta` (a pad's `meta` and the metas in a muxer queue): nothing
  mutates one behind its `Arc`, since `set_meta` swaps the `Arc`, so it is
  a datatype value.
- **Elements.** `Element` is a datatype holding those references.
  Copying an `Element` value is the derived `Clone`. `connect` therefore
  stores a snapshot of the target's output pads, while the logic handle
  and the queue stay shared.
- **User logic.** The logic behind the traits is unknown code. Every call
  the engine makes into it (`on_state_change`, `chain`, `sink`) is appended
  to a `Trace` as a `Call` value.
- **Pushes.** `Dispatch` is the pure specification of one push. The
  imperative `Pad.Push` is proved against it. `Feed`, `Batches` and
  `Leftover` describe a whole run of pushes into one Muxer.
- **Panics.** A panic inside `push` (an `unwrap` or `unimplemented!()`)
  is an explicit `Panicked(cause)` outcome. A panic on a bad index into
  the pipeline tables is instead a precondition of the method.

## Model

| member | source | states |
|---|---|---|
| Types.Capability.Any | src/lib.rs:46-53 | the result is the wildcard (no audio, video or application entries, presence `Always`), and it is the only descriptor that is |
| Dataflow.OutputPads | src/traits.rs:47-85 | Source, Transformer and Muxer hold at most one output pad, which is absent exactly when `srcPad` is `None`; a DeMuxer's are its `srcPads` in order; a Sink has none |
| Dataflow.Dispatch | src/pad.rs:44-66 | the reference definition of one push, branch by branch; its contract: at most one call, no call when the push fails, and the queue sequences stay parallel |
| Dataflow.Pad.constructor | src/pipeline.rs:55-59 | a new pad has the given name, meta `Any` and no downstream |
| Dataflow.Pad.Name | src/pad.rs:40-42 | returns the name given at creation |
| Dataflow.Pad.Push | src/pad.rs:44-67 | outcome, calls made and the muxer queue afterwards are those of `Dispatch` on the pad's downstream snapshot, its queue before the push and its current meta; nothing else changes |
| Dataflow.Pad.SetMeta | src/pad.rs:70-72 | replaces only the meta field; the name and downstream are untouched |
| Dataflow.PushIntoSinkCallsOnce | src/pad.rs:62-64 | a push into a Sink calls `sink` exactly once, with the buffer and the meta, and leaves the queue alone |
| Dataflow.ChainGetsSnapshotPads | src/pad.rs:46-61 | a Transformer with an output pad has its `chain` called with that snapshot pad; a DeMuxer, even one without pads, has its `chain` called with all its snapshot pads in order; exactly one call and no queue change |
| Dataflow.PanicMakesNoCall | src/pad.rs:44-67 | a push fails exactly when the pad is unconnected, the target is a Source, a Transformer lacks its output pad, or a Muxer reaches `lanes` without one (that a failing push calls nothing is `Dispatch`'s own contract) |
| Dataflow.Feed | src/pad.rs:44-66 | the reference definition of a run of pushes into one target, in order; its contract: at most one call per push, and the queue sequences stay parallel |
| Dataflow.Batches | src/pad.rs:53-54 | every batch is a `chain` on the muxer's logic and output pad with exactly `lanes` buffers and `lanes` metas |
| Dataflow.Leftover | src/pad.rs:53-57 | what stays queued is parallel and holds fewer than `lanes` entries |
| Dataflow.BatchesCoverArrivals | src/pad.rs:50-57 | the batches followed by the leftover are exactly the arrivals in order, buffers and metas alike: nothing lost, duplicated or reordered |
| Dataflow.FeedIsBatches | src/pad.rs:49-58 | any run of pushes into a Muxer with output pad and `lanes >= 1`, starting below `lanes`, makes exactly the `lanes`-sized batches of everything queued or pushed and leaves the rest queued |
| Dataflow.OneFullBatch | src/pad.rs:53-57 | `lanes` pushes into an empty queue call `chain` once with the whole batch and empty the queue; `lanes - 1` pushes call nothing and stay queued |
| Dataflow.FeedStaysBelowLanes | src/pad.rs:53-57 | with `lanes >= 1` and a queue below `lanes`, the queue stays below `lanes` and parallel after any run of pushes |
| Dataflow.OverfullQueueNeverFires | src/pad.rs:53 | a queue holding `lanes` or more entries never fires again; every later push is only appended |
| Dataflow.ZeroLanesNeverFire | src/pad.rs:53 | a Muxer with zero lanes never hands over a batch |
| Dataflow.StuckAfterMissingPad | src/pad.rs:50-54 | reaching `lanes` through a snapshot without output pad fails, leaves a full queue, and no later push through any snapshot of that Muxer fires |
| PipelineGraph.WithPad | src/pipeline.rs:64-78 | binding a pad replaces the single output pad of Source, Transformer and Muxer, appends to a DeMuxer's pads, leaves a Sink alone, and keeps the role, logic handle, queue and `lanes` |
| PipelineGraph.Notifications | src/pipeline.rs:143-153 | the reference definition of the calls `set_state` makes, in table order; its contract: no more calls than elements |
| PipelineGraph.Notified | src/pipeline.rs:144-151 | the calls one element gets: at most one, and one exactly when it is a Source with an output pad |
| PipelineGraph.NotificationCount | src/pipeline.rs:143-153 | `set_state` makes exactly as many calls as the table has Sources with an output pad: one each and no more |
| PipelineGraph.NotificationsAppend | src/pipeline.rs:143-153 | the broadcast over two element lists laid end to end is the two broadcasts laid end to end |
| PipelineGraph.NotificationOfSource | src/pipeline.rs:143-150 | a Source with an output pad gets `on_state_change(pad, state)` at the position right after the calls for the elements before it |
| PipelineGraph.NotificationOrder | src/pipeline.rs:143-150 | an earlier Source is notified strictly before a later one |
| PipelineGraph.OnlySourcesNotified | src/pipeline.rs:143-153 | every call `set_state` makes is `on_state_change` with the given state, on a Source of the table with that output pad |
| PipelineGraph.SilentWithoutSources | src/pipeline.rs:143-153 | `set_state` makes no call exactly when no Source in the table has an output pad |
| PipelineGraph.DeMuxerGuardInverted | src/pipeline.rs:117 | the written guard passes exactly the indices strictly past the end, and rejects every index that names a pad |
| PipelineGraph.Pipeline.constructor | src/pipeline.rs:22-27 | both tables start empty |
| PipelineGraph.Pipeline.AddElem | src/pipeline.rs:29-32 | appends exactly the given element and returns the old element count; the pad table is unchanged |
| PipelineGraph.Pipeline.AddSrc | src/pipeline.rs:34-40 | appends one Source without output pad around a fresh logic handle and returns the old element count; earlier elements and the pad table are unchanged |
| PipelineGraph.Pipeline.AddSink | src/pipeline.rs:42-47 | appends one Sink around a fresh logic handle and returns the old element count; earlier elements and the pad table are unchanged |
| PipelineGraph.Pipeline.ElemAddPad | src/pipeline.rs:52-81 | always appends one fresh pad (given name, meta `Any`, no downstream), then rebinds only the chosen element as `WithPad` says; `None` for a Sink, else `Some` of the new pad count minus one |
| PipelineGraph.Pipeline.PadPosition | src/pipeline.rs:88-93 | the identity search gives the first table position holding that very pad, and `None` exactly when the pad is not in the table; as long as every table entry is a distinct pad, that position is the only one holding it |
| PipelineGraph.Pipeline.ElemGetPad | src/pipeline.rs:83-134 | Source, Transformer and Muxer ignore `index` and give the first position of their current output pad (`None` without one); a Sink gives `None`; a DeMuxer gives `None` for every index the written guard refuses |
| PipelineGraph.Pipeline.ElemGetPadIntended | src/pipeline.rs:116-126 | with the guard corrected, a DeMuxer gives the first position of its `index`-th pad, and `None` for an index past its pads |
| PipelineGraph.Pipeline.Connect | src/pipeline.rs:137-140 | the pad's downstream becomes a copy of the element as it is now, replacing any earlier binding, with the meta kept; only that pad changes |
| PipelineGraph.Pipeline.SetState | src/pipeline.rs:142-154 | the calls appended are exactly `Notifications`: one `on_state_change` per Source with an output pad, in registration order |
| AppSrcPlugin.AppSrc.constructor | src/plugins/appsrc.rs:33-45 | empty channel, counter 0, mark 200000, no callback |
| AppSrcPlugin.AppSrc.Clone | src/plugins/appsrc.rs:14-24 | the clone shares the channel and both counters and copies the callback option |
| AppSrcPlugin.AppSrc.RegisterCallback | src/plugins/appsrc.rs:47-49 | replaces any previous callback |
| AppSrcPlugin.AppSrc.PushBuffer | src/plugins/appsrc.rs:51-60 | the counter grows by the buffer length; the buffer is always enqueued at the tail; the mark is unchanged; `on_enough_data` fires exactly when a callback exists and the new count is strictly above the mark |
| AppSrcPlugin.AppSrc.SrcCapability | src/plugins/appsrc.rs:64-66 | the wildcard |
| AppSrcPlugin.AppSrc.OnStateChangeStep | src/plugins/appsrc.rs:68-74 | one loop iteration, whatever the state: with a buffer queued, the oldest one is dequeued and pushed into the pad, with the effect `Dispatch` gives; with none queued nothing changes |
| AppSinkPlugin.AppSink.constructor | src/plugins/appsink.rs:18-22 | no callback |
| AppSinkPlugin.AppSink.Clone | src/plugins/appsink.rs:12-15 | the clone shares the current callback |
| AppSinkPlugin.AppSink.RegisterCallback | src/plugins/appsink.rs:24-26 | replaces the callback |
| AppSinkPlugin.AppSink.SinkCapability | src/plugins/appsink.rs:31-33 | the wildcard |
| AppSinkPlugin.AppSink.Sink | src/plugins/appsink.rs:35-39 | with a callback it receives exactly one more delivery, the same buffer and meta; without one nothing changes |
| AppSinkPlugin.AppSink.OnStateChange | src/plugins/appsink.rs:41-43 | changes nothing |
| Scenarios.HelloWorld | src/lib.rs:108-109 | the eleven bytes of "hello world" |
| Scenarios.BuildBasic | src/lib.rs:97-110 | the `test_basic` graph before the run: adding the source pad succeeds, the pad is bound to the Sink with meta `Any`, and "hello world" waits in the channel |
| Scenarios.TestBasic | src/lib.rs:81-114 | adding the source pad succeeds; setting Playing makes exactly one call, `on_state_change` with `Playing`; the source's first feed step gives the sink callback exactly the "hello world" buffer with meta `Any` |
| Scenarios.SnapshotScenario | src/pipeline.rs:137-140 | a Transformer connected before it had an output pad keeps failing with a missing pad, although the table's element gained one |
| Scenarios.BuildMuxerFeed | src/pipeline.rs:52-81 | a two-lane Muxer given its output pad before a source pad is connected to it: the snapshot holds the output pad and the queue is empty |
| Scenarios.MetaChangeScenario | src/pad.rs:70-72 | a buffer queued before `set_meta` keeps the old meta in the batch, the next one carries the new meta, and the queue is emptied |
| Scenarios.OrphanScenario | src/pipeline.rs:52-81 | a second pad on a Source replaces the first in the table's element, the first staying in the pad table; a pad added to a Sink still grows the table |
| Scenarios.StalePadScenario | src/pipeline.rs:137-140 | after a Transformer connected with pad A gets a second pad B, `elem_get_pad` reports B, while a push through the earlier connection hands A to `chain` |
| Scenarios.DeMuxerLookupScenario | src/pipeline.rs:116-127 | for a DeMuxer with one pad, index 0 gives `None` as written and that pad's position once corrected |

## Left out

- Capability negotiation, and the named errors `AlreadyBound`,
  `NoOutputSupported`, `NotFound`, `NoCompatibleFormat` and `InvalidPush`:
  the code has no negotiation and signals failure only through `Option`
  results and panics, so the model does the same.
  - A second pad on a single-output role is not refused. It silently
    replaces the first in the table's element, and the first pad stays in
    the pad table (`OrphanScenario`). This contradicts the doc comment at
    src/pipeline.rs:49-51; the model follows the code.
  - The replaced pad is no longer held by the element in the table, but any
    snapshot an earlier `connect` stored still holds it, and pushes through
    that snapshot still hand it to `chain`, while `elem_get_pad` reports
    the new pad (`StalePadScenario`).
  - A push into a Source or through an unconnected pad panics; the model
    gives `Panicked`.
- Locking, threads, the `unsafe impl Send/Sync` and the `borrow_mut`
  pointer cast: the model runs one operation at a time and treats pad
  fields as ordinary state.
- Identifier width: `ElemId` and `PadId` hold `u32` values cast from
  `usize`, and `bytes_queued` is a `u64`. The model uses unbounded naturals,
  so a table above 2^32 entries and counter overflow are not modelled.
  The `len() as u32 - 1` arithmetic is never negative on the paths
  modelled, because each one follows a push.
- AppSrcPlugin.AppSrc.OnStateChangeStep: models one iteration of the
  endless feed loop. A blocking receive on an empty channel becomes a step
  that reports `None` and changes nothing.
- PipelineGraph.Pipeline.SetState: records each `on_state_change` call and
  moves on. In the source the call to an `AppSrc` never returns, so later
  Sources would not be reached; which logic runs behind a handle is
  unknown code.
- The user logic behind the traits, including anything `chain` pushes
  further: its calls are recorded in a `Trace`. `add_src` and `add_sink`
  wrap their argument in a fresh handle; the model allocates a fresh
  `Logic` and `Scenarios` performs each recorded call on the plugin object
  the handle stands for. The traits' `set_property` and
  `sink_capability`/`src_capability` of unknown elements are not modelled.
- The `f64` `version` of `VideoCapability`, the unused `StreamType`,
  `AppSrcCallback::on_need_data`/`on_seek_data` (never called), the
  printing and UTF-8 decoding in `test_basic`, and the `bytes::BytesMut`
  internals (buffers are `seq<bv8>`).
- src/plugins/mod.rs holds only re-exports and is not part of this model.
- Element roles and lifecycle states are Dafny datatypes with exactly the
  source's five and four constructors, so no lemma states that separately.

## Findings

| source | as written | input that shows it | evidently intended | confidence | as-written member | corrected member |
|---|---|---|---|---|---|---|
| src/pipeline.rs:117 | `elem_get_pad` on a DeMuxer looks the pad up only when `srcPads.len() < index`, then indexes `srcPads[index]`; every valid index gives `None` and every index it lets through is out of bounds | a DeMuxer with one output pad and `index` 0 gives `None`; `index` 2 panics | look the pad up when `index < srcPads.len()` | not executed | PipelineGraph.Pipeline.ElemGetPad | PipelineGraph.Pipeline.ElemGetPadIntended |

The as-written member's precondition excludes the indices whose lookup
would panic. `DeMuxerGuardInverted` proves that the guard passes only those
indices, and `DeMuxerLookupScenario` exhibits index 0 on a one-pad DeMuxer.
