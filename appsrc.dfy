/** The application-fed source (src/plugins/appsrc.rs): a FIFO channel the
    application pushes buffers into, a byte counter with an advisory
    high-water mark, and a feed step that forwards the oldest buffer. */
module AppSrcPlugin {
  import opened Types
  import opened Dataflow

  /** The unbounded channel between the application and the feed loop. */
  class Channel {
    var items: seq<Buffer>

    constructor ()
      ensures items == []
    {
      items := [];
    }
  }

  /** A lock-guarded `u64` shared between clones. */
  class Counter {
    var value: nat

    constructor (v: nat)
      ensures value == v
    {
      value := v;
    }
  }

  /** An application callback; it is only ever told `on_enough_data`. */
  class AppSrcCallback {
    constructor () {}
  }

  const DEFAULT_MAX_BYTES: nat := 200000

  class AppSrc {
    /** Shared with every clone: the channel's two ends and both counters. */
    const channel: Channel
    const bytesQueued: Counter
    const maxBytes: Counter
    /** Copied by value when the source is cloned. */
    var callback: Option<AppSrcCallback>

    ghost predicate Valid()
      reads this
    {
      bytesQueued != maxBytes
    }

    /** `AppSrc::new`: empty channel, nothing counted, a 200000-byte mark and
        no callback. */
    constructor ()
      ensures Valid()
      ensures fresh(channel) && fresh(bytesQueued) && fresh(maxBytes)
      ensures channel.items == [] && bytesQueued.value == 0 && maxBytes.value == DEFAULT_MAX_BYTES
      ensures callback == None
    {
      channel := new Channel();
      bytesQueued := new Counter(0);
      maxBytes := new Counter(DEFAULT_MAX_BYTES);
      callback := None;
    }

    /** The derived `Clone`: a new value sharing the channel and the
        counters, with a copy of the callback option. */
    method Clone() returns (c: AppSrc)
      requires Valid()
      ensures fresh(c) && c.Valid()
      ensures c.channel == channel && c.bytesQueued == bytesQueued && c.maxBytes == maxBytes
      ensures c.callback == callback
    {
      c := new AppSrc.Sharing(this);
    }

    constructor Sharing(other: AppSrc)
      requires other.Valid()
      ensures Valid()
      ensures channel == other.channel && bytesQueued == other.bytesQueued && maxBytes == other.maxBytes
      ensures callback == other.callback
    {
      channel, bytesQueued, maxBytes := other.channel, other.bytesQueued, other.maxBytes;
      callback := other.callback;
    }

    /** `register_callback`: replaces any previous callback. */
    method RegisterCallback(cb: AppSrcCallback)
      modifies this
      ensures callback == Some(cb)
    {
      callback := Some(cb);
    }

    /** `push_buffer`: counts the buffer's bytes, tells the callback (if
        any) `on_enough_data` exactly when the new count is strictly above
        the mark, and enqueues the buffer at the tail in every case.
        `enoughData` says whether the callback was told. */
    method PushBuffer(buf: Buffer) returns (enoughData: bool)
      requires Valid()
      modifies channel, bytesQueued
      ensures bytesQueued.value == old(bytesQueued.value) + |buf|
      ensures channel.items == old(channel.items) + [buf]
      ensures maxBytes.value == old(maxBytes.value)
      ensures enoughData <==> callback.Some? && bytesQueued.value > maxBytes.value
    {
      bytesQueued.value := bytesQueued.value + |buf|;
      enoughData := bytesQueued.value > maxBytes.value && callback.Some?;
      channel.items := channel.items + [buf];
    }

    /** `src_capability`: the wildcard. */
    function SrcCapability(): (c: Capability)
      ensures IsWildcard(c)
    {
      Capability.Any()
    }

    /** One iteration of the feed loop `on_state_change` runs, whatever the
        state: the oldest queued buffer is taken off the channel and pushed
        into `nextPad`.  With nothing queued the loop would block; the step
        then reports `None` and changes nothing.  Counters are untouched. */
    method OnStateChangeStep(nextPad: Pad, state: State, trace: Trace) returns (r: Option<Outcome>)
      modifies channel, trace, QueueOf(nextPad.sink)
      ensures old(channel.items) == [] ==>
        r == None && channel.items == [] && trace.calls == old(trace.calls) &&
        Held(nextPad.sink) == old(Held(nextPad.sink))
      ensures old(channel.items) != [] ==>
        var step := Dispatch(nextPad.sink, old(Held(nextPad.sink)), old(channel.items)[0], nextPad.meta);
        && channel.items == old(channel.items)[1..]
        && r == Some(step.outcome)
        && trace.calls == old(trace.calls) + step.calls
        && Held(nextPad.sink) == step.pending
    {
      if channel.items == [] {
        return None;
      }
      var b := channel.items[0];
      channel.items := channel.items[1..];
      var outcome := nextPad.Push(b, trace);
      r := Some(outcome);
    }
  }
}
