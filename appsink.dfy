/** The application-consuming sink (src/plugins/appsink.rs): every buffer
    it is given goes to the registered callback, if there is one. */
module AppSinkPlugin {
  import opened Types
  import opened Dataflow

  /** One buffer handed to the application, with its meta. */
  datatype Delivery = Delivery(buf: Buffer, meta: PadMeta)

  /** The application's `AppSinkCallback`, shared through an `Arc`; its
      logic is outside the model, which records what `on_data_avaliable`
      receives. */
  class SinkCallback {
    var received: seq<Delivery>

    constructor ()
      ensures received == []
    {
      received := [];
    }
  }

  class AppSink {
    /** Copied by value when the sink is cloned; the callback behind it is
        shared. */
    var callback: Option<SinkCallback>

    /** `AppSink::new`: no callback. */
    constructor ()
      ensures callback == None
    {
      callback := None;
    }

    /** The derived `Clone`: a new value sharing the current callback. */
    method Clone() returns (c: AppSink)
      ensures fresh(c) && c.callback == callback
    {
      c := new AppSink();
      c.callback := callback;
    }

    /** `register_callback`: replaces the callback. */
    method RegisterCallback(cb: SinkCallback)
      modifies this
      ensures callback == Some(cb)
    {
      callback := Some(cb);
    }

    function CallbackObjects(): set<object>
      reads this
    {
      if callback.Some? then {callback.value} else {}
    }

    /** `sink_capability`: the wildcard. */
    function SinkCapability(): (c: Capability)
      ensures IsWildcard(c)
    {
      Capability.Any()
    }

    /** `sink`: hands the buffer and meta to the callback exactly once, or
        drops it silently when no callback is registered. */
    method Sink(buf: Buffer, meta: PadMeta)
      modifies CallbackObjects()
      ensures callback == old(callback)
      ensures callback.Some? ==> callback.value.received == old(callback.value.received) + [Delivery(buf, meta)]
    {
      if callback.Some? {
        var c := callback.value;
        c.received := c.received + [Delivery(buf, meta)];
      }
    }

    /** `on_state_change`: does nothing. */
    method OnStateChange(state: State)
      ensures callback == old(callback)
    {
    }
  }
}
