/** The graph builder (src/pipeline.rs): two dense tables, of pads and of
    elements, whose indices are the identifiers handed out. */
module PipelineGraph {
  import opened Types
  import opened Dataflow

  /** The element after `elem_add_pad` bound the fresh pad `p` to it: the
      single output pad of a Source, Transformer or Muxer is replaced, a
      DeMuxer gets `p` appended, a Sink is left as it was. */
  function WithPad(e: Element, p: Pad): (r: Element)
    ensures Handle(r) == Handle(e)
    ensures OutputPads(r) == if e.DeMuxer? then OutputPads(e) + [p] else if e.Sink? then [] else [p]
    ensures e.Muxer? ==> r.Muxer? && r.queue == e.queue && r.lanes == e.lanes
    ensures e.Source? == r.Source? && e.Transformer? == r.Transformer? && e.DeMuxer? == r.DeMuxer? && e.Sink? == r.Sink?
  {
    match e
    case Source(_, l) => Source(Some(p), l)
    case Sink(_) => e
    case Transformer(_, l) => Transformer(Some(p), l)
    case DeMuxer(ps, l) => DeMuxer(ps + [p], l)
    case Muxer(_, q, n, l) => Muxer(Some(p), q, n, l)
  }

  /** The calls `set_state` makes, in element-registration order: one
      `on_state_change` for every Source that has an output pad. */
  function Notifications(elems: seq<Element>, state: State): (r: seq<Call>)
    ensures |r| <= |elems|
  {
    if elems == [] then []
    else Notified(elems[0], state) + Notifications(elems[1..], state)
  }

  function Notified(e: Element, state: State): (r: seq<Call>)
    ensures |r| <= 1
    ensures r != [] <==> e.Source? && e.srcPad.Some?
  {
    if e.Source? && e.srcPad.Some? then [SourceStateChange(e.src, e.srcPad.value, state)] else []
  }

  /** How many elements of the table are Sources with an output pad. */
  function CountSources(elems: seq<Element>): nat {
    if elems == [] then 0
    else (if elems[0].Source? && elems[0].srcPad.Some? then 1 else 0) + CountSources(elems[1..])
  }

  /** `set_state` makes exactly one call per Source with an output pad, and
      no more. */
  lemma {:induction false} NotificationCount(elems: seq<Element>, state: State)
    ensures |Notifications(elems, state)| == CountSources(elems)
    decreases |elems|
  {
    if elems != [] {
      NotificationCount(elems[1..], state);
    }
  }

  lemma NotificationsSingle(e: Element, state: State)
    ensures Notifications([e], state) == Notified(e, state)
  {
    assert [e][1..] == [];
  }

  lemma {:induction false} NotificationsAppend(a: seq<Element>, b: seq<Element>, state: State)
    ensures Notifications(a + b, state) == Notifications(a, state) + Notifications(b, state)
    decreases |a|
  {
    if a == [] {
      assert a + b == b;
    } else {
      assert (a + b)[1..] == a[1..] + b;
      NotificationsAppend(a[1..], b, state);
    }
  }

  /** The Source at index `i` with output pad `p` is notified exactly at
      the position that follows the notifications of the elements before
      it. */
  lemma NotificationOfSource(elems: seq<Element>, i: nat, state: State)
    requires i < |elems| && elems[i].Source? && elems[i].srcPad.Some?
    ensures var pos := |Notifications(elems[..i], state)|;
      pos < |Notifications(elems, state)| &&
      Notifications(elems, state)[pos] == SourceStateChange(elems[i].src, elems[i].srcPad.value, state)
  {
    assert elems == elems[..i] + elems[i..];
    NotificationsAppend(elems[..i], elems[i..], state);
    assert elems[i..][0] == elems[i];
  }

  /** Sources are notified in registration order: an earlier Source's call
      comes strictly before a later one's. */
  lemma NotificationOrder(elems: seq<Element>, i: nat, j: nat, state: State)
    requires i < j < |elems|
    requires elems[i].Source? && elems[i].srcPad.Some?
    ensures |Notifications(elems[..i], state)| < |Notifications(elems[..j], state)|
  {
    assert elems[..j] == elems[..i] + elems[i..j];
    NotificationsAppend(elems[..i], elems[i..j], state);
    assert elems[i..j] == [elems[i]] + elems[i + 1..j];
    NotificationsAppend([elems[i]], elems[i + 1..j], state);
    assert [elems[i]][1..] == [];
  }

  /** Every call `set_state` makes is an `on_state_change` with the given
      state, on a Source of the table with that output pad: no other role
      is ever notified. */
  lemma {:induction false} OnlySourcesNotified(elems: seq<Element>, state: State)
    ensures forall c :: c in Notifications(elems, state) ==>
      c.SourceStateChange? && c.state == state &&
      Source(Some(c.nextPad), c.on) in elems
    decreases |elems|
  {
    if elems != [] {
      OnlySourcesNotified(elems[1..], state);
      forall c | c in Notifications(elems, state)
        ensures c.SourceStateChange? && c.state == state && Source(Some(c.nextPad), c.on) in elems
      {
        if c in Notified(elems[0], state) {
          assert elems[0] == Source(Some(c.nextPad), c.on);
        } else {
          assert c in Notifications(elems[1..], state);
          assert Source(Some(c.nextPad), c.on) in elems[1..];
        }
      }
    }
  }

  /** The element table holds no Source with a pad exactly when `set_state`
      makes no call at all. */
  lemma {:induction false} SilentWithoutSources(elems: seq<Element>, state: State)
    ensures Notifications(elems, state) == [] <==>
      forall i :: 0 <= i < |elems| ==> !(elems[i].Source? && elems[i].srcPad.Some?)
    decreases |elems|
  {
    if elems != [] {
      SilentWithoutSources(elems[1..], state);
      if elems[0].Source? && elems[0].srcPad.Some? {
        assert |Notifications(elems, state)| >= 1;
      } else {
        forall i | 1 <= i < |elems| ensures elems[i] == elems[1..][i - 1] {}
      }
    }
  }

  /** Whether `elem_get_pad` on a DeMuxer looks the pad up, as written: the
      guard `len < index` is inverted, so it holds only when `index` is past
      the end. */
  predicate DeMuxerGuardAsWritten(len: nat, index: nat) {
    len < index
  }

  /** The guard evidently intended: `index` names one of the pads. */
  predicate DeMuxerGuardIntended(len: nat, index: nat) {
    index < len
  }

  /** The written guard lets through only indices strictly past the end,
      all out of bounds, and rejects every index that names a pad. */
  lemma DeMuxerGuardInverted(len: nat, index: nat)
    ensures DeMuxerGuardAsWritten(len, index) <==> index > len
    ensures DeMuxerGuardAsWritten(len, index) ==> !DeMuxerGuardIntended(len, index)
    ensures DeMuxerGuardIntended(len, index) ==> !DeMuxerGuardAsWritten(len, index)
  {
  }

  class Pipeline {
    var pads: seq<Pad>
    var elems: seq<Element>

    /** Every pad in the table is a distinct object. */
    ghost predicate Valid()
      reads this
    {
      forall i, j :: 0 <= i < j < |pads| ==> pads[i] != pads[j]
    }

    constructor ()
      ensures Valid() && pads == [] && elems == []
    {
      pads, elems := [], [];
    }

    /** `add_elem`: appends an already built element. */
    method AddElem(e: Element) returns (id: nat)
      requires Valid()
      modifies this
      ensures Valid()
      ensures id == |old(elems)| && elems == old(elems) + [e] && pads == old(pads)
    {
      elems := elems + [e];
      id := |elems| - 1;
    }

    /** `add_src`: appends a Source without output pad around a freshly
        allocated logic handle. */
    method AddSrc() returns (id: nat)
      requires Valid()
      modifies this
      ensures Valid()
      ensures id == |old(elems)| && |elems| == |old(elems)| + 1 && elems[..id] == old(elems) && pads == old(pads)
      ensures elems[id].Source? && elems[id].srcPad == None && fresh(elems[id].src)
    {
      var l := new Logic();
      elems := elems + [Source(None, l)];
      id := |elems| - 1;
    }

    /** `add_sink`: appends a Sink around a freshly allocated logic handle. */
    method AddSink() returns (id: nat)
      requires Valid()
      modifies this
      ensures Valid()
      ensures id == |old(elems)| && |elems| == |old(elems)| + 1 && elems[..id] == old(elems) && pads == old(pads)
      ensures elems[id].Sink? && fresh(elems[id].src)
    {
      var l := new Logic();
      elems := elems + [Sink(l)];
      id := |elems| - 1;
    }

    /** `elem_add_pad`: always appends one fresh pad (meta `Any`, no
        downstream) to the pad table, then binds it to the element by role.
        A Sink is left alone and `None` returned, the new pad orphaned; every
        other role gets `Some` of the new pad's index. */
    method ElemAddPad(elem: nat, padName: string) returns (r: Option<nat>)
      requires Valid() && elem < |elems|
      modifies this
      ensures Valid()
      ensures |pads| == |old(pads)| + 1 && pads[..|old(pads)|] == old(pads)
      ensures var p := pads[|old(pads)|];
        && fresh(p) && p.name == padName && p.meta == Any && p.sink == None
        && elems == old(elems)[elem := WithPad(old(elems)[elem], p)]
      ensures r == if old(elems)[elem].Sink? then None else Some(|pads| - 1)
    {
      var p := new Pad(padName);
      pads := pads + [p];
      var e := elems[elem];
      elems := elems[elem := WithPad(e, p)];
      if e.Sink? {
        return None;
      }
      return Some(|pads| - 1);
    }

    /** The position of the first entry of the pad table that is the very
        object `p`: the identity search `elem_get_pad` runs. */
    method PadPosition(p: Pad) returns (r: Option<nat>)
      ensures r.Some? ==> r.value < |pads| && pads[r.value] == p && p !in pads[..r.value]
      ensures r.None? <==> p !in pads
      ensures Valid() && r.Some? ==> forall j :: 0 <= j < |pads| && pads[j] == p ==> j == r.value
    {
      var i := 0;
      while i < |pads|
        invariant 0 <= i <= |pads|
        invariant p !in pads[..i]
      {
        if pads[i] == p {
          return Some(i);
        }
        assert pads[..i + 1] == pads[..i] + [pads[i]];
        i := i + 1;
      }
      assert pads[..i] == pads;
      return None;
    }

    /** `elem_get_pad`, as written.  Source, Transformer and Muxer ignore
        `index` and give the table position of their current output pad; a
        Sink gives `None`; a DeMuxer gives `None` whenever `index` is at most
        its pad count, and its other case indexes out of bounds. */
    method ElemGetPad(elem: nat, index: nat) returns (r: Option<nat>)
      requires elem < |elems|
      requires elems[elem].DeMuxer? ==> !DeMuxerGuardAsWritten(|elems[elem].srcPads|, index)
      ensures var e := elems[elem];
        && (e.Sink? || e.DeMuxer? ==> r == None)
        && (!e.Sink? && !e.DeMuxer? && e.srcPad.None? ==> r == None)
        && (!e.Sink? && !e.DeMuxer? && e.srcPad.Some? ==>
              (r.None? <==> e.srcPad.value !in pads) &&
              (r.Some? ==> r.value < |pads| && pads[r.value] == e.srcPad.value &&
                           e.srcPad.value !in pads[..r.value]))
    {
      var e := elems[elem];
      match e
      case DeMuxer(ps, _) =>
        r := None;
      case Sink(_) =>
        r := None;
      case _ =>
        if e.srcPad.Some? {
          r := PadPosition(e.srcPad.value);
        } else {
          r := None;
        }
    }

    /** `elem_get_pad` with the DeMuxer guard corrected to `index < len`:
        the `index`-th output pad of a DeMuxer, in addition order. */
    method ElemGetPadIntended(elem: nat, index: nat) returns (r: Option<nat>)
      requires elem < |elems|
      ensures var e := elems[elem];
        && (e.Sink? ==> r == None)
        && (e.DeMuxer? && index >= |e.srcPads| ==> r == None)
        && (var want: Option<Pad> :=
              if e.DeMuxer? then (if index < |e.srcPads| then Some(e.srcPads[index]) else None)
              else if e.Sink? then None else e.srcPad;
            && (want.None? ==> r == None)
            && (want.Some? ==>
                 (r.None? <==> want.value !in pads) &&
                 (r.Some? ==> r.value < |pads| && pads[r.value] == want.value &&
                              want.value !in pads[..r.value])))
    {
      var e := elems[elem];
      match e
      case DeMuxer(ps, _) =>
        if DeMuxerGuardIntended(|ps|, index) {
          r := PadPosition(ps[index]);
        } else {
          r := None;
        }
      case Sink(_) =>
        r := None;
      case _ =>
        if e.srcPad.Some? {
          r := PadPosition(e.srcPad.value);
        } else {
          r := None;
        }
    }

    /** `connect`: the pad's downstream becomes a copy of the target element
        as it is now, replacing any earlier binding; nothing is checked and
        nothing else changes. */
    method Connect(pad: nat, element: nat)
      requires pad < |pads| && element < |elems|
      modifies pads[pad]
      ensures pads[pad].sink == Some(elems[element])
      ensures pads[pad].meta == old(pads[pad].meta)
    {
      pads[pad].sink := Some(elems[element]);
    }

    /** `set_state`: calls `on_state_change(pad, state)` on every Source that
        has an output pad, in registration order; other roles are skipped. */
    method SetState(state: State, trace: Trace)
      modifies trace
      ensures trace.calls == old(trace.calls) + Notifications(elems, state)
    {
      for i := 0 to |elems|
        invariant trace.calls == old(trace.calls) + Notifications(elems[..i], state)
      {
        NotificationsAppend(elems[..i], [elems[i]], state);
        assert elems[..i + 1] == elems[..i] + [elems[i]];
        assert [elems[i]][1..] == [];
        var e := elems[i];
        if e.Source? && e.srcPad.Some? {
          trace.calls := trace.calls + [SourceStateChange(e.src, e.srcPad.value, state)];
        }
      }
      assert elems[..|elems|] == elems;
    }
  }
}
