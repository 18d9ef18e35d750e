/** Vocabulary shared by the whole engine: the optional value, byte buffers,
    the global lifecycle state and the capability descriptors that elements
    declare (src/lib.rs). */
module Types {

  datatype Option<T> = None | Some(value: T)

  /** One byte of a buffer in flight. */
  type Byte = bv8

  /** A `bytes::BytesMut` buffer, seen only as its byte sequence. */
  type Buffer = seq<Byte>

  /** The single lifecycle state of the whole graph. */
  datatype State = Null | Ready | Paused | Playing

  /** Whether a capability entry is mandatory or optional. */
  datatype Presence = Always | Sometimes

  /** A half-open `start..end` range of `usize` values. */
  datatype Range = Range(start: nat, end: nat)

  datatype AudioCapability = AudioCapability(
    container: string,
    formats: seq<string>,
    rate: Range,
    channels: Range,
    layouts: Option<seq<string>>)

  /** The `version` number of a video capability is a float and is not modelled. */
  datatype VideoCapability = VideoCapability(
    container: string,
    formats: seq<string>,
    width: Range,
    height: Range)

  datatype ApplicationCapability = ApplicationCapability(container: string)

  datatype Capability = Capability(
    audio: seq<AudioCapability>,
    video: seq<VideoCapability>,
    application: seq<ApplicationCapability>,
    presence: Presence)
  {
    /** `Capability::Any()`: the one descriptor that is the wildcard. */
    static function Any(): (c: Capability)
      ensures IsWildcard(c)
      ensures forall d :: IsWildcard(d) ==> d == c
    {
      Capability([], [], [], Always)
    }
  }

  /** The universal wildcard descriptor: no per-medium entry and mandatory. */
  predicate IsWildcard(c: Capability) {
    c.audio == [] && c.video == [] && c.application == [] && c.presence == Always
  }
}
