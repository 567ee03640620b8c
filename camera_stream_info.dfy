/**
 * CameraStreamInfo: the description of a camera output stream (id, size,
 * format and the app's target surface) passed to a plugin, and its
 * Parcelable encoding.
 */
module CameraStream {
  import opened Wrappers
  import opened ItemParcel

  /** An android.view.Surface, known by its native handle (none for a
   *  surface that was created empty and never filled). */
  datatype Surface = Surface(handle: Option<nat>)

  /** The fields of a stream description. */
  datatype StreamFields = StreamFields(streamId: Int32, width: Int32, height: Int32, format: Int32, surface: Surface)

  /** writeToParcel: the four ints in declaration order, then the surface. */
  function Encode(f: StreamFields): (items: seq<Item>)
    ensures |items| == 5
  {
    [IntItem(f.streamId), IntItem(f.width), IntItem(f.height), IntItem(f.format), SurfaceItem(f.surface.handle)]
  }

  /** What readFromParcel reads from position `pos`, and where it stops. */
  datatype Decoded = Decoded(fields: StreamFields, end: nat)

  function Decode(items: seq<Item>, pos: nat): Decoded {
    var p1 := Next(items, pos);
    var p2 := Next(items, p1);
    var p3 := Next(items, p2);
    var p4 := Next(items, p3);
    Decoded(StreamFields(IntAt(items, pos), IntAt(items, p1), IntAt(items, p2), IntAt(items, p3),
                         Surface(SurfaceAt(items, p4))),
            Next(items, p4))
  }

  /** Reading back what writeToParcel wrote, wherever it sits in the parcel,
   *  restores every field and leaves the cursor just after it. */
  lemma DecodeEncode(before: seq<Item>, f: StreamFields, after: seq<Item>)
    ensures Decode(before + Encode(f) + after, |before|) == Decoded(f, |before| + 5)
  {
    var items := before + Encode(f) + after;
    assert items[|before|..|before| + 5] == Encode(f);
  }

  class CameraStreamInfo {
    var streamId: Int32
    var width: Int32
    var height: Int32
    var format: Int32
    var surface: Option<Surface>

    /** The implicit constructor createFromParcel starts from. */
    constructor ()
      ensures streamId == 0 && width == 0 && height == 0 && format == 0 && surface == None
    {
      streamId, width, height, format := 0, 0, 0, 0;
      surface := None;
    }

    /** The fields, once a surface is set. */
    function Fields(): StreamFields
      reads this
      requires surface.Some?
    {
      StreamFields(streamId, width, height, format, surface.value)
    }

    /** writeToParcel: a null surface throws NullPointerException after the
     *  four ints were written. */
    method WriteToParcel(dest: Parcel, flags: int) returns (r: Result<()>)
      modifies dest`items
      ensures surface.Some? ==> r == Ok(()) && dest.items == old(dest.items) + Encode(Fields())
      ensures surface.None? ==> r == Threw(NullPointer) &&
                                dest.items == old(dest.items) + [IntItem(streamId), IntItem(width), IntItem(height), IntItem(format)]
    {
      dest.WriteInt(streamId);
      dest.WriteInt(width);
      dest.WriteInt(height);
      dest.WriteInt(format);
      if surface.None? {
        return Threw(NullPointer);
      }
      dest.WriteSurface(surface.value.handle);
      return Ok(());
    }

    /** readFromParcel: reads the fields in the order they were written; the
     *  surface is always a new one, filled from the parcel. */
    method ReadFromParcel(src: Parcel)
      modifies this, src`pos
      ensures surface.Some? && Fields() == Decode(src.items, old(src.pos)).fields
      ensures src.pos == Decode(src.items, old(src.pos)).end
    {
      streamId := src.ReadInt();
      width := src.ReadInt();
      height := src.ReadInt();
      format := src.ReadInt();
      var handle := src.ReadSurface();
      surface := Some(Surface(handle));
    }

    /** describeContents. */
    function DescribeContents(): int {
      0
    }
  }

  /** CREATOR.createFromParcel. */
  method CreateFromParcel(src: Parcel) returns (info: CameraStreamInfo)
    modifies src`pos
    ensures fresh(info) && info.surface.Some?
    ensures info.Fields() == Decode(src.items, old(src.pos)).fields
    ensures src.pos == Decode(src.items, old(src.pos)).end
  {
    info := new CameraStreamInfo();
    info.ReadFromParcel(src);
  }
}
