/**
 * A parcel as the Parcelable serialisers see it: a sequence of typed items
 * written at the end and read back with a cursor.
 */
module ItemParcel {
  import opened Wrappers

  /** Java's int and long. */
  type Int32 = x: int | -0x8000_0000 <= x < 0x8000_0000
  type Int64 = x: int | -0x8000_0000_0000_0000 <= x < 0x8000_0000_0000_0000

  /** A narrowing conversion to int (a cast, or Cursor.getInt on a 64-bit
   *  column): the low 32 bits, as a signed value. */
  function ToInt32(x: int): (r: Int32)
    ensures -0x8000_0000 <= x < 0x8000_0000 ==> r == x
    ensures (r - x) % 0x1_0000_0000 == 0
  {
    (x + 0x8000_0000) % 0x1_0000_0000 - 0x8000_0000
  }

  /** One value written into the parcel; a null string or string list is
   *  written as such and read back as null. A surface is written as its
   *  native handle, absent for a surface that holds none. */
  datatype Item =
    | IntItem(i: Int32)
    | LongItem(l: Int64)
    | StringItem(s: Option<string>)
    | StringListItem(list: Option<seq<string>>)
    | SurfaceItem(handle: Option<nat>)

  // What a read at position `pos` yields. Reading past the end or over an
  // item of another type gives the type's default (0, null, no surface).

  function IntAt(items: seq<Item>, pos: nat): Int32 {
    if pos < |items| && items[pos].IntItem? then items[pos].i else 0
  }

  function LongAt(items: seq<Item>, pos: nat): Int64 {
    if pos < |items| && items[pos].LongItem? then items[pos].l else 0
  }

  function StringAt(items: seq<Item>, pos: nat): Option<string> {
    if pos < |items| && items[pos].StringItem? then items[pos].s else None
  }

  function StringListAt(items: seq<Item>, pos: nat): Option<seq<string>> {
    if pos < |items| && items[pos].StringListItem? then items[pos].list else None
  }

  function SurfaceAt(items: seq<Item>, pos: nat): Option<nat> {
    if pos < |items| && items[pos].SurfaceItem? then items[pos].handle else None
  }

  /** The cursor after one read: one item further, or unchanged at the end. */
  function Next(items: seq<Item>, pos: nat): (r: nat)
    ensures pos < |items| ==> r == pos + 1
    ensures pos >= |items| ==> r == pos
  {
    if pos < |items| then pos + 1 else pos
  }

  class Parcel {
    var items: seq<Item>
    var pos: nat

    /** Parcel.obtain(): empty, cursor at the start. */
    constructor Obtain()
      ensures items == [] && pos == 0
    {
      items := [];
      pos := 0;
    }

    method WriteInt(v: Int32)
      modifies this`items
      ensures items == old(items) + [IntItem(v)]
    {
      items := items + [IntItem(v)];
    }

    method WriteLong(v: Int64)
      modifies this`items
      ensures items == old(items) + [LongItem(v)]
    {
      items := items + [LongItem(v)];
    }

    method WriteString(v: Option<string>)
      modifies this`items
      ensures items == old(items) + [StringItem(v)]
    {
      items := items + [StringItem(v)];
    }

    method WriteStringList(v: Option<seq<string>>)
      modifies this`items
      ensures items == old(items) + [StringListItem(v)]
    {
      items := items + [StringListItem(v)];
    }

    /** Surface.writeToParcel. */
    method WriteSurface(handle: Option<nat>)
      modifies this`items
      ensures items == old(items) + [SurfaceItem(handle)]
    {
      items := items + [SurfaceItem(handle)];
    }

    method ReadInt() returns (v: Int32)
      modifies this`pos
      ensures v == IntAt(items, old(pos)) && pos == Next(items, old(pos))
    {
      v := IntAt(items, pos);
      pos := Next(items, pos);
    }

    method ReadLong() returns (v: Int64)
      modifies this`pos
      ensures v == LongAt(items, old(pos)) && pos == Next(items, old(pos))
    {
      v := LongAt(items, pos);
      pos := Next(items, pos);
    }

    method ReadString() returns (v: Option<string>)
      modifies this`pos
      ensures v == StringAt(items, old(pos)) && pos == Next(items, old(pos))
    {
      v := StringAt(items, pos);
      pos := Next(items, pos);
    }

    /** createStringArrayList. */
    method CreateStringArrayList() returns (v: Option<seq<string>>)
      modifies this`pos
      ensures v == StringListAt(items, old(pos)) && pos == Next(items, old(pos))
    {
      v := StringListAt(items, pos);
      pos := Next(items, pos);
    }

    /** Surface.readFromParcel: the native handle read, or none. */
    method ReadSurface() returns (v: Option<nat>)
      modifies this`pos
      ensures v == SurfaceAt(items, old(pos)) && pos == Next(items, old(pos))
    {
      v := SurfaceAt(items, pos);
      pos := Next(items, pos);
    }

    /** setDataPosition. */
    method SetDataPosition(p: nat)
      modifies this`pos
      ensures pos == p
    {
      pos := p;
    }
  }
}
