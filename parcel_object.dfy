/**
 * The records a parcel keeps of the objects written into it (ParcelObject
 * and its perturbable variant), and the parcel itself as a byte buffer with
 * its recorded objects.
 */
module ParcelRecords {
  import opened Wrappers
  import opened Splice

  /** The two record kinds the splice accepts. */
  const BINDER_OBJECT: int := 1
  const PERTURBABLE_OBJECT: int := 2

  /** The kinds of perturbable data. */
  datatype Category = Location | Contacts | Calendar | Camera | Storage

  /** An object written into a parcel (an IBinder, a Location, a
   *  CursorWindow, ...); Null is Java's null. */
  datatype Value = Null | Ref(id: nat)

  /** The query a contacts or calendar cursor window answers. */
  datatype QueryMetadata = QueryMetadata(
    url: string, projection: seq<string>, columnNames: seq<string>, count: int)

  /** The extra fields of a perturbable record. */
  datatype PerturbableInfo = PerturbableInfo(
    category: Category, writeFlags: int, metadata: Option<QueryMetadata>)

  /** How objects are encoded into a parcel: writeStrongBinder and
   *  Parcelable.writeToParcel, left uninterpreted. */
  datatype Codec = Codec(binder: Value -> seq<Byte>, parcelable: (Value, int) -> seq<Byte>)

  class ParcelObject {
    /** The object written to the parcel. */
    const obj: Value
    /** Where the object starts in the parcel. */
    const startPos: int
    /** BINDER_OBJECT, PERTURBABLE_OBJECT or anything else. */
    const objectType: int
    /** Present for a perturbable record. */
    const perturbable: Option<PerturbableInfo>
    /** Where the object ends in the parcel. */
    var endPos: int
    /** The replacement a plugin supplied, once set (a null one included). */
    var perturbed: Option<Value>

    constructor (value: Value, startPos: int, objectType: int)
      ensures obj == value && this.startPos == startPos && this.objectType == objectType
      ensures perturbable == None && endPos == 0 && perturbed == None
    {
      obj := value;
      this.startPos := startPos;
      this.objectType := objectType;
      perturbable := None;
      endPos := 0;
      perturbed := None;
    }

    /** A perturbable record of the given category. */
    constructor Perturbable(parcelable: Value, startPos: int, info: PerturbableInfo)
      ensures obj == parcelable && this.startPos == startPos
      ensures objectType == PERTURBABLE_OBJECT && perturbable == Some(info)
      ensures endPos == 0 && perturbed == None
    {
      obj := parcelable;
      this.startPos := startPos;
      objectType := PERTURBABLE_OBJECT;
      perturbable := Some(info);
      endPos := 0;
      perturbed := None;
    }

    method SetEndPos(endPos: int)
      modifies this`endPos
      ensures this.endPos == endPos
    {
      this.endPos := endPos;
    }

    method SetPerturbedObject(v: Value)
      modifies this`perturbed
      ensures perturbed == Some(v)
    {
      perturbed := Some(v);
    }

    /** The value to re-emit: the replacement when a non-null one was set,
     *  the original otherwise. */
    function LatestParcelable(): Value
      reads this`perturbed
    {
      if perturbed.Some? && perturbed.value != Null then perturbed.value else obj
    }

    /** A record whose kind says perturbable is a perturbable record. */
    predicate WellTyped() {
      objectType == PERTURBABLE_OBJECT ==> perturbable.Some?
    }
  }

  /** What copySourceToTargetParcel writes for a record: a binder is written
   *  as a strong binder, a perturbable as its latest parcelable with the
   *  record's write flags, and any other kind throws. */
  function EmissionOf(o: ParcelObject, codec: Codec): Emission
    reads o`perturbed
  {
    if o.objectType == BINDER_OBJECT then Emit(codec.binder(o.obj))
    else if o.objectType == PERTURBABLE_OBJECT && o.perturbable.Some? then
      Emit(codec.parcelable(o.LatestParcelable(), o.perturbable.value.writeFlags))
    else Unsupported
  }

  /** The splice entry of a record. */
  function EntryOf(o: ParcelObject, codec: Codec): Entry
    reads o`endPos, o`perturbed
  {
    Entry(o.startPos, o.endPos, EmissionOf(o, codec))
  }

  /** The splice entries of a queue of records, in queue order. */
  function Entries(q: seq<ParcelObject>, codec: Codec): seq<Entry>
    reads (set o | o in q)`endPos, (set o | o in q)`perturbed
    decreases |q|
  {
    if q == [] then [] else [EntryOf(q[0], codec)] + Entries(q[1..], codec)
  }

  lemma {:induction false} EntriesIndex(q: seq<ParcelObject>, codec: Codec)
    ensures |Entries(q, codec)| == |q|
    ensures forall i :: 0 <= i < |q| ==> Entries(q, codec)[i] == EntryOf(q[i], codec)
    decreases |q|
  {
    if q != [] {
      EntriesIndex(q[1..], codec);
      forall i | 0 < i < |q| ensures Entries(q, codec)[i] == EntryOf(q[i], codec) {
        assert q[1..][i - 1] == q[i];
      }
    }
  }

  /** Every record of `q` lies inside a parcel of `size` bytes. */
  predicate PlacedWithin(q: seq<ParcelObject>, size: int)
    reads (set o | o in q)`endPos
  {
    forall o :: o in q ==> 0 <= o.startPos <= o.endPos <= size
  }

  lemma PlacedWithinInBounds(q: seq<ParcelObject>, size: int, codec: Codec)
    requires PlacedWithin(q, size)
    ensures InBounds(Entries(q, codec), size)
  {
    EntriesIndex(q, codec);
  }

  /** A parcel: its data bytes and the objects recorded while writing it. */
  class Parcel {
    var data: seq<Byte>
    var recordedObjects: seq<ParcelObject>
    var recording: bool

    /** Parcel.obtain(). */
    constructor Obtain()
      ensures data == [] && recordedObjects == [] && recording
    {
      data := [];
      recordedObjects := [];
      recording := true;
    }

    predicate HasPerturbables()
      reads this`recordedObjects
    {
      exists i :: 0 <= i < |recordedObjects| && recordedObjects[i].objectType == PERTURBABLE_OBJECT
    }

    method StopRecording()
      modifies this`recording
      ensures !recording
    {
      recording := false;
    }

    /** appendFrom: copies `length` bytes of `source` from `offset`. */
    method AppendFrom(source: Parcel, offset: int, length: int)
      requires source != this && 0 <= offset && 0 <= length && offset + length <= |source.data|
      modifies this`data
      ensures data == old(data) + source.data[offset..offset + length]
    {
      data := data + source.data[offset..offset + length];
    }

    /** An encoding written at the end (writeStrongBinder, writeToParcel). */
    method Write(bytes: seq<Byte>)
      modifies this`data
      ensures data == old(data) + bytes
    {
      data := data + bytes;
    }
  }
}
