/**
 * The splice that rebuilds an outgoing parcel: the bytes of the source parcel
 * are copied verbatim except inside the ranges of the recorded objects, where
 * each object's current value is re-emitted instead.
 *
 * This module holds the value-level specification (what the copy loop of
 * PermissionsPluginManager.copySourceToTargetParcel appends) and the
 * properties of the splice; the loop itself is in module PluginManager.
 */
module Splice {

  /** One byte of a parcel's data buffer. */
  type Byte = b: int | 0 <= b < 256

  /** What re-emitting a recorded object produces: its encoding, or the
   *  UnsupportedOperationException thrown for a kind that is neither a
   *  binder nor a perturbable. */
  datatype Emission = Emit(bytes: seq<Byte>) | Unsupported

  /** A recorded object as the copy loop sees it: [start, end) in the source
   *  and what is written in its place. */
  datatype Entry = Entry(start: int, end: int, emission: Emission)

  /** Every recorded range lies inside the source parcel. */
  ghost predicate InBounds(q: seq<Entry>, size: int) {
    forall i :: 0 <= i < |q| ==> 0 <= q[i].start <= q[i].end <= size
  }

  /** The recorded ranges are in ascending order and do not overlap. */
  ghost predicate Sorted(q: seq<Entry>) {
    forall i :: 0 < i < |q| ==> q[i - 1].end <= q[i].start
  }

  /** Every recorded object can be re-emitted. */
  ghost predicate AllSupported(q: seq<Entry>) {
    forall i :: 0 <= i < |q| ==> q[i].emission.Emit?
  }

  /** The source bytes the copy loop copies verbatim before a record that
   *  starts at `start`: only when the cursor is strictly before it. Outside
   *  the source (which the records never are) nothing is copied. */
  function Gap(src: seq<Byte>, cursor: int, start: int): seq<Byte> {
    if 0 <= cursor < start <= |src| then src[cursor..start] else []
  }

  /** The bytes the copy loop appends when it starts with the source cursor
   *  at `cursor` and the queue `q` still to write: the gap before the next
   *  record, the record's emission, then the rest from that record's end;
   *  after the last record, the tail (only when the cursor is strictly
   *  before the end). An unsupported record stops the loop after its gap. */
  function CopyFrom(src: seq<Byte>, q: seq<Entry>, cursor: int): seq<Byte>
    decreases |q|
  {
    if q == [] then
      if 0 <= cursor < |src| then src[cursor..] else []
    else
      match q[0].emission
      case Unsupported => Gap(src, cursor, q[0].start)
      case Emit(bytes) => Gap(src, cursor, q[0].start) + bytes + CopyFrom(src, q[1..], q[0].end)
  }

  /** The whole target a splice produces, starting from cursor 0. */
  function Spliced(src: seq<Byte>, q: seq<Entry>): seq<Byte> {
    CopyFrom(src, q, 0)
  }

  // ---------------------------------------------------------------------
  // An independent, index-based statement of the splice:
  //   src[0, s1) ++ enc(r1) ++ src[e1, s2) ++ ... ++ enc(rn) ++ src[en, size)

  /** Where the verbatim gap before record i starts: 0 for the first record,
   *  the previous record's end otherwise. */
  function GapStart(q: seq<Entry>, i: int): int
    requires 0 <= i <= |q|
  {
    if i == 0 then 0 else q[i - 1].end
  }

  /** Concatenation of a sequence of byte strings. */
  function Flatten(pieces: seq<seq<Byte>>): seq<Byte> {
    if pieces == [] then [] else pieces[0] + Flatten(pieces[1..])
  }

  /** src[GapStart(i), s_i) ++ enc(r_i) for every record i. */
  function Pieces(src: seq<Byte>, q: seq<Entry>): seq<seq<Byte>>
    requires InBounds(q, |src|) && Sorted(q) && AllSupported(q)
  {
    seq(|q|, i requires 0 <= i < |q| => src[GapStart(q, i)..q[i].start] + q[i].emission.bytes)
  }

  /** The closed form of the spliced target. */
  function ClosedForm(src: seq<Byte>, q: seq<Entry>): seq<Byte>
    requires InBounds(q, |src|) && Sorted(q) && AllSupported(q)
  {
    Flatten(Pieces(src, q)) + src[GapStart(q, |q|)..]
  }

  /** The same closed form with the first gap starting at `cursor`. */
  function PiecesFrom(src: seq<Byte>, q: seq<Entry>, cursor: int): seq<seq<Byte>>
    requires InBounds(q, |src|) && Sorted(q) && AllSupported(q)
    requires 0 <= cursor && (q != [] ==> cursor <= q[0].start)
  {
    seq(|q|, i requires 0 <= i < |q| =>
      src[(if i == 0 then cursor else q[i - 1].end)..q[i].start] + q[i].emission.bytes)
  }

  /** Dropping the first record keeps the queue well-formed. */
  lemma RestWellFormed(src: seq<Byte>, q: seq<Entry>)
    requires q != [] && InBounds(q, |src|) && Sorted(q)
    ensures InBounds(q[1..], |src|) && Sorted(q[1..])
    ensures AllSupported(q) ==> AllSupported(q[1..])
    ensures |q| > 1 ==> q[0].end <= q[1].start
  {
    var rest := q[1..];
    forall i | 0 <= i < |rest| ensures rest[i] == q[i + 1] { }
  }

  /** The pieces from `cursor` are the first piece followed by the pieces of
   *  the remaining records from the first record's end. */
  lemma PiecesFromCons(src: seq<Byte>, q: seq<Entry>, cursor: int)
    requires q != [] && InBounds(q, |src|) && Sorted(q) && AllSupported(q)
    requires 0 <= cursor <= q[0].start
    requires InBounds(q[1..], |src|) && Sorted(q[1..]) && AllSupported(q[1..])
    requires |q| > 1 ==> q[0].end <= q[1].start
    ensures PiecesFrom(src, q, cursor) ==
            [src[cursor..q[0].start] + q[0].emission.bytes] + PiecesFrom(src, q[1..], q[0].end)
  {
    var rest := q[1..];
    var ps := PiecesFrom(src, q, cursor);
    var tail := PiecesFrom(src, rest, q[0].end);
    forall i | 0 < i < |ps| ensures ps[i] == tail[i - 1] {
      assert rest[i - 1] == q[i];
      if i > 1 { assert rest[i - 2] == q[i - 1]; }
    }
  }

  /** One step of the copy loop when the cursor is at or before the first
   *  record and that record is supported. */
  lemma CopyFromCons(src: seq<Byte>, q: seq<Entry>, cursor: int)
    requires q != [] && InBounds(q, |src|) && q[0].emission.Emit?
    requires 0 <= cursor <= q[0].start
    ensures CopyFrom(src, q, cursor) ==
            src[cursor..q[0].start] + q[0].emission.bytes + CopyFrom(src, q[1..], q[0].end)
  {
    assert Gap(src, cursor, q[0].start) == src[cursor..q[0].start];
  }

  lemma FlattenCons(p: seq<Byte>, ps: seq<seq<Byte>>)
    ensures Flatten([p] + ps) == p + Flatten(ps)
  {
    assert ([p] + ps)[1..] == ps;
  }

  lemma {:induction false} CopyFromClosed(src: seq<Byte>, q: seq<Entry>, cursor: int)
    requires InBounds(q, |src|) && Sorted(q) && AllSupported(q)
    requires 0 <= cursor <= |src| && (q != [] ==> cursor <= q[0].start)
    ensures CopyFrom(src, q, cursor) ==
            Flatten(PiecesFrom(src, q, cursor)) + src[(if q == [] then cursor else q[|q| - 1].end)..]
    decreases |q|
  {
    if q == [] {
      assert PiecesFrom(src, q, cursor) == [];
    } else {
      var rest := q[1..];
      var c1 := q[0].end;
      RestWellFormed(src, q);
      CopyFromClosed(src, rest, c1);
      PiecesFromCons(src, q, cursor);
      CopyFromCons(src, q, cursor);
      assert rest != [] ==> rest[|rest| - 1] == q[|q| - 1];
      FlattenConsTail(src[cursor..q[0].start] + q[0].emission.bytes, PiecesFrom(src, rest, c1),
                      src[q[|q| - 1].end..]);
    }
  }

  /** Prepending a piece to the pieces before a tail. */
  lemma FlattenConsTail(p: seq<Byte>, ps: seq<seq<Byte>>, tail: seq<Byte>)
    ensures p + (Flatten(ps) + tail) == Flatten([p] + ps) + tail
  {
    FlattenCons(p, ps);
  }

  /** Splice correctness: the target is exactly
   *  src[0, s1) ++ enc(r1) ++ src[e1, s2) ++ ... ++ enc(rn) ++ src[en, size)
   *  when the records are in bounds, sorted, non-overlapping and all of a
   *  supported kind. */
  lemma {:induction false} SplicedIsClosedForm(src: seq<Byte>, q: seq<Entry>)
    requires InBounds(q, |src|) && Sorted(q) && AllSupported(q)
    ensures Spliced(src, q) == ClosedForm(src, q)
  {
    CopyFromClosed(src, q, 0);
    assert PiecesFrom(src, q, 0) == Pieces(src, q);
  }

  // ---------------------------------------------------------------------
  // Length and byte preservation.

  /** Bytes the records occupy in the source. */
  function Removed(q: seq<Entry>): int {
    if q == [] then 0 else (q[0].end - q[0].start) + Removed(q[1..])
  }

  /** Bytes the records' emissions occupy in the target. */
  function Inserted(q: seq<Entry>): int
    requires AllSupported(q)
  {
    if q == [] then 0 else |q[0].emission.bytes| + Inserted(q[1..])
  }

  lemma {:induction false} CopyFromLength(src: seq<Byte>, q: seq<Entry>, cursor: int)
    requires InBounds(q, |src|) && Sorted(q) && AllSupported(q)
    requires 0 <= cursor <= |src| && (q != [] ==> cursor <= q[0].start)
    ensures |CopyFrom(src, q, cursor)| == |src| - cursor - Removed(q) + Inserted(q)
    decreases |q|
  {
    if q != [] {
      var rest := q[1..];
      RestWellFormed(src, q);
      CopyFromLength(src, rest, q[0].end);
    }
  }

  /** The target's length is the source's, less the recorded ranges, plus
   *  the re-emitted encodings (a location whose new encoding is longer grows
   *  the parcel by the difference). */
  lemma SplicedLength(src: seq<Byte>, q: seq<Entry>)
    requires InBounds(q, |src|) && Sorted(q) && AllSupported(q)
    ensures |Spliced(src, q)| == |src| - Removed(q) + Inserted(q)
  {
    CopyFromLength(src, q, 0);
  }

  /** Each record re-emits exactly the bytes it was recorded over. */
  ghost predicate Unmodified(src: seq<Byte>, q: seq<Entry>)
    requires InBounds(q, |src|)
  {
    forall i :: 0 <= i < |q| ==> q[i].emission == Emit(src[q[i].start..q[i].end])
  }

  lemma {:induction false} CopyFromUnmodified(src: seq<Byte>, q: seq<Entry>, cursor: int)
    requires InBounds(q, |src|) && Sorted(q) && Unmodified(src, q)
    requires 0 <= cursor <= |src| && (q != [] ==> cursor <= q[0].start)
    ensures CopyFrom(src, q, cursor) == src[cursor..]
    decreases |q|
  {
    if q != [] {
      var rest := q[1..];
      RestWellFormed(src, q);
      assert Unmodified(src, rest) by {
        forall i | 0 <= i < |rest| ensures rest[i].emission == Emit(src[rest[i].start..rest[i].end]) {
          assert rest[i] == q[i + 1];
        }
      }
      assert q[0].emission == Emit(src[q[0].start..q[0].end]);
      CopyFromUnmodified(src, rest, q[0].end);
      assert src[cursor..q[0].start] + src[q[0].start..q[0].end] + src[q[0].end..] == src[cursor..];
    }
  }

  /** Byte preservation: when no record was perturbed (each re-emits the
   *  bytes it covered), the target is byte-identical to the source; in
   *  particular with no records at all. */
  lemma SplicedUnmodifiedIsSource(src: seq<Byte>, q: seq<Entry>)
    requires InBounds(q, |src|) && Sorted(q) && Unmodified(src, q)
    ensures Spliced(src, q) == src
  {
    CopyFromUnmodified(src, q, 0);
  }

  /** The single-record case: with one record over [s, e) the target is
   *  src[0, s) ++ enc ++ src[e, size). */
  lemma {:induction false} SplicedOne(src: seq<Byte>, s: int, e: int, bytes: seq<Byte>)
    requires 0 <= s <= e <= |src|
    ensures Spliced(src, [Entry(s, e, Emit(bytes))]) == src[..s] + bytes + src[e..]
    ensures |Spliced(src, [Entry(s, e, Emit(bytes))])| == |src| - (e - s) + |bytes|
  {
    var q := [Entry(s, e, Emit(bytes))];
    assert q[1..] == [];
    assert CopyFrom(src, q[1..], e) == src[e..];
    assert Gap(src, 0, s) == src[..s];
  }
}
