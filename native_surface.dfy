/**
 * The native side of an interposable surface: the init-once flag, the
 * destination buffer-slot cache, and the frame handler that moves each
 * camera frame from the source queue through the plugin to the app's
 * destination surface.
 */
module NativeSurface {
  import opened Wrappers

  /** BufferQueueDefs::NUM_BUFFER_SLOTS. */
  const NUM_BUFFER_SLOTS: int := 64

  /** The buffer-queue calls whose order matters: acquiring and releasing the
   *  source buffer, dequeuing, queuing and cancelling a destination slot,
   *  and handing the frame to the plugin. */
  datatype BufferOp =
    | Acquire
    | Dequeue(slot: int)
    | ToPlugin(stride: int)
    | Queue(slot: int, ok: bool)
    | Cancel(slot: int)
    | Release

  /** What dequeueBuffer answers: a failure, or a slot with the
   *  RELEASE_ALL_BUFFERS and BUFFER_NEEDS_REALLOCATION flags. */
  datatype DequeueAnswer = DequeueFailed | Dequeued(slot: int, releaseAll: bool, needsReallocation: bool)

  /** The answers of the buffer queues and graphic buffers during one frame. */
  datatype FrameAnswers = FrameAnswers(
    acquired: bool,          // acquireBuffer succeeded
    dequeue: DequeueAnswer,
    requestOk: bool,         // requestBuffer succeeded
    buffer: nat,             // the buffer requestBuffer returned
    destLocked: bool,        // the destination buffer could be locked
    sourceLocked: bool,      // copyFrame could lock the source buffer
    stride: int,             // the destination buffer's stride
    queued: bool)            // queueBuffer succeeded

  /** The slot a dequeue names lies in the slot table. */
  predicate SlotInRange(a: FrameAnswers) {
    a.dequeue.Dequeued? ==> 0 <= a.dequeue.slot < NUM_BUFFER_SLOTS
  }

  /** A destination buffer is settled by a successful queue or a cancel. */
  predicate Settles(op: BufferOp, slot: int) {
    op == Queue(slot, true) || op == Cancel(slot)
  }

  /** The destination calls of one frame: none, or a dequeue settled by the
   *  last call with nothing dequeued in between. */
  predicate DestinationSettled(m: seq<BufferOp>) {
    m == [] ||
    (m[0].Dequeue? && Settles(m[|m| - 1], m[0].slot) &&
     forall i :: 0 < i < |m| ==> !m[i].Dequeue?)
  }

  /** The calls of one frame: none (uninitialised or nothing acquired), or
   *  an acquire, the settled destination calls and a release. */
  predicate FrameSettled(f: seq<BufferOp>) {
    f == [] || (|f| >= 2 && f[0] == Acquire && f[|f| - 1] == Release && DestinationSettled(f[1..|f| - 1]))
  }

  /** ALIGN(x, mask) on 32-bit values. */
  function Align(x: bv32, mask: bv32): bv32 {
    (x + mask - 1) & !(mask - 1)
  }

  /** ALIGN(x, 32) rounds x up to the nearest multiple of 32. */
  lemma AlignRoundsUp(x: bv32)
    requires x <= 0xFFFF_FFE0
    ensures Align(x, 32) & 31 == 0
    ensures x <= Align(x, 32) && Align(x, 32) - x < 32
  {
  }

  /** The aligned height copyFrame uses: ALIGN(height / 2, 32) * 2. */
  function AlignedHeight(height: bv32): bv32
    requires height < 0x8000_0000
  {
    var a := Align(height / 2, 32);
    a + a
  }

  /** The aligned height is a whole number of 64-row blocks. */
  lemma AlignedHeightIsBlocks(height: bv32)
    requires height < 0x8000_0000
    ensures AlignedHeight(height) & 63 == 0
  {
    AlignRoundsUp(height / 2);
  }

  /** The slot table after a dequeue: emptied on RELEASE_ALL_BUFFERS. */
  function Cleared(d: DequeueAnswer, before: seq<Option<nat>>): seq<Option<nat>> {
    if d.Dequeued? && d.releaseAll then seq(|before|, _ => None) else before
  }

  /** A buffer must be requested for the dequeued slot: reallocation is
   *  flagged or the slot holds no buffer. */
  predicate MustRequest(d: DequeueAnswer, before: seq<Option<nat>>)
    requires d.Dequeued? && 0 <= d.slot < |before|
  {
    d.needsReallocation || Cleared(d, before)[d.slot].None?
  }

  /** The frame obtains a destination buffer: the dequeue succeeds and any
   *  needed request succeeds. */
  predicate Obtains(a: FrameAnswers, before: seq<Option<nat>>)
    requires SlotInRange(a) && |before| == NUM_BUFFER_SLOTS
  {
    a.dequeue.Dequeued? && (MustRequest(a.dequeue, before) ==> a.requestOk)
  }

  class NativeInterposableSurface {
    const streamId: int
    /** mSlots: the destination buffers by slot. */
    const slots: array<Option<nat>>
    var initialized: bool
    /** The destination surface is connected and the consumer listens. */
    var connected: bool
    /** mSourceSurface, once created. */
    var sourceSurface: Option<nat>
    /** The buffer-queue calls made so far. */
    var ops: seq<BufferOp>

    ghost predicate Valid()
      reads this
    {
      slots.Length == NUM_BUFFER_SLOTS
    }

    constructor (streamId: int)
      ensures Valid() && fresh(slots)
      ensures this.streamId == streamId && !initialized && !connected && sourceSurface == None && ops == []
      ensures forall i :: 0 <= i < NUM_BUFFER_SLOTS ==> slots[i] == None
    {
      this.streamId := streamId;
      slots := new Option<nat>[NUM_BUFFER_SLOTS](_ => None);
      initialized := false;
      connected := false;
      sourceSurface := None;
      ops := [];
    }

    /** initialize: true at once when already initialised; false, still
     *  uninitialised, when the destination cannot be connected; otherwise
     *  the source queue and surface are created and the flag is set last. */
    method Initialize(connectOk: bool, newSource: nat) returns (ok: bool)
      modifies this`initialized, this`connected, this`sourceSurface
      ensures old(initialized) ==> ok && unchanged(this)
      ensures !old(initialized) && !connectOk ==> !ok && unchanged(this)
      ensures !old(initialized) && connectOk ==> ok && initialized && connected && sourceSurface == Some(newSource)
      ensures ok <==> initialized
    {
      if initialized {
        return true;
      }
      if !connectOk {
        return false;
      }
      sourceSurface := Some(newSource);
      connected := true;
      initialized := true;
      return true;
    }

    /** disconnect: tears the destination and consumer down only when
     *  initialised; never initialised afterwards. */
    method Disconnect()
      modifies this`initialized, this`connected
      ensures !initialized
      ensures old(initialized) ==> !connected
      ensures !old(initialized) ==> connected == old(connected)
    {
      if initialized {
        connected := false;
        initialized := false;
      }
    }

    /** freeDestBuffers: every slot emptied. */
    method FreeDestBuffers()
      requires Valid()
      modifies slots
      ensures forall i :: 0 <= i < slots.Length ==> slots[i] == None
    {
      for i := 0 to NUM_BUFFER_SLOTS
        invariant forall j :: 0 <= j < i ==> slots[j] == None
      {
        slots[i] := None;
      }
    }

    /** getDestBuffer: dequeues a destination slot, empties every slot first
     *  on RELEASE_ALL_BUFFERS, and requests a buffer exactly when the slot
     *  must be reallocated or is empty; a failed request cancels the slot. */
    method GetDestBuffer(a: FrameAnswers) returns (ok: bool)
      requires Valid() && SlotInRange(a)
      modifies slots, this`ops
      ensures a.dequeue.DequeueFailed? ==> !ok && ops == old(ops) && unchanged(slots)
      ensures ok <==> Obtains(a, old(slots[..]))
      ensures a.dequeue.Dequeued? && !ok ==>
                slots[..] == Cleared(a.dequeue, old(slots[..])) &&
                ops == old(ops) + [Dequeue(a.dequeue.slot), Cancel(a.dequeue.slot)]
      ensures ok ==>
                ops == old(ops) + [Dequeue(a.dequeue.slot)] &&
                slots[..] == (if MustRequest(a.dequeue, old(slots[..]))
                              then Cleared(a.dequeue, old(slots[..]))[a.dequeue.slot := Some(a.buffer)]
                              else Cleared(a.dequeue, old(slots[..])))
      ensures ok ==> slots[a.dequeue.slot].Some?
    {
      if a.dequeue.DequeueFailed? {
        return false;
      }
      var s := a.dequeue.slot;
      ops := ops + [Dequeue(s)];
      if a.dequeue.releaseAll {
        FreeDestBuffers();
        assert slots[..] == seq(NUM_BUFFER_SLOTS, _ => None);
      }
      if a.dequeue.needsReallocation || slots[s].None? {
        if !a.requestOk {
          ops := ops + [Cancel(s)];
          return false;
        }
        slots[s] := Some(a.buffer);
      }
      return true;
    }

    /** sendToDestination: queues the slot, cancelling it when queuing fails. */
    method SendToDestination(slot: int, queued: bool)
      modifies this`ops
      ensures ops == old(ops) + [Queue(slot, queued)] + (if queued then [] else [Cancel(slot)])
    {
      ops := ops + [Queue(slot, queued)];
      if !queued {
        ops := ops + [Cancel(slot)];
      }
    }

    /** onFrameAvailable: the calls are those FrameCalls describes; the
     *  destination slot table moves as in getDestBuffer. */
    method OnFrameAvailable(a: FrameAnswers)
      requires Valid() && SlotInRange(a)
      modifies slots, this`ops
      ensures ops == old(ops) + FrameCalls(a, initialized, old(slots[..]))
      ensures !initialized || !a.acquired ==> unchanged(slots)
      ensures initialized && a.acquired && Obtains(a, old(slots[..])) ==> slots[a.dequeue.slot].Some?
    {
      if !initialized {
        return;
      }
      if !a.acquired {
        return;
      }
      ops := ops + [Acquire];
      var ok := GetDestBuffer(a);
      if ok {
        var s := a.dequeue.slot;
        if a.destLocked && a.sourceLocked {
          ops := ops + [ToPlugin(a.stride)];
          SendToDestination(s, a.queued);
        } else {
          ops := ops + [Cancel(s)];
        }
      }
      ops := ops + [Release];
    }
  }

  /** The destination calls of one acquired frame. */
  function DestinationCalls(a: FrameAnswers, before: seq<Option<nat>>): seq<BufferOp>
    requires SlotInRange(a) && |before| == NUM_BUFFER_SLOTS
  {
    if a.dequeue.DequeueFailed? then []
    else
      var s := a.dequeue.slot;
      if Obtains(a, before) && a.destLocked && a.sourceLocked then
        [Dequeue(s), ToPlugin(a.stride), Queue(s, a.queued)] + (if a.queued then [] else [Cancel(s)])
      else
        [Dequeue(s), Cancel(s)]
  }

  /** The buffer-queue calls onFrameAvailable makes for one frame: none when
   *  uninitialised or when no source buffer is acquired; otherwise an
   *  acquire, the destination calls and a release. */
  function FrameCalls(a: FrameAnswers, initialized: bool, before: seq<Option<nat>>): seq<BufferOp>
    requires SlotInRange(a) && |before| == NUM_BUFFER_SLOTS
  {
    if !initialized || !a.acquired then []
    else [Acquire] + DestinationCalls(a, before) + [Release]
  }

  /** Every frame releases the source buffer it acquired and queues or
   *  cancels the destination buffer it dequeued. */
  lemma FrameCallsSettled(a: FrameAnswers, initialized: bool, before: seq<Option<nat>>)
    requires SlotInRange(a) && |before| == NUM_BUFFER_SLOTS
    ensures FrameSettled(FrameCalls(a, initialized, before))
  {
    var f := FrameCalls(a, initialized, before);
    if f != [] {
      assert f[1..|f| - 1] == DestinationCalls(a, before);
    }
  }

  /** The plugin sees a frame exactly when one is acquired, a destination
   *  buffer is obtained, and both buffers can be locked. */
  lemma PluginSeesFrame(a: FrameAnswers, initialized: bool, before: seq<Option<nat>>)
    requires SlotInRange(a) && |before| == NUM_BUFFER_SLOTS
    ensures ToPlugin(a.stride) in FrameCalls(a, initialized, before) <==>
              initialized && a.acquired && Obtains(a, before) && a.destLocked && a.sourceLocked
  {
    var f := FrameCalls(a, initialized, before);
    if initialized && a.acquired && Obtains(a, before) && a.destLocked && a.sourceLocked {
      assert f[2] == ToPlugin(a.stride);
    }
  }
}
