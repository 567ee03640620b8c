/**
 * The Java face of an interposable surface: it creates its native context,
 * keeps it only when initialisation succeeds, hands out the new source
 * surface the camera renders into, and forwards each frame to the camera
 * interposer.
 */
module InterposableSurfaces {
  import opened Wrappers
  import opened CameraStream
  import opened NativeSurface

  /** The onFrameAvailable call forwarded to the camera interposer. */
  datatype FrameCall = FrameCall(packageName: Option<string>, streamId: int, width: int, height: int,
                                 stride: int, format: int, nativePtr: int)

  /** nativeGetSourceSurface: no surface without a native context, else a
   *  Surface over the context's source surface. */
  function SourceSurfaceOf(ctx: NativeInterposableSurface?): (r: Option<Surface>)
    reads ctx
    ensures ctx == null ==> r == None
    ensures r.Some? ==> ctx != null && r.value.handle == ctx.sourceSurface && ctx.sourceSurface.Some?
  {
    if ctx == null || ctx.sourceSurface.None? then None else Some(Surface(ctx.sourceSurface))
  }

  class InterposableSurface {
    const packageName: Option<string>
    const streamId: int
    const width: int
    const height: int
    const format: int
    /** The app's surface, where modified frames finally go. */
    const destination: Option<Surface>
    /** The surface the camera should render into; None when initialisation failed. */
    const sourceSurface: Option<Surface>
    var initialized: bool
    /** mNativeContext: null once closed or when initialisation failed. */
    var nativeContext: NativeInterposableSurface?

    ghost predicate Valid()
      reads this, nativeContext
    {
      (initialized ==> nativeContext != null && nativeContext.initialized && nativeContext.connected) &&
      (nativeContext != null ==> nativeContext.Valid())
    }

    /** Runs nativeInit: a native context is created and initialised; it is
     *  kept, and the source surface created, only when the destination
     *  could be connected. */
    constructor (packageName: Option<string>, streamId: int, width: int, height: int, format: int,
                 destination: Option<Surface>, connectOk: bool, newSource: nat)
      ensures Valid()
      ensures this.packageName == packageName && this.streamId == streamId && this.width == width &&
              this.height == height && this.format == format && this.destination == destination
      ensures initialized == connectOk
      ensures connectOk ==> sourceSurface == Some(Surface(Some(newSource))) &&
                            fresh(nativeContext) && nativeContext.streamId == streamId &&
                            nativeContext.sourceSurface == Some(newSource)
      ensures !connectOk ==> sourceSurface == None && nativeContext == null
    {
      var ctx := new NativeInterposableSurface(streamId);
      var ok := ctx.Initialize(connectOk, newSource);
      this.packageName := packageName;
      this.streamId := streamId;
      this.width := width;
      this.height := height;
      this.format := format;
      this.destination := destination;
      initialized := ok;
      if ok {
        nativeContext := ctx;
        sourceSurface := SourceSurfaceOf(ctx);
      } else {
        nativeContext := null;
        sourceSurface := None;
      }
    }

    /** isInitialized. */
    function IsInitialized(): (r: bool)
      requires Valid()
      reads this, nativeContext
      ensures r ==> nativeContext != null && nativeContext.connected
    {
      initialized
    }

    /** getNewSurface: the source surface, kept even after close. */
    function GetNewSurface(): Option<Surface> {
      sourceSurface
    }

    /** close: disconnects and drops the native context if there is one,
     *  and marks the surface unusable. */
    method Close()
      modifies this`initialized, this`nativeContext, nativeContext
      ensures Valid() && !initialized && nativeContext == null
      ensures old(nativeContext) != null ==> !old(nativeContext).initialized
      ensures old(nativeContext) != null && old(nativeContext.initialized) ==> !old(nativeContext).connected
    {
      if nativeContext != null {
        nativeContext.Disconnect();
        nativeContext := null;
      }
      initialized := false;
    }

    /** onFrameAvailable: the frame reaches the interposer with this
     *  surface's package, stream and frame geometry. */
    function OnFrameAvailable(stride: int, nativePtr: int): (c: FrameCall)
      ensures c.packageName == packageName && c.streamId == streamId
      ensures c.width == width && c.height == height && c.format == format
      ensures c.stride == stride && c.nativePtr == nativePtr
    {
      FrameCall(packageName, streamId, width, height, stride, format, nativePtr)
    }
  }
}
