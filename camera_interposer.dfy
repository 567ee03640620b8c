/**
 * PluginCameraInterposer: the framework half of a plugin's camera
 * interposer. It keeps one interposable surface per (stream, package),
 * asks the plugin whether to interpose on a new stream, and answers the
 * camera service over binder; its proxy forwards only the two camera
 * reports and refuses every plugin-side call.
 */
module CameraInterposer {
  import opened Wrappers
  import opened ItemParcel
  import opened CameraStream
  import opened InterposableSurfaces

  /** IBinder.FIRST_CALL_TRANSACTION. */
  const FIRST_CALL_TRANSACTION: int := 1
  const TRANSACTION_FIRST_HIDDEN: int := FIRST_CALL_TRANSACTION + 100
  const TRANSACTION_REPORT_CAMERA_STREAM: int := TRANSACTION_FIRST_HIDDEN + 0
  const TRANSACTION_REPORT_SURFACE_DISCONNECTION: int := TRANSACTION_FIRST_HIDDEN + 1
  const DESCRIPTOR: string := "android.os.IPluginCameraInterposer"
  /** The reply header writeNoException writes and readException accepts. */
  const NO_EXCEPTION: Int32 := 0

  /** The key of a stream: its id and the package that owns it. */
  datatype StreamRecord = StreamRecord(streamId: int, packageName: Option<string>)

  /** StreamRecord.equals: same id and equal (possibly null) package names;
   *  it coincides with value equality, so the map can be keyed by value. */
  function RecordEquals(a: StreamRecord, b: StreamRecord): (r: bool)
    ensures r <==> a == b
  {
    a.streamId == b.streamId && a.packageName == b.packageName
  }

  /** The calls the interposer makes into the plugin. */
  datatype PluginCall =
    | ShouldInterpose(packageName: Option<string>, streamId: int, width: int, height: int, format: int)
    | CouldNotInterpose(packageName: Option<string>, streamId: int)
    | StreamDisconnecting(packageName: Option<string>, streamId: int)

  /** What the plugin and the native layer answer during one report. */
  datatype ReportAnswers = ReportAnswers(shouldInterpose: bool, connectOk: bool, newSource: nat)

  /** The reply to reportCameraStream: no exception, then a presence flag
   *  and the surface when there is one. */
  function ReplyFor(r: Option<Surface>): (items: seq<Item>)
    ensures |items| == if r.Some? then 3 else 2
    ensures items[0] == IntItem(NO_EXCEPTION)
  {
    [IntItem(NO_EXCEPTION)] + (if r.Some? then [IntItem(1), SurfaceItem(r.value.handle)] else [IntItem(0)])
  }

  /** What the proxy makes of a reply: a non-zero header is a remote
   *  exception; otherwise a non-zero flag means a surface follows. */
  function ReadReply(items: seq<Item>): Result<Option<Surface>> {
    if IntAt(items, 0) != NO_EXCEPTION then Threw(Runtime)
    else if IntAt(items, Next(items, 0)) != 0 then Ok(Some(Surface(SurfaceAt(items, Next(items, Next(items, 0))))))
    else Ok(None)
  }

  /** The proxy reads back exactly the surface, or its absence, that the
   *  stub replied with. */
  lemma ReplyRoundTrip(r: Option<Surface>)
    ensures ReadReply(ReplyFor(r)) == Ok(r)
  {
  }

  /** The request both camera reports send: the package, then the stream
   *  description. */
  function RequestFor(packageName: Option<string>, f: StreamFields): (items: seq<Item>)
    ensures |items| == 6
  {
    [StringItem(packageName)] + Encode(f)
  }

  /** The stub reads back the package and the stream description the proxy
   *  wrote. */
  lemma RequestRoundTrip(packageName: Option<string>, f: StreamFields)
    ensures StringAt(RequestFor(packageName, f), 0) == packageName
    ensures Decode(RequestFor(packageName, f), 1) == Decoded(f, 6)
  {
    DecodeEncode([StringItem(packageName)], f, []);
    assert RequestFor(packageName, f) == [StringItem(packageName)] + Encode(f) + [];
  }

  class PluginCameraInterposer {
    /** mStreams: null until the first report. */
    var streams: Option<map<StreamRecord, InterposableSurface>>
    /** The plugin calls made so far. */
    var calls: seq<PluginCall>

    constructor ()
      ensures streams == None && calls == []
      ensures Valid()
    {
      streams := None;
      calls := [];
    }

    /** The map, empty while it has not been created. */
    function Streams(): map<StreamRecord, InterposableSurface>
      reads this`streams
    {
      if streams.Some? then streams.value else map[]
    }

    /** Each registered surface belongs to the stream it is filed under and
     *  has a source surface to hand out. */
    ghost predicate Valid()
      reads this`streams
    {
      forall k :: k in Streams() ==>
        Streams()[k].streamId == k.streamId && Streams()[k].packageName == k.packageName &&
        Streams()[k].sourceSurface.Some?
    }

    /** reportCameraStream: a stream already registered gets its surface
     *  back without consulting the plugin; otherwise the plugin is asked,
     *  a refusal gives null, a surface that cannot be initialised is
     *  reported to the plugin and gives null, and a working surface is
     *  registered and its new source surface returned. */
    method ReportCameraStream(packageName: Option<string>, info: CameraStreamInfo, a: ReportAnswers)
      returns (r: Option<Surface>)
      requires Valid()
      modifies this`streams, this`calls
      ensures Valid() && streams.Some?
      ensures var key := StreamRecord(info.streamId, packageName);
              var ask := ShouldInterpose(packageName, info.streamId, info.width, info.height, info.format);
              if key in old(Streams()) then
                r == old(Streams())[key].GetNewSurface() && r.Some? &&
                Streams() == old(Streams()) && calls == old(calls)
              else if !a.shouldInterpose then
                r == None && Streams() == old(Streams()) && calls == old(calls) + [ask]
              else if !a.connectOk then
                r == None && Streams() == old(Streams()) &&
                calls == old(calls) + [ask, CouldNotInterpose(packageName, info.streamId)]
              else
                r == Some(Surface(Some(a.newSource))) && key in Streams() && Streams()[key].GetNewSurface() == r &&
                fresh(Streams()[key]) && Streams()[key].initialized &&
                Streams()[key].destination == info.surface &&
                Streams() == old(Streams())[key := Streams()[key]] && calls == old(calls) + [ask]
    {
      if streams.None? {
        streams := Some(map[]);
      }
      var key := StreamRecord(info.streamId, packageName);
      if key in streams.value {
        return streams.value[key].GetNewSurface();
      }
      calls := calls + [ShouldInterpose(packageName, info.streamId, info.width, info.height, info.format)];
      if !a.shouldInterpose {
        return None;
      }
      var surface := new InterposableSurface(packageName, info.streamId, info.width, info.height, info.format,
                                             info.surface, a.connectOk, a.newSource);
      if !surface.initialized {
        calls := calls + [CouldNotInterpose(packageName, info.streamId)];
        return None;
      }
      streams := Some(streams.value[key := surface]);
      return surface.GetNewSurface();
    }

    /** The native contexts of the registered surfaces. */
    function Contexts(): set<object>
      reads this`streams, Streams().Values
    {
      set s | s in Streams().Values && s.nativeContext != null :: s.nativeContext
    }

    /** reportSurfaceDisconnection: nothing happens for an unknown stream;
     *  otherwise the plugin hears streamDisconnecting first, then the
     *  surface is closed and unregistered. */
    method ReportSurfaceDisconnection(packageName: Option<string>, info: CameraStreamInfo)
      requires Valid()
      modifies this`streams, this`calls, Streams().Values, Contexts()
      ensures Valid()
      ensures var key := StreamRecord(info.streamId, packageName);
              if key !in old(Streams()) then
                streams == old(streams) && calls == old(calls)
              else
                calls == old(calls) + [StreamDisconnecting(packageName, info.streamId)] &&
                Streams() == old(Streams()) - {key} &&
                !old(Streams())[key].initialized && old(Streams())[key].nativeContext == null
    {
      if streams.None? {
        return;
      }
      var key := StreamRecord(info.streamId, packageName);
      if key !in streams.value {
        return;
      }
      var surface := streams.value[key];
      calls := calls + [StreamDisconnecting(packageName, info.streamId)];
      surface.Close();
      streams := Some(streams.value - {key});
    }

    /** onTransact for reportCameraStream: reads the request, reports the
     *  stream, and replies with the surface or its absence. */
    method TransactReportCameraStream(data: Parcel, reply: Parcel, flags: int, a: ReportAnswers)
      returns (ghost result: Option<Surface>)
      requires Valid() && data != reply
      modifies this`streams, this`calls, data`pos, reply`items
      ensures Valid()
      ensures reply.items == old(reply.items) + ReplyFor(result)
      ensures var pkg := StringAt(data.items, old(data.pos));
              var f := Decode(data.items, Next(data.items, old(data.pos)));
              data.pos == f.end &&
              (result.Some? <==> StreamRecord(f.fields.streamId, pkg) in Streams()) &&
              (result.Some? ==> result == Streams()[StreamRecord(f.fields.streamId, pkg)].GetNewSurface())
    {
      var packageName := data.ReadString();
      var info := CreateFromParcel(data);
      var r := ReportCameraStream(packageName, info, a);
      reply.WriteInt(NO_EXCEPTION);
      if r.Some? {
        reply.WriteInt(1);
        reply.WriteSurface(r.value.handle);
      } else {
        reply.WriteInt(0);
      }
      result := r;
    }

    /** onTransact for reportSurfaceDisconnection: reads the request,
     *  reports the disconnection, and replies with no exception. */
    method TransactReportSurfaceDisconnection(data: Parcel, reply: Parcel, flags: int)
      requires Valid() && data != reply
      modifies this`streams, this`calls, data`pos, reply`items, Streams().Values, Contexts()
      ensures Valid()
      ensures reply.items == old(reply.items) + [IntItem(NO_EXCEPTION)]
      ensures var pkg := StringAt(data.items, old(data.pos));
              var f := Decode(data.items, Next(data.items, old(data.pos)));
              data.pos == f.end && StreamRecord(f.fields.streamId, pkg) !in Streams()
    {
      var packageName := data.ReadString();
      var info := CreateFromParcel(data);
      ReportSurfaceDisconnection(packageName, info);
      reply.WriteInt(NO_EXCEPTION);
    }

    /** onTransact: the two camera reports are handled here; any other code
     *  is left to Binder. */
    method OnTransact(code: int, data: Parcel, reply: Parcel, flags: int, a: ReportAnswers)
      returns (handled: bool)
      requires Valid() && data != reply
      modifies this`streams, this`calls, data`pos, reply`items, Streams().Values, Contexts()
      ensures Valid()
      ensures handled <==> code == TRANSACTION_REPORT_CAMERA_STREAM || code == TRANSACTION_REPORT_SURFACE_DISCONNECTION
      ensures !handled ==> streams == old(streams) && calls == old(calls) && reply.items == old(reply.items)
      ensures handled ==> |reply.items| > |old(reply.items)| && reply.items[|old(reply.items)|] == IntItem(NO_EXCEPTION)
    {
      if code == TRANSACTION_REPORT_CAMERA_STREAM {
        ghost var result := TransactReportCameraStream(data, reply, flags, a);
        return true;
      } else if code == TRANSACTION_REPORT_SURFACE_DISCONNECTION {
        TransactReportSurfaceDisconnection(data, reply, flags);
        return true;
      }
      return false;
    }
  }

  /** The client side of a remote camera interposer. */
  class PluginCameraInterposerProxy {
    /** mRemote: the binder handle of the interposer. */
    const remote: nat

    constructor (remote: nat)
      ensures this.remote == remote
    {
      this.remote := remote;
    }

    /** asBinder. */
    function AsBinder(): (b: nat)
      ensures b == remote
    {
      remote
    }

    function GetInterfaceDescriptor(): string {
      DESCRIPTOR
    }

    /** shouldInterpose is a plugin-side call the proxy refuses. */
    function ShouldInterpose(packageName: Option<string>, streamId: int, width: int, height: int, format: int): (r: Result<bool>)
      ensures r.Threw? && r.error == UnsupportedOperation
    {
      Threw(UnsupportedOperation)
    }

    /** streamDisconnecting is a plugin-side call the proxy refuses. */
    function StreamDisconnecting(packageName: Option<string>, streamId: int): (r: Result<()>)
      ensures r.Threw? && r.error == UnsupportedOperation
    {
      Threw(UnsupportedOperation)
    }

    /** couldNotInterpose is a plugin-side call the proxy refuses. */
    function CouldNotInterpose(packageName: Option<string>, streamId: int): (r: Result<()>)
      ensures r.Threw? && r.error == UnsupportedOperation
    {
      Threw(UnsupportedOperation)
    }

    /** onFrameAvailable is a plugin-side call the proxy refuses. */
    function OnFrameAvailable(packageName: Option<string>, streamId: int, width: int, height: int,
                              stride: int, format: int, framePtr: int): (r: Result<()>)
      ensures r.Threw? && r.error == UnsupportedOperation
    {
      Threw(UnsupportedOperation)
    }

    /** reportCameraStream: sends the package and the stream description,
     *  and reads the reply the remote side returns; a stream description
     *  without a surface throws before anything is sent. */
    method ReportCameraStream(packageName: Option<string>, info: CameraStreamInfo, replyItems: seq<Item>)
      returns (r: Result<Option<Surface>>, sent: seq<Item>)
      ensures info.surface.None? ==> r == Threw(NullPointer)
      ensures info.surface.Some? ==> sent == RequestFor(packageName, info.Fields()) && r == ReadReply(replyItems)
    {
      var data := new Parcel.Obtain();
      data.WriteString(packageName);
      var w := info.WriteToParcel(data, 0);
      sent := data.items;
      if w.Threw? {
        return Threw(w.error), sent;
      }
      var reply := new Parcel.Obtain();
      reply.items := replyItems;
      var header := reply.ReadInt();
      if header != NO_EXCEPTION {
        return Threw(Runtime), sent;
      }
      var hasResult := reply.ReadInt();
      if hasResult != 0 {
        var handle := reply.ReadSurface();
        r := Ok(Some(Surface(handle)));
      } else {
        r := Ok(None);
      }
    }

    /** reportSurfaceDisconnection: sends the same request and checks the
     *  reply header. */
    method ReportSurfaceDisconnection(packageName: Option<string>, info: CameraStreamInfo, replyItems: seq<Item>)
      returns (r: Result<()>, sent: seq<Item>)
      ensures info.surface.None? ==> r == Threw(NullPointer)
      ensures info.surface.Some? ==> sent == RequestFor(packageName, info.Fields()) &&
                                     (r.Ok? <==> IntAt(replyItems, 0) == NO_EXCEPTION)
    {
      var data := new Parcel.Obtain();
      data.WriteString(packageName);
      var w := info.WriteToParcel(data, 0);
      sent := data.items;
      if w.Threw? {
        return Threw(w.error), sent;
      }
      var reply := new Parcel.Obtain();
      reply.items := replyItems;
      var header := reply.ReadInt();
      if header != NO_EXCEPTION {
        return Threw(Runtime), sent;
      }
      return Ok(()), sent;
    }
  }

  /** asInterface: null for a null binder, otherwise a new proxy on it. */
  method AsInterface(obj: Option<nat>) returns (p: PluginCameraInterposerProxy?)
    ensures obj.None? <==> p == null
    ensures p != null ==> fresh(p) && p.remote == obj.value
  {
    if obj.None? {
      return null;
    }
    p := new PluginCameraInterposerProxy(obj.value);
  }
}
