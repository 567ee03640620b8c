# Permissions plugins: a Dafny model

This fork of the Android framework lets third-party "permissions plugins" reshape the data an app
receives. Four paths are modelled:

- **Binder parcels.** When a binder transaction carries perturbable objects (locations, contacts and
  calendar cursor windows), `PermissionsPluginManager` asks each connected plugin's interposer for a
  replacement. It then splices a new parcel: it copies the source bytes between the recorded objects
  and re-emits each binder or perturbable object, writing the replacement where there is one.
- **Plugin services.** `PluginProxy` and `PluginService` bind to a plugin's service and fetch its
  interposer handles. `PermissionsPluginDb` stores plugin records in SQLite, and
  `PermissionsPlugin` is their parcelable form.
- **Camera frames.** `PluginCameraInterposer` decides per camera stream whether to interpose. It
  then creates an `InterposableSurface`, whose native side copies every frame into a buffer the
  plugin can rewrite before the frame is queued to the original destination.
- **Location and storage.** `PermissionsPluginProxyManager` hooks
  `FusedLocationProviderClient.requestLocationUpdates`, so that every location result passes
  through the plugins' location interposers (`LocationHooks`). For storage, a ptrace-based tracer
  stops the app at each `openat` entry. It reads the path out of the tracee, and for a path under
  external storage it asks the storage plugin for a replacement path. The tracer writes that path
  on the tracee's stack, at the stack pointer less the path's length with its terminator less the
  red zone, and points `x1` at it.

Each Java object whose fields are updated becomes a Dafny `class` with `modifies` frames. Pure
computations become functions with lemmas about them. The tracer's C loops are methods proved
against reference functions. Remote calls, `bindService`, reflection, graphics buffers and ptrace
answers are parameters: each call's outcome is an argument of the operation.

Modules:
- `Wrappers`: `Option` and `Result`, the Java exceptions that can be thrown.
- `Splice`: the byte-level splice of a parcel.
- `ParcelRecords`: `ParcelObject` and the recording byte parcel.
- `PluginManager`: `PermissionsPluginManager`.
- `PluginConnection`: `PluginProxy` and `PluginService`.
- `ItemParcel`: a typed-item parcel for the `Parcelable` classes.
- `PluginRecord`: `PermissionsPlugin`.
- `PluginDatabase`: `PermissionsPluginDb`.
- `CameraStream`: `CameraStreamInfo`.
- `NativeSurface`: the JNI `InterposableSurface`.
- `InterposableSurfaces`: the Java `InterposableSurface`.
- `CameraInterposer`: `PluginCameraInterposer` and its proxy.
- `ProxyManager`: `PermissionsPluginProxyManager`.
- `LocationHooks`: the location hook.
- `StoragePaths`: the external storage prefixes.
- `TracerMemory`: tracee memory access and the aarch64 `openat` interposition.
- `StorageTracer`: the tracer's setup and wait loop.

`core/jni/storage_tracer.cpp:169-220` repeats `ReadStringFromPid`, `starts_with` and
`is_on_external_storage` from the two headers. The same members model both copies.

## Model

| member | source | states |
|---|---|---|
| Splice.SplicedIsClosedForm | core/java/android/os/PermissionsPluginManager.java:110-150 | For in-bounds, sorted records that are all binder or perturbable, the target is: the source up to the first record, that record's emitted bytes, the source gap to the next record, and so on, then the source tail after the last record |
| Splice.SplicedLength | core/java/android/os/PermissionsPluginManager.java:110-150 | The target's length is the source's length, minus the bytes the records cover, plus the bytes they emit |
| Splice.SplicedUnmodifiedIsSource | core/java/android/os/PermissionsPluginManager.java:110-150 | When every record re-emits exactly the bytes it covers, the target equals the source |
| Splice.SplicedOne | core/java/android/os/PermissionsPluginManager.java:116-149 | With a single record [s, e) emitting b, the target is source[..s] + b + source[e..] |
| ParcelRecords.ParcelObject.constructor | core/java/android/os/ParcelObject.java:22-26 | The record keeps the object, start position and type it was given; the end position starts at 0 and there is no replacement yet |
| ParcelRecords.ParcelObject.Perturbable | core/java/android/os/PermissionsPluginManager.java:154-159 | A perturbable record has type PERTURBABLE_OBJECT and carries its category and metadata; the end position starts at 0 and there is no replacement yet |
| ParcelRecords.ParcelObject.SetEndPos | core/java/android/os/ParcelObject.java:28-30 | Sets the end position and changes nothing else |
| ParcelRecords.ParcelObject.SetPerturbedObject | core/java/android/os/PermissionsPluginManager.java:165 | Records the replacement and changes nothing else |
| PluginManager.InterposerFor | core/java/android/os/PermissionsPluginManager.java:52-61 | Every category other than storage maps to an interposer name a plugin proxy fetches; the storage interposer name is chosen exactly for the storage category |
| PluginManager.CopySourceToTargetParcel | core/java/android/os/PermissionsPluginManager.java:110-150 | Appends exactly the splice of the source around the queued records to the target and stops the target's recording. It succeeds iff every queued record is binder or perturbable. Otherwise it throws UnsupportedOperationException, and the first unsupported record heads the records not yet written |
| PluginManager.CopyRecords | core/java/android/os/PermissionsPluginManager.java:116-144 | The loop either stops at the first record whose kind is neither binder nor perturbable, having appended the whole splice up to that record's gap, or writes every record; then what it appended, followed by the source tail from the returned cursor, is the whole splice |
| PluginManager.CopyTail | core/java/android/os/PermissionsPluginManager.java:146-149 | Appends the source bytes from the cursor to the end, or nothing when the cursor is at or past the end |
| PluginManager.WriteRecord | core/java/android/os/PermissionsPluginManager.java:123-140 | Writes a binder's handle, or a perturbable's replacement or original, exactly when the record's kind has an emission; any other kind writes nothing |
| PluginManager.Perturbed | core/java/android/os/PermissionsPluginManager.java:152-248 | The result is the previous replacement or the interposer's answer. Without the category's interposer handle, or without metadata for contacts or calendar, the replacement does not change. A non-null contacts or calendar answer replaces it. A location answer always replaces it |
| PluginManager.PerturbObject | core/java/android/os/PermissionsPluginManager.java:152-248 | The record's replacement becomes the one the category's interposer yields for the target package |
| PluginManager.LatestIsOriginalOrAnswer | core/java/android/os/PermissionsPluginManager.java:152-248 | Starting without a replacement, a record ends with either no replacement or exactly the interposer's answer |
| PluginManager.PerturbedIdempotent | core/java/android/os/PermissionsPluginManager.java:152-248 | Perturbing a record again through the same handles leaves its replacement as the first perturbation set it |
| PluginManager.QueueIsSubsequence | core/java/android/os/PermissionsPluginManager.java:263-313 | Every queued record was recorded, every binder record is queued, and every queued perturbable has an active plugin for its category whose first entry was connected or connects |
| PluginManager.QueueSupported | core/java/android/os/PermissionsPluginManager.java:263-313 | A queue built from known kinds never reaches the unsupported branch of the copy |
| PluginManager.UnknownKindUnsupported | core/java/android/os/PermissionsPluginManager.java:135-139 | A queue holding a record of unknown type cannot be copied without the exception |
| PluginManager.Resolve | core/java/android/os/PermissionsPluginManager.java:347-366 | The package for a pid is the first name the package manager returns. An empty array throws ArrayIndexOutOfBoundsException. No activity manager, a remote failure or a null array yields the empty name |
| PluginManager.CachedNameIsReused | core/java/android/os/PermissionsPluginManager.java:338-344 | Once a non-empty name is cached for a pid, later lookups return it whatever the package manager would now say |
| PluginManager.EmptyNameIsRequeried | core/java/android/os/PermissionsPluginManager.java:344-371 | An empty result is cached, but the next lookup asks the package manager again |
| PluginManager.PermissionsPluginManager.constructor | core/java/android/os/PermissionsPluginManager.java:37-50 | Starts with no proxies, no cached pids, no storage tracer package and no storage interposer |
| PluginManager.PermissionsPluginManager.ConnectToPluginService | core/java/android/os/PermissionsPluginManager.java:63-108 | Reuses the package's proxy or creates one. A plugin that is already connected is left untouched. Otherwise it binds when there is a context and bindService accepts. The set of connected plugins changes only for this package |
| PluginManager.PermissionsPluginManager.QueuedEmission | core/java/android/os/PermissionsPluginManager.java:129-133 | An admitted perturbable that had no replacement is re-emitted as its original or as a non-null answer of its first plugin's interposer; when that interposer answers non-null and the record qualifies, the answer is what is re-emitted |
| PluginManager.PermissionsPluginManager.PerturbAllDataImpl | core/java/android/os/PermissionsPluginManager.java:250-321 | Without perturbables it returns null and changes nothing. A record of unknown type throws. Otherwise the target receives the splice of the queue that the loop built, and recording stops. Each admitted perturbable then holds what its first active plugin's interposer made of it, through that plugin's proxy handles; every record left out of the queue keeps its replacement |
| PluginManager.PermissionsPluginManager.QueueRecords | core/java/android/os/PermissionsPluginManager.java:263-313 | Reports whether every record has a known type; if so, the queue equals the reference queue over the plugins connected at the start, each admitted perturbable holds the interposer's result through its first plugin's proxy, and that plugin is connected. A record left out of the queue keeps its replacement |
| PluginManager.PermissionsPluginManager.ProcessRecord | core/java/android/os/PermissionsPluginManager.java:264-305 | A record is admitted exactly as the reference says. An admitted perturbable then holds what perturbObject made of its previous replacement through the handles of its first plugin's proxy, which is connected. Connected plugins only grow, only by plugins whose bind succeeds, and keep their handles. A record that is not admitted keeps its replacement |
| PluginManager.PermissionsPluginManager.GetPackageForPid | core/java/android/os/PermissionsPluginManager.java:333-374 | Returns the cached or resolved name, and updates the cache as the caching reference says |
| PluginManager.PermissionsPluginManager.PerturbDataForBinderProxy | core/java/android/os/PermissionsPluginManager.java:379-391 | Without perturbables nothing changes and it returns null. Otherwise it resolves the target pid's package: a failed lookup throws, an empty name returns null, an unknown record type throws, and otherwise it returns a new parcel holding the splice for that package, each admitted perturbable holding its interposer's result |
| PluginManager.PermissionsPluginManager.FixupParcelForBinder | core/java/android/os/PermissionsPluginManager.java:396-419 | Without perturbables, or when the calling pid's package is empty, the target receives the splice of all recorded objects, and the call succeeds iff each is a binder or perturbable. A failed lookup throws and leaves the target alone. Otherwise the target receives the splice of the queue for that package, each admitted perturbable holding its interposer's result |
| PluginManager.PermissionsPluginManager.FixupPerturbables | core/java/android/os/PermissionsPluginManager.java:404-419 | For a source with perturbables: a failed lookup throws and leaves the target alone; an empty package copies all recorded objects; otherwise the target receives the perturbed splice for the package |
| PluginManager.PermissionsPluginManager.PerturbInto | core/java/android/os/PermissionsPluginManager.java:411-418 | An unknown record type throws; otherwise the call succeeds, the given target receives the splice of the queue, and each admitted perturbable holds its interposer's result |
| PluginManager.PermissionsPluginManager.SetInterposerForStorageTracer | core/java/android/os/PermissionsPluginManager.java:562-581 | The first call fixes the tracer's package. A call naming a different package afterwards throws RuntimeException and keeps the old interposer. Otherwise the storage interposer is fetched from that package's plugin |
| PluginConnection.RetrieveSlot | core/java/android/os/PluginProxy.java:101-137 | A requested known interposer whose service answers with a binder gets that binder; every other handle keeps its value |
| PluginConnection.RetrieveIgnoresUnknown | core/java/android/os/PluginProxy.java:101-137 | Names outside the known interposers change no handle |
| PluginConnection.PluginProxy.constructor | core/java/android/os/PluginProxy.java:54-58 | Stores the package and the requested interposers, targets the package's plugin main component, and starts unbound with no handles |
| PluginConnection.PluginProxy.Connect | core/java/android/os/PluginProxy.java:144-163 | Starts connecting exactly when there is a context and bindService accepts |
| PluginConnection.PluginProxy.RetrieveInterposers | core/java/android/os/PluginProxy.java:101-137 | The handles become the fold of the service's answers over the requested names |
| PluginConnection.PluginProxy.OnServiceConnected | core/java/android/os/PluginProxy.java:61-70 | Keeps the binder, fetches the interposers, and is connected and no longer connecting |
| PluginConnection.PluginProxy.Reset | core/java/android/os/PluginProxy.java:92-97 | Clears the service and the location handle, and is neither connected nor connecting; the other handles are not cleared |
| PluginConnection.PluginProxy.OnServiceDisconnected | core/java/android/os/PluginProxy.java:73-78 | Resets the proxy |
| PluginConnection.PluginProxy.OnBindingDied | core/java/android/os/PluginProxy.java:81-90 | Resets the proxy |
| PluginConnection.RetrieveLocationResult | core/java/android/os/PluginService.java:91-101 | Only "location" is fetched. The handle becomes the service's answer, null included, unless the call fails remotely |
| PluginConnection.PluginService.constructor | core/java/android/os/PluginService.java:45-49 | Stores the package and interposers, targets the plugin main component, and starts unbound |
| PluginConnection.PluginService.Connect | core/java/android/os/PluginService.java:108-127 | Starts connecting exactly when there is a context and bindService accepts |
| PluginConnection.PluginService.RetrieveInterposers | core/java/android/os/PluginService.java:91-101 | The location handle becomes what the location fetch yields |
| PluginConnection.PluginService.OnServiceConnected | core/java/android/os/PluginService.java:52-60 | Keeps the binder, fetches the location interposer, and is connected |
| PluginConnection.PluginService.Reset | core/java/android/os/PluginService.java:82-87 | Clears the service and location handle; neither connected nor connecting |
| PluginConnection.PluginService.OnServiceDisconnected | core/java/android/os/PluginService.java:63-68 | Resets the service |
| PluginConnection.PluginService.OnBindingDied | core/java/android/os/PluginService.java:71-80 | Resets the service |
| PluginRecord.ActiveFlag | core/java/com/android/permissionsplugin/PermissionsPlugin.java:86 | The active flag is written as 1 exactly when active and 0 exactly when not |
| PluginRecord.DecodeEncode | core/java/com/android/permissionsplugin/PermissionsPlugin.java:68-87 | Reading a plugin back from where it was written, with anything before or after it, yields the same plugin and consumes exactly seven items |
| PluginRecord.PermissionsPlugin.constructor | core/java/com/android/permissionsplugin/PermissionsPlugin.java:40-52 | A new plugin has no id, empty lists and is inactive |
| PluginRecord.PermissionsPlugin.FromParcel | core/java/com/android/permissionsplugin/PermissionsPlugin.java:68-76 | Reads the seven fields in write order and advances past them |
| PluginRecord.PermissionsPlugin.WriteToParcel | core/java/com/android/permissionsplugin/PermissionsPlugin.java:79-87 | Appends exactly the plugin's seven-item encoding |
| ItemParcel.ToInt32 | core/java/com/android/permissionsplugin/PermissionsPluginDb.java:140 | A value in 32-bit range is unchanged; otherwise it wraps modulo 2^32 |
| PluginDatabase.JoinSplitRoundTrip | core/java/com/android/permissionsplugin/PermissionsPluginDb.java:143-156 | Java's split undoes the comma join for any non-empty list whose elements are all non-empty and comma-free |
| PluginDatabase.EmptyListLoadsAsOneEmptyString | core/java/com/android/permissionsplugin/PermissionsPluginDb.java:143-156 | As written, an empty list is stored as "" and loads back as [""] |
| PluginDatabase.SplitListRoundTrip | core/java/com/android/permissionsplugin/PermissionsPluginDb.java:143-156 | The corrected split undoes the join for every list of comma-free names, the empty list included |
| PluginDatabase.RowOf | core/java/com/android/permissionsplugin/PermissionsPluginDb.java:189-205 | A null list throws NullPointerException. A null package name stores no row. Otherwise the row holds the joined lists and the active flag |
| PluginDatabase.StoreLoadRoundTrip | core/java/com/android/permissionsplugin/PermissionsPluginDb.java:136-160 | A plugin with a package and four non-empty lists of non-empty comma-free names, stored and loaded back with Java's split, equals what was stored, with the row's id |
| PluginDatabase.StoreLoadEmptyList | core/java/com/android/permissionsplugin/PermissionsPluginDb.java:136-160 | A stored plugin with an empty supported-packages list loads back with [""] in its place, so it differs from what was stored |
| PluginDatabase.PermissionsPluginDb.constructor | core/java/com/android/permissionsplugin/PermissionsPluginDb.java:104-107 | Opens an empty table |
| PluginDatabase.PermissionsPluginDb.NextRowId | core/java/com/android/permissionsplugin/PermissionsPluginDb.java:208 | The new row id is positive, above every id in use, and follows the largest one |
| PluginDatabase.PermissionsPluginDb.InsertPlugin | core/java/com/android/permissionsplugin/PermissionsPluginDb.java:178-217 | A null plugin or an unopenable database inserts nothing and returns -1. A null list throws, and a null or already stored package returns -1; nothing changes in these cases. Otherwise the row is added under a fresh positive id and no other row changes |
| PluginDatabase.PermissionsPluginDb.DeletePlugin | core/java/com/android/permissionsplugin/PermissionsPluginDb.java:225-249 | A null plugin, a plugin without an id or an unopenable database deletes nothing and returns 0. Otherwise exactly the plugin's row goes, and the result is 1 iff it existed |
| PluginDatabase.PermissionsPluginDb.UpdatePlugin | core/java/com/android/permissionsplugin/PermissionsPluginDb.java:257-301 | Returns 0 and changes nothing for a null plugin, no id, an unopenable database, a null package, a missing row, or a package stored under another id. A null list throws. Otherwise exactly the plugin's row is rewritten and the result is 1 |
| PluginDatabase.PermissionsPluginDb.LoadPlugins | core/java/com/android/permissionsplugin/PermissionsPluginDb.java:115-171 | Returns one fresh plugin per stored package, each equal to its row as loaded with Java's split |
| PluginDatabase.PluginFromRow | core/java/com/android/permissionsplugin/PermissionsPluginDb.java:136-160 | Builds a fresh plugin holding exactly the row's loaded value, each list split with Java's split |
| CameraStream.DecodeEncode | core/java/android/hardware/CameraStreamInfo.java:79-94 | Reading a stream info from where it was written yields the same fields and consumes exactly five items |
| CameraStream.CameraStreamInfo.constructor | core/java/android/hardware/CameraStreamInfo.java:66 | A new info has zero fields and no surface |
| CameraStream.CameraStreamInfo.WriteToParcel | core/java/android/hardware/CameraStreamInfo.java:79-85 | Appends the five-item encoding; with no surface it throws NullPointerException |
| CameraStream.CameraStreamInfo.ReadFromParcel | core/java/android/hardware/CameraStreamInfo.java:87-94 | Reads the fields in write order, creates a surface and advances past the five items |
| CameraStream.CreateFromParcel | core/java/android/hardware/CameraStreamInfo.java:62-76 | Returns a fresh info read from the parcel |
| NativeSurface.AlignRoundsUp | core/jni/android_view_InterposableSurface.cpp:30 | ALIGN rounds up to the next multiple of 32 and adds less than 32 |
| NativeSurface.AlignedHeightIsBlocks | core/jni/android_view_InterposableSurface.cpp:201 | The aligned height is a multiple of 64 |
| NativeSurface.NativeInterposableSurface.constructor | core/jni/android_view_InterposableSurface.cpp:94-103 | Starts uninitialised and unconnected, with empty buffer slots |
| NativeSurface.NativeInterposableSurface.Initialize | core/jni/android_view_InterposableSurface.cpp:117-142 | Initialising twice is a no-op that succeeds. Otherwise it succeeds iff connecting works, and then keeps the new source surface |
| NativeSurface.NativeInterposableSurface.Disconnect | core/jni/android_view_InterposableSurface.cpp:105-115 | Afterwards it is uninitialised; only an initialised surface disconnects |
| NativeSurface.NativeInterposableSurface.FreeDestBuffers | core/jni/android_view_InterposableSurface.cpp:144-149 | Every slot is emptied |
| NativeSurface.NativeInterposableSurface.GetDestBuffer | core/jni/android_view_InterposableSurface.cpp:151-187 | A failed dequeue fails with no effect. It succeeds iff a buffer is obtained for the dequeued slot; the slot is re-requested when the queue asks or when it is empty. A failed request cancels the buffer and leaves the slots as the release-all step left them |
| NativeSurface.NativeInterposableSurface.SendToDestination | core/jni/android_view_InterposableSurface.cpp:221-238 | Queues the buffer, and cancels it when queueing fails |
| NativeSurface.NativeInterposableSurface.OnFrameAvailable | core/jni/android_view_InterposableSurface.cpp:240-282 | The calls made are exactly the reference frame sequence, and slots change only when a frame is acquired |
| NativeSurface.FrameCallsSettled | core/jni/android_view_InterposableSurface.cpp:240-282 | Every acquired source buffer is released, and every dequeued destination buffer is either queued or cancelled |
| NativeSurface.PluginSeesFrame | core/jni/android_view_InterposableSurface.cpp:240-282 | The plugin is called exactly when the surface is initialised and the frame is acquired, a destination buffer is obtained, and both buffers lock |
| InterposableSurfaces.SourceSurfaceOf | core/jni/android_view_InterposableSurface.cpp:358-367 | No native context gives no surface; a surface always wraps the context's source handle |
| InterposableSurfaces.InterposableSurface.constructor | core/java/android/view/InterposableSurface.java:59-76 | Stores the stream's description. It is initialised iff the native side connects, and then holds the native source surface; otherwise it has no native context |
| InterposableSurfaces.InterposableSurface.IsInitialized | core/java/android/view/InterposableSurface.java:87-89 | Initialised implies a connected native context |
| InterposableSurfaces.InterposableSurface.Close | core/java/android/view/InterposableSurface.java:104-107 | Drops the native context after disconnecting it; afterwards it is uninitialised |
| InterposableSurfaces.InterposableSurface.OnFrameAvailable | core/java/android/view/InterposableSurface.java:109-112 | The plugin call carries the stream's package, id, size and format with the frame's stride and data pointer |
| CameraInterposer.RecordEquals | core/java/android/os/PluginCameraInterposer.java:133-141 | Two stream records are equal iff both stream id and package agree |
| CameraInterposer.ReplyRoundTrip | core/java/android/os/PluginCameraInterposer.java:182-189 | The proxy reads back the surface, or null, that the stub wrote after the no-exception header |
| CameraInterposer.RequestRoundTrip | core/java/android/os/PluginCameraInterposer.java:260-286 | The stub reads back the package and stream fields that the proxy wrote |
| CameraInterposer.PluginCameraInterposer.constructor | core/java/android/os/PluginCameraInterposer.java:22-24 | Starts with no stream map and no plugin calls |
| CameraInterposer.PluginCameraInterposer.ReportCameraStream | core/java/android/os/PluginCameraInterposer.java:26-93 | A known stream returns its existing surface. A declined stream returns null. A failed initialisation reports couldNotInterpose and returns null. Otherwise a fresh interposable surface for the stream's destination is added under its key |
| CameraInterposer.PluginCameraInterposer.ReportSurfaceDisconnection | core/java/android/os/PluginCameraInterposer.java:95-123 | A known stream is closed and removed and the plugin is told; otherwise nothing changes |
| CameraInterposer.PluginCameraInterposer.TransactReportCameraStream | core/java/android/os/PluginCameraInterposer.java:173-192 | Reads the request, reports the stream, and writes the no-exception reply with the result |
| CameraInterposer.PluginCameraInterposer.TransactReportSurfaceDisconnection | core/java/android/os/PluginCameraInterposer.java:194-205 | Reads the request, reports the disconnection, and writes the no-exception reply |
| CameraInterposer.PluginCameraInterposer.OnTransact | core/java/android/os/PluginCameraInterposer.java:168-209 | Handles exactly the two transaction codes. Any other code changes nothing |
| CameraInterposer.PluginCameraInterposerProxy.constructor | core/java/android/os/PluginCameraInterposer.java:219-222 | Keeps the remote binder |
| CameraInterposer.PluginCameraInterposerProxy.AsBinder | core/java/android/os/PluginCameraInterposer.java:224-228 | Returns the remote binder |
| CameraInterposer.PluginCameraInterposerProxy.ShouldInterpose | core/java/android/os/PluginCameraInterposer.java:235-239 | Always throws UnsupportedOperationException |
| CameraInterposer.PluginCameraInterposerProxy.StreamDisconnecting | core/java/android/os/PluginCameraInterposer.java:241-245 | Always throws UnsupportedOperationException |
| CameraInterposer.PluginCameraInterposerProxy.CouldNotInterpose | core/java/android/os/PluginCameraInterposer.java:247-251 | Always throws UnsupportedOperationException |
| CameraInterposer.PluginCameraInterposerProxy.OnFrameAvailable | core/java/android/os/PluginCameraInterposer.java:253-258 | Always throws UnsupportedOperationException |
| CameraInterposer.PluginCameraInterposerProxy.ReportCameraStream | core/java/android/os/PluginCameraInterposer.java:260-286 | Sends the request encoding and returns what the reply decodes to; a missing surface throws NullPointerException |
| CameraInterposer.PluginCameraInterposerProxy.ReportSurfaceDisconnection | core/java/android/os/PluginCameraInterposer.java:288-305 | Sends the request encoding and reads the reply header; a missing surface throws NullPointerException |
| CameraInterposer.AsInterface | core/java/android/os/PluginCameraInterposer.java:153-160 | Null gives null; otherwise a fresh proxy for that binder |
| ProxyManager.IgnoredIsTextualPrefix | core/java/android/app/PermissionsPluginProxyManager.java:30-36 | Any text appended to an ignored prefix names an ignored package, and every ignored package starts with "android" or "com." |
| ProxyManager.LastMatchingIsLast | core/java/android/app/PermissionsPluginProxyManager.java:137-141 | The selected method matches, and no later method matches; none is selected iff none matches |
| ProxyManager.LastMatchingSnoc | core/java/android/app/PermissionsPluginProxyManager.java:137-141 | A matching method appended last wins; a non-matching one changes nothing |
| ProxyManager.HookForShape | core/java/android/app/PermissionsPluginProxyManager.java:110-170 | A hook is installed only on a three-parameter requestLocationUpdates of the client, with both the target hook and its backup |
| ProxyManager.FindLast | core/java/android/app/PermissionsPluginProxyManager.java:137-141 | The loop returns the reference choice: the last matching method |
| ProxyManager.HasMethod | core/java/android/app/PermissionsPluginProxyManager.java:72-78 | True iff some method has the name |
| ProxyManager.PermissionsPluginProxyManager.constructor | core/java/android/app/PermissionsPluginProxyManager.java:38-45 | Starts uninitialised with no package, loader, bridge or hook |
| ProxyManager.PermissionsPluginProxyManager.IsIgnored | core/java/android/app/PermissionsPluginProxyManager.java:57-61 | The loop answers exactly whether the package has an ignored prefix |
| ProxyManager.PermissionsPluginProxyManager.Initialize | core/java/android/app/PermissionsPluginProxyManager.java:55-99 | Ignored packages change nothing. A second initialisation throws UnsupportedOperationException. Otherwise it loads the bridge, and it sets the package and installs hooks only when the bridge call succeeds |
| ProxyManager.PermissionsPluginProxyManager.InitializeHooks | core/java/android/app/PermissionsPluginProxyManager.java:101-108 | A failing API interceptor throws IllegalStateException; otherwise it installs the location hook when one is found |
| ProxyManager.PermissionsPluginProxyManager.HookFusedLocationProviderClient | core/java/android/app/PermissionsPluginProxyManager.java:110-171 | The hook becomes the one found, or stays as it was when none is found |
| ProxyManager.ModifyLocationData | core/java/android/app/PermissionsPluginProxyManager.java:173-179 | Returns the location result unchanged |
| LocationHooks.FoldSnoc | packages/PermissionsPluginHelper/src/main/java/com/android/permissionsplugin/LocationHooks.java:39-45 | The interposers rewrite the result in iteration order, each seeing the previous one's output |
| LocationHooks.FoldNone | packages/PermissionsPluginHelper/src/main/java/com/android/permissionsplugin/LocationHooks.java:39-47 | Without interposers the original result is delivered |
| LocationHooks.FoldOne | packages/PermissionsPluginHelper/src/main/java/com/android/permissionsplugin/LocationHooks.java:39-45 | A single interposer's rewrite is what is delivered |
| LocationHooks.WrappedCallback.constructor | packages/PermissionsPluginHelper/src/main/java/com/android/permissionsplugin/LocationHooks.java:32-35 | Wraps the original callback, having delivered nothing yet |
| LocationHooks.WrappedCallback.OnLocationResult | packages/PermissionsPluginHelper/src/main/java/com/android/permissionsplugin/LocationHooks.java:37-48 | Delivers exactly the fold of all interposers over the result to the original callback |
| LocationHooks.WrappedCallback.OnLocationAvailability | packages/PermissionsPluginHelper/src/main/java/com/android/permissionsplugin/LocationHooks.java:50-53 | Passes availability through unchanged |
| LocationHooks.TargetHook | packages/PermissionsPluginHelper/src/main/java/com/android/permissionsplugin/LocationHooks.java:23-57 | Calls the backup with the same client, request and looper, and with a fresh wrapper around the app's callback |
| StoragePaths.StartsWith | core/jni/storage_tracer.h:61-75 | True iff the prefix is a prefix of the string |
| StoragePaths.IsOnExternalStorage | core/jni/storage_tracer.h:78-84 | True iff the path starts with one of the five external-storage prefixes |
| StoragePaths.EmptyPrefixMatches | core/jni/storage_tracer.h:61-66 | The empty prefix matches every string |
| StoragePaths.BareMountPointIsNotExternal | core/jni/storage_tracer.h:9-13 | Each prefix ends in '/', so a mount point named without its slash is not external |
| StoragePaths.UnderPrefixIsExternal | core/jni/storage_tracer.h:78-84 | Every path under a prefix is external |
| StoragePaths.RelativeIsNotExternal | core/jni/storage_tracer.h:78-84 | A path not starting with '/' is never external |
| TracerMemory.UpToNul | core/jni/storage_tracer_aarch64.h:27-30 | The copy of a word ends at and includes its first NUL, or is the whole word when it has none |
| TracerMemory.ReadShape | core/jni/storage_tracer_aarch64.h:10-34 | The read returns 0 or -1. On 0, the bytes copied end at the first NUL and no earlier NUL appears. On -1, no NUL was copied |
| TracerMemory.AllOnesWordReadsAsFailure | core/jni/storage_tracer_aarch64.h:18-23 | A word whose value is -1 is taken as a failed read |
| TracerMemory.CopyWord | core/jni/storage_tracer_aarch64.h:27-30 | The byte loop copies up to the NUL, and runs to the end iff the word has none |
| TracerMemory.ReadStringFromPid | core/jni/storage_tracer_aarch64.h:10-34 | The return code and the bytes written equal the reference read |
| TracerMemory.WordsHoldString | core/jni/storage_tracer_aarch64.h:36-60 | The words written hold the string and its NUL |
| TracerMemory.WordCount | core/jni/storage_tracer_aarch64.h:36-60 | A string of length n takes n/8 + 1 words |
| TracerMemory.FillWord | core/jni/storage_tracer_aarch64.h:44-49 | The inner loop fills the next eight bytes, stopping after the NUL |
| TracerMemory.WriteStringToPid | core/jni/storage_tracer_aarch64.h:36-60 | Pokes the reference words at consecutive addresses. It returns 0 iff every poke succeeds; otherwise it stops at the first failed poke and returns -1 |
| TracerMemory.PlacementAsWrittenEntersRedZone | core/jni/storage_tracer_aarch64.h:126-127 | As written, the words end at or below the red zone only when the length is 7 mod 8; a two-byte path runs five bytes into it |
| TracerMemory.PlacementFitsBelowRedZone | core/jni/storage_tracer_aarch64.h:126-127 | The corrected placement's words end exactly at the red zone |
| TracerMemory.InterposeOnOpen | core/jni/storage_tracer_aarch64.h:62-148 | A syscall other than openat is left alone. A failed read gives -1. A relative or non-external path is left alone. A missing Java path gives -1. Otherwise the plugin is asked; with no answer nothing changes, and an over-long answer gives -1. Otherwise the new path's words are poked from sp minus its length with NUL minus the red zone: a failed poke gives -1 after the pokes before it, a failed register update gives -1, and only when every step succeeds does x1 point at the new path, with 0 |
| StorageTracer.Trace | core/jni/storage_tracer.cpp:285-370 | The loop consumes events in order. It ends on a break, when no thread is left, or when the events run out |
| StorageTracer.SharedFlagMissesThreadEntry | core/jni/storage_tracer.cpp:297-312 | As written, the toggle shared by all threads interposes on a second thread's exit stop; the per-thread toggle interposes on its entry |
| StorageTracer.PerThreadInterposesOnEntries | core/jni/storage_tracer.cpp:297-312 | With per-thread toggles, a stop is interposed on iff it is an odd-numbered syscall stop of its own thread, that is, an entry |
| StorageTracer.SharedFlagAlternates | core/jni/storage_tracer.cpp:297-312 | As written, a stop is interposed on iff it is a syscall stop preceded by an even number of syscall stops of all threads together |
| StorageTracer.ThreadCount | core/jni/storage_tracer.cpp:281-331 | The live thread count is one plus the clones seen minus the exits seen |
| StorageTracer.StopsAtBreak | core/jni/storage_tracer.cpp:287-291 | A failed wait or a fatal signal ends the loop at that event |
| StorageTracer.StorageTracerProcess.constructor | core/jni/storage_tracer.cpp:26-32 | Starts with no traced app, an empty tracker and no path buffer |
| StorageTracer.StorageTracerProcess.PostforkSetup | core/jni/storage_tracer.cpp:109-167 | Without shared memory it fails with no effect. Otherwise it records the pid and unmaps the shared memory. It returns 0 iff attaching, waiting, setting options and mapping the path buffer all succeed, and only then posts the tracer semaphore |
| StorageTracer.StorageTracerProcess.RunLoop | core/jni/storage_tracer.cpp:271-374 | Without an app it does nothing. Otherwise the loop's final state is the reference trace that flips the one flag under the app pid on every syscall stop, the tracker is its tracker, and the path buffer is unmapped |
| StorageTracer.InterposeOnOpenFilter | core/jni/storage_tracer.cpp:222-269 | Returns -1 iff the architecture is not aarch64, or an openat path cannot be read; otherwise 0 |

## Left out

- Binder transport, `enforceInterface` and interface tokens are left out. A reply header other than zero is read as a thrown RuntimeException.
- `hashCode` of the stream record is left out; the stream map is keyed by value.
- `copyFrame` is a parameter: its size computation uses floating point (`* 1.5`).
- NativeSurface.AlignedHeightIsBlocks: only "a multiple of 64" is proved, not the bounds of the aligned height.
- Buffer queues, graphics buffers and JNI references are parameters (which answer each call gives), not implementations.
- Concurrency, `synchronized`, the thread-local manager instance and logging are left out; every operation runs to completion alone.
- `fixupParcelForBinder`'s null-result branch is not modelled: run alone, `perturbAllDataImpl` returns null only when the source has no perturbables, and the method tests that first.
- `getRecordedObjects` draining the source parcel is left out. The record metadata is not passed to the interposer parameter beyond deciding whether it is null.
- The typed-item parcel returns defaults (0, null) on a type mismatch. Android's parcel bytes and alignment are left out.
- A null `isActive` Boolean is left out; the model keeps a plain bool.
- The plugin database starts empty. SQLite storage, its cursors and its error codes other than "cannot open" are left out.
- The iteration order of HashMap values is a parameter: the interposers' order in the fold.
- `targetBackup` is replaced at runtime by the hooking framework; the model records the call made to it.
- The tracer uses unbounded integers for addresses (no 64-bit wrap-around) and single-byte characters.
- TracerMemory.ReadStringFromPid: the copy is unbounded, which can overrun the PATH_MAX buffer. The model returns the bytes as a sequence and does not state the overrun.
- The GETREGSET result is ignored by the source, and so it is in the model.
- The stream of stop events is finite; running out of events ends the loop.
- StorageTracer.StorageTracerProcess.RunLoop: models the aarch64 build, where an entry stop runs interposition and a negative result ends the loop; in the 32-bit ARM and unknown-architecture builds a syscall stop only logs. InterposeOnOpenFilter covers all builds.
- The postfork entry point is declared with one argument and defined with three; the model takes the app pid.
- `tracer_prefork_setup` and `tracer_postfork_zygote_cleanup` are not modelled: whether shared memory exists is a constructor parameter.
- A null package name in `PermissionsPluginProxyManager.initialize` (a NullPointerException in `startsWith`) is left out.
- Plain field getters of `CameraStreamInfo`, `PluginProxy` and `PluginService` read fields and need no contract.
- The plugin call left as a TODO in `storage_tracer.cpp`'s own `tracer_interpose_on_open` is not modelled.
- PluginManager.PermissionsPluginManager.PerturbAllDataImpl: when a record of unknown type throws, the replacements already set on the records before it are not stated; only that records left out of the queue keep theirs.
- The record type of perturbable objects follows its uses in `PermissionsPluginManager`; `PerturbableObject` is not part of this model.

## Findings

| source | as written | input that shows it | evidently intended | confidence | as-written member | corrected member |
|---|---|---|---|---|---|---|
| core/java/com/android/permissionsplugin/PermissionsPluginDb.java:143-156 | An empty list is stored as "" and `split(",")` loads it back as [""] | a plugin whose supported APIs are [] | The empty list loads back as [] | not executed | PluginDatabase.EmptyListLoadsAsOneEmptyString | PluginDatabase.SplitListRoundTrip |
| core/jni/storage_tracer_aarch64.h:126-127 | The path is placed len+1 bytes below the red zone, but it is written in whole 8-byte words | a 2-byte replacement path | The whole words written end below the red zone | not executed | TracerMemory.PlacementAsWrittenEntersRedZone | TracerMemory.PlacementFitsBelowRedZone |
| core/jni/storage_tracer.cpp:297-312 | The entry/exit toggle is keyed by the app pid, not by the stopped thread | stops: clone 100→101, then syscall stops of 100, 101, 101, 100 | Each thread's own toggle, so each thread's entry stops are interposed on | not executed | StorageTracer.SharedFlagMissesThreadEntry | StorageTracer.PerThreadInterposesOnEntries |

The operations follow the code as written: `LoadPlugins` splits with Java's `split`, `InterposeOnOpen`
places the path at the source's address, and `RunLoop` flips the one flag under the app pid. The
corrected definitions and their proved properties stand beside them.
