/**
 * The perturbation engine of PermissionsPluginManager: the splice that
 * rebuilds an outgoing parcel, the choice of which recorded objects are
 * re-emitted, the per-type dispatch to a plugin's interposer, the
 * pid-to-package cache, the one-proxy-per-plugin cache and the storage
 * tracer's package lock.
 *
 * The manager's static fields are the fields of one PermissionsPluginManager
 * object. Every remote call (bindService, the package manager's registry of
 * active plugins, the activity manager, the plugins' interposers) is an
 * answer read from an Env value.
 */
module PluginManager {
  import opened Wrappers
  import opened Splice
  import opened ParcelRecords
  import opened PluginConnection

  const INTERPOSER_STORAGE: string := "storage"

  /** The interposer name under which each perturbable type is looked up
   *  (the static perturbableToInterposer map). */
  function InterposerFor(c: Category): (name: string)
    ensures c != Storage ==> Known(name)
    ensures name == INTERPOSER_STORAGE <==> c == Storage
  {
    match c
    case Location => INTERPOSER_LOCATION
    case Contacts => INTERPOSER_CONTACTS
    case Calendar => INTERPOSER_CALENDAR
    case Camera => INTERPOSER_CAMERA
    case Storage => INTERPOSER_STORAGE
  }

  /** An entry of the active-plugin list: package and supported APIs. */
  datatype PluginRef = PluginRef(packageName: string, supportedAPIs: seq<string>)

  /** The callback that ends a wait for a binding: onServiceConnected with
   *  the service binder and its interposer answers, onServiceDisconnected,
   *  onBindingDied, or an InterruptedException in the waiting thread. */
  datatype Handshake =
    | Connected(binder: Handle, answer: string -> Fetch)
    | Disconnected
    | BindingDied
    | Interrupted

  /** The reply of an interposer's modifyLocation/modifyData call. */
  datatype Answer = Returned(v: Value) | Failed

  /** What ActivityManager answers to getPackagesForPid. */
  datatype PidAnswer = NoActivityManager | RemoteFailure | NullArray | Packages(names: seq<string>)

  /** What ActivityManager answers to getStorageInterposer: an exception
   *  (remote, or a null activity manager), or a binder that may be null. */
  datatype StorageAnswer = StorageFailed | StorageBinder(binder: Option<Handle>)

  /** The world outside the manager. */
  datatype Env = Env(
    hasContext: bool,
    bindAccepted: string -> bool,
    handshake: string -> Handshake,
    activePlugins: (string, string) -> seq<PluginRef>,
    interpose: (Handle, string, Value) -> Answer,
    packagesForPid: int -> PidAnswer,
    storageInterposer: string -> StorageAnswer)

  /** Whether a connection attempt to `pkg` ends connected. */
  predicate Succeeds(env: Env, pkg: string) {
    env.hasContext && env.bindAccepted(pkg) && env.handshake(pkg).Connected?
  }

  // ---------------------------------------------------------------------
  // copySourceToTargetParcel

  /** Rebuilds `target` from `source`'s bytes and the queue of records: the
   *  appended bytes are the splice of the queue's entries (in particular the
   *  closed form of lemma SplicedIsClosedForm). A record of another kind
   *  throws UnsupportedOperationException after its gap was copied, and is
   *  left at the head of the remaining queue. */
  method CopySourceToTargetParcel(source: Parcel, target: Parcel, objectsToWrite: seq<ParcelObject>, codec: Codec)
    returns (r: Result<()>, remaining: seq<ParcelObject>)
    requires source != target
    requires forall o :: o in objectsToWrite ==> o.WellTyped()
    requires InBounds(Entries(objectsToWrite, codec), |source.data|)
    modifies target`data, target`recording
    ensures target.data == old(target.data) + Spliced(source.data, Entries(objectsToWrite, codec))
    ensures !target.recording && target.recordedObjects == old(target.recordedObjects)
    ensures r.Ok? <==> AllSupported(Entries(objectsToWrite, codec))
    ensures r.Threw? ==> r.error == UnsupportedOperation
    ensures r.Ok? ==> remaining == []
    ensures r.Threw? ==> 0 < |remaining| <= |objectsToWrite| && EmissionOf(remaining[0], codec) == Unsupported &&
                         remaining == objectsToWrite[|objectsToWrite| - |remaining|..]
  {
    target.StopRecording();
    ghost var es := Entries(objectsToWrite, codec);
    var k, originalPos := CopyRecords(source, target, objectsToWrite, codec, es);
    if k < |objectsToWrite| {
      r := Threw(UnsupportedOperation);
      remaining := objectsToWrite[k..];
      EntriesIndex(objectsToWrite, codec);
      assert remaining[0] == objectsToWrite[k] && es[k] == EntryOf(objectsToWrite[k], codec);
      return;
    }
    CopyTail(source, target, originalPos);
    r := Ok(());
    remaining := [];
  }

  /** The end of copySourceToTargetParcel: the source's bytes from the
   *  cursor on, when there are any, are appended. */
  method CopyTail(source: Parcel, target: Parcel, originalPos: int)
    requires source != target && 0 <= originalPos
    modifies target`data
    ensures target.data == old(target.data) + CopyFrom(source.data, [], originalPos)
  {
    if originalPos < |source.data| {
      target.AppendFrom(source, originalPos, |source.data| - originalPos);
    }
  }

  /** The loop of copySourceToTargetParcel up to the tail: it stops at the
   *  first record of an unsupported kind (index k), after that record's gap,
   *  or runs through the queue and returns the source cursor. */
  method CopyRecords(source: Parcel, target: Parcel, objectsToWrite: seq<ParcelObject>, codec: Codec,
                     ghost es: seq<Entry>)
    returns (k: int, originalPos: int)
    requires source != target
    requires forall o :: o in objectsToWrite ==> o.WellTyped()
    requires es == Entries(objectsToWrite, codec) && InBounds(es, |source.data|)
    modifies target`data
    ensures 0 <= k <= |objectsToWrite| == |es| && 0 <= originalPos
    ensures k < |es| ==> es[k].emission == Unsupported && target.data == old(target.data) + Spliced(source.data, es)
    ensures k == |es| ==>
              AllSupported(es) &&
              target.data + CopyFrom(source.data, [], originalPos) == old(target.data) + Spliced(source.data, es)
  {
    EntriesIndex(objectsToWrite, codec);
    ghost var src := source.data;
    ghost var whole := Spliced(src, es);
    ghost var acc: seq<Byte> := [];
    assert es[0..] == es;
    originalPos := 0;
    k := 0;
    while k < |objectsToWrite|
      invariant 0 <= k <= |objectsToWrite| && 0 <= originalPos
      invariant target.data == old(target.data) + acc
      invariant acc + CopyFrom(src, es[k..], originalPos) == whole
      invariant AllSupported(es[..k])
    {
      var o := objectsToWrite[k];
      var written;
      written, acc := CopyTurn(source, target, o, codec, originalPos, es, k, whole, old(target.data), acc);
      if !written {
        return;
      }
      originalPos := o.endPos;
      k := k + 1;
    }
    assert es[..k] == es && es[k..] == [];
    AppendAssoc(old(target.data), acc, CopyFrom(src, [], originalPos));
  }

  lemma AppendAssoc(a: seq<Byte>, b: seq<Byte>, c: seq<Byte>)
    ensures (a + b) + c == a + (b + c)
  {
  }

  /** One turn of the copy loop, with the loop's invariant carried across
   *  it: the gap and the record are appended, and what was appended so far
   *  followed by the splice of the remaining entries is the whole splice. */
  method CopyTurn(source: Parcel, target: Parcel, o: ParcelObject, codec: Codec, cursor: int,
                  ghost es: seq<Entry>, ghost k: int, ghost whole: seq<Byte>, ghost prefix: seq<Byte>, ghost acc: seq<Byte>)
    returns (written: bool, ghost acc': seq<Byte>)
    requires source != target && o.WellTyped() && 0 <= cursor
    requires 0 <= k < |es| && es[k] == EntryOf(o, codec) && InBounds(es, |source.data|)
    requires AllSupported(es[..k]) && acc + CopyFrom(source.data, es[k..], cursor) == whole
    requires target.data == prefix + acc
    modifies target`data
    ensures written <==> es[k].emission.Emit?
    ensures target.data == prefix + acc'
    ensures !written ==> acc' == whole
    ensures written ==> AllSupported(es[..k + 1]) && 0 <= es[k].end &&
                        acc' + CopyFrom(source.data, es[k + 1..], es[k].end) == whole
  {
    written := CopyGapAndRecord(source, target, o, codec, cursor);
    if written {
      CopyAdvance(source.data, es, k, cursor, acc, whole);
      acc' := acc + Gap(source.data, cursor, es[k].start) + es[k].emission.bytes;
    } else {
      CopyStop(source.data, es, k, cursor, acc, whole);
      acc' := acc + Gap(source.data, cursor, es[k].start);
    }
  }

  /** One turn of the copy loop: the source bytes between the cursor and the
   *  record's start, then the record itself when its kind is supported. */
  method CopyGapAndRecord(source: Parcel, target: Parcel, o: ParcelObject, codec: Codec, cursor: int)
    returns (written: bool)
    requires source != target && o.WellTyped() && 0 <= cursor && o.startPos <= |source.data|
    modifies target`data
    ensures written <==> EmissionOf(o, codec).Emit?
    ensures target.data == old(target.data) + Gap(source.data, cursor, o.startPos) +
                           (if written then EmissionOf(o, codec).bytes else [])
  {
    if cursor < o.startPos {
      target.AppendFrom(source, cursor, o.startPos - cursor);
    }
    written := WriteRecord(target, o, codec);
  }

  /** The switch of the copy loop: writes the record's current value at the
   *  end of `target`, or nothing for a kind that is not supported. */
  method WriteRecord(target: Parcel, o: ParcelObject, codec: Codec) returns (written: bool)
    requires o.WellTyped()
    modifies target`data
    ensures written <==> EmissionOf(o, codec).Emit?
    ensures target.data == old(target.data) + if written then EmissionOf(o, codec).bytes else []
  {
    if o.objectType == BINDER_OBJECT {
      target.Write(codec.binder(o.obj));
    } else if o.objectType == PERTURBABLE_OBJECT {
      target.Write(codec.parcelable(o.LatestParcelable(), o.perturbable.value.writeFlags));
    } else {
      return false;
    }
    return true;
  }

  /** The copy loop's invariant is kept by one supported record: the bytes
   *  appended so far, then its gap and its emission, still lead to the
   *  whole splice. */
  lemma CopyAdvance(src: seq<Byte>, es: seq<Entry>, k: int, cursor: int, acc: seq<Byte>, whole: seq<Byte>)
    requires 0 <= k < |es| && es[k].emission.Emit? && AllSupported(es[..k])
    requires acc + CopyFrom(src, es[k..], cursor) == whole
    ensures AllSupported(es[..k + 1])
    ensures (acc + Gap(src, cursor, es[k].start) + es[k].emission.bytes) + CopyFrom(src, es[k + 1..], es[k].end) == whole
  {
    CopyStep(src, es, k, cursor);
    var gap, bytes := Gap(src, cursor, es[k].start), es[k].emission.bytes;
    var rest := CopyFrom(src, es[k + 1..], es[k].end);
    assert (acc + gap + bytes) + rest == acc + (gap + bytes + rest);
    assert es[..k + 1] == es[..k] + [es[k]];
  }

  /** The copy loop stops at an unsupported record after copying its gap. */
  lemma CopyStop(src: seq<Byte>, es: seq<Entry>, k: int, cursor: int, acc: seq<Byte>, whole: seq<Byte>)
    requires 0 <= k < |es| && es[k].emission == Unsupported
    requires acc + CopyFrom(src, es[k..], cursor) == whole
    ensures acc + Gap(src, cursor, es[k].start) == whole
    ensures !AllSupported(es)
  {
    CopyStep(src, es, k, cursor);
  }

  /** One turn of the copy loop over the entries from index k. */
  lemma CopyStep(src: seq<Byte>, es: seq<Entry>, k: int, cursor: int)
    requires 0 <= k < |es|
    ensures CopyFrom(src, es[k..], cursor) ==
              match es[k].emission
              case Emit(bytes) => Gap(src, cursor, es[k].start) + bytes + CopyFrom(src, es[k + 1..], es[k].end)
              case Unsupported => Gap(src, cursor, es[k].start)
  {
    assert es[k..][0] == es[k];
    assert es[k..][1..] == es[k + 1..];
  }

  // ---------------------------------------------------------------------
  // perturbObject

  /** The interposer handle a connected proxy offers for a category. */
  function InterposerHandle(c: Category, h: Handles): Option<Handle> {
    match c
    case Location => h.location
    case Contacts => h.contacts
    case Calendar => h.calendar
    case _ => None
  }

  /** The record's replacement after perturbObject, given the proxy's
   *  handles and its previous replacement `prior`: only an interposer that
   *  exists for the category and answers changes it; contacts and calendar
   *  need query metadata and a non-null answer, while a location answer is
   *  stored whatever it is, null included. */
  function Perturbed(info: PerturbableInfo, h: Handles, targetPkg: string, original: Value,
                     interpose: (Handle, string, Value) -> Answer, prior: Option<Value>): (r: Option<Value>)
    ensures r == prior ||
            (r.Some? && InterposerHandle(info.category, h).Some? &&
             interpose(InterposerHandle(info.category, h).value, targetPkg, original) == Returned(r.value))
    ensures InterposerHandle(info.category, h).None? ==> r == prior
    ensures info.category in {Contacts, Calendar} && info.metadata.None? ==> r == prior
    ensures info.category in {Contacts, Calendar} && r != prior ==> r.value != Null
    ensures info.category == Location && h.location.Some? ==>
            r == match interpose(h.location.value, targetPkg, original)
                 case Returned(v) => Some(v)
                 case Failed => prior
  {
    match info.category
    case Location =>
      if h.location.None? then prior
      else (match interpose(h.location.value, targetPkg, original)
            case Returned(v) => Some(v)
            case Failed => prior)
    case Contacts =>
      if info.metadata.None? || h.contacts.None? then prior
      else (match interpose(h.contacts.value, targetPkg, original)
            case Returned(v) => if v != Null then Some(v) else prior
            case Failed => prior)
    case Calendar =>
      if info.metadata.None? || h.calendar.None? then prior
      else (match interpose(h.calendar.value, targetPkg, original)
            case Returned(v) => if v != Null then Some(v) else prior
            case Failed => prior)
    case _ => prior
  }

  /** Asks the proxy's interposer for the record's type to rewrite it. */
  method PerturbObject(targetPkg: string, proxy: PluginProxy, o: ParcelObject, env: Env)
    requires o.perturbable.Some?
    modifies o`perturbed
    ensures o.perturbed == Perturbed(o.perturbable.value, proxy.Current(), targetPkg, o.obj, env.interpose, old(o.perturbed))
  {
    var info := o.perturbable.value;
    match info.category
    case Location =>
      var loc := proxy.locationInterposer;
      if loc.Some? {
        var answer := env.interpose(loc.value, targetPkg, o.obj);
        if answer.Returned? {
          o.SetPerturbedObject(answer.v);
        }
      }
    case Contacts =>
      if info.metadata.Some? {
        var contacts := proxy.contactsInterposer;
        if contacts.Some? {
          var answer := env.interpose(contacts.value, targetPkg, o.obj);
          if answer.Returned? && answer.v != Null {
            o.SetPerturbedObject(answer.v);
          }
        }
      }
    case Calendar =>
      if info.metadata.Some? {
        var calendar := proxy.calendarInterposer;
        if calendar.Some? {
          var answer := env.interpose(calendar.value, targetPkg, o.obj);
          if answer.Returned? && answer.v != Null {
            o.SetPerturbedObject(answer.v);
          }
        }
      }
    case _ =>
  }

  /** Whatever perturbObject did, the value re-emitted for the record is the
   *  original or a non-null value an interposer returned for it. */
  lemma LatestIsOriginalOrAnswer(info: PerturbableInfo, h: Handles, targetPkg: string, original: Value,
                                 interpose: (Handle, string, Value) -> Answer)
    ensures var r := Perturbed(info, h, targetPkg, original, interpose, None);
            var latest := if r.Some? && r.value != Null then r.value else original;
            latest == original ||
            (latest != Null && InterposerHandle(info.category, h).Some? &&
             interpose(InterposerHandle(info.category, h).value, targetPkg, original) == Returned(latest))
  {
  }

  // ---------------------------------------------------------------------
  // Which records enter the queue.

  /** Binders always; a perturbable when the active-plugin list for its
   *  interposer is non-empty and the first plugin's proxy is (or becomes)
   *  connected. `connected0` is the set of plugins connected beforehand. */
  ghost predicate Admitted(o: ParcelObject, targetPkg: string, env: Env, connected0: set<string>) {
    o.objectType == BINDER_OBJECT ||
    (o.objectType == PERTURBABLE_OBJECT && o.perturbable.Some? &&
     var plugins := env.activePlugins(targetPkg, InterposerFor(o.perturbable.value.category));
     plugins != [] && (plugins[0].packageName in connected0 || Succeeds(env, plugins[0].packageName)))
  }

  /** The package of the first active plugin for the record's interposer,
   *  "" when no plugin is active. */
  function FirstPlugin(o: ParcelObject, targetPkg: string, env: Env): string
    requires o.perturbable.Some?
  {
    var plugins := env.activePlugins(targetPkg, InterposerFor(o.perturbable.value.category));
    if plugins == [] then "" else plugins[0].packageName
  }

  /** Perturbing a record a second time through the same handles changes
   *  nothing more: the interposer's answer depends only on the handle, the
   *  target package and the original object. */
  lemma PerturbedIdempotent(info: PerturbableInfo, h: Handles, targetPkg: string, original: Value,
                            interpose: (Handle, string, Value) -> Answer, prior: Option<Value>)
    ensures var once := Perturbed(info, h, targetPkg, original, interpose, prior);
            Perturbed(info, h, targetPkg, original, interpose, once) == once
  {
  }

  /** The queue perturbAllDataImpl hands to the splice, in recording order. */
  ghost function Queue(rs: seq<ParcelObject>, targetPkg: string, env: Env, connected0: set<string>): seq<ParcelObject>
    decreases |rs|
  {
    if rs == [] then []
    else Queue(rs[..|rs| - 1], targetPkg, env, connected0) +
         (if Admitted(rs[|rs| - 1], targetPkg, env, connected0) then [rs[|rs| - 1]] else [])
  }

  /** Admission decided against any connected set that lies between the
   *  initially connected plugins and those plus every plugin whose
   *  connection succeeds is admission against the initial set. */
  lemma AdmittedStable(o: ParcelObject, targetPkg: string, env: Env, connected0: set<string>, now: set<string>)
    requires connected0 <= now
    requires forall p :: p in now ==> p in connected0 || Succeeds(env, p)
    ensures Admitted(o, targetPkg, env, now) == Admitted(o, targetPkg, env, connected0)
  {
  }

  /** Every recorded object is a binder or a perturbable. */
  predicate KnownKinds(rs: seq<ParcelObject>) {
    forall i :: 0 <= i < |rs| ==> rs[i].objectType == BINDER_OBJECT || rs[i].objectType == PERTURBABLE_OBJECT
  }

  /** The queue keeps the order of the recording and holds no other records;
   *  every binder is in it. */
  lemma {:induction false} QueueIsSubsequence(rs: seq<ParcelObject>, targetPkg: string, env: Env, connected0: set<string>)
    ensures forall o :: o in Queue(rs, targetPkg, env, connected0) ==> o in rs
    ensures forall o :: o in rs && o.objectType == BINDER_OBJECT ==> o in Queue(rs, targetPkg, env, connected0)
    ensures forall o :: o in Queue(rs, targetPkg, env, connected0) ==> Admitted(o, targetPkg, env, connected0)
    decreases |rs|
  {
    if rs != [] {
      var init := rs[..|rs| - 1];
      QueueIsSubsequence(init, targetPkg, env, connected0);
      assert rs == init + [rs[|rs| - 1]];
    }
  }

  /** A queue built from well-typed records of known kinds can be spliced
   *  without an exception. */
  lemma QueueSupported(rs: seq<ParcelObject>, targetPkg: string, env: Env, connected0: set<string>, codec: Codec)
    requires forall o :: o in rs ==> o.WellTyped()
    ensures AllSupported(Entries(Queue(rs, targetPkg, env, connected0), codec))
  {
    var q := Queue(rs, targetPkg, env, connected0);
    QueueIsSubsequence(rs, targetPkg, env, connected0);
    EntriesIndex(q, codec);
    forall i | 0 <= i < |q| ensures Entries(q, codec)[i].emission.Emit? {
      assert q[i] in q;
    }
  }

  /** The queue lies inside the source parcel whenever the recording does. */
  lemma QueueInBounds(rs: seq<ParcelObject>, targetPkg: string, env: Env, connected0: set<string>, size: int, codec: Codec)
    requires PlacedWithin(rs, size)
    ensures InBounds(Entries(Queue(rs, targetPkg, env, connected0), codec), size)
  {
    QueueIsSubsequence(rs, targetPkg, env, connected0);
    PlacedWithinInBounds(Queue(rs, targetPkg, env, connected0), size, codec);
  }

  /** `data` is `prefix` followed by the splice of the records of `q` into
   *  `src`, the records lying inside `src`. */
  ghost predicate SplicedInto(data: seq<Byte>, prefix: seq<Byte>, src: seq<Byte>, q: seq<ParcelObject>, codec: Codec)
    reads (set o | o in q)`endPos, (set o | o in q)`perturbed
  {
    InBounds(Entries(q, codec), |src|) && data == prefix + Spliced(src, Entries(q, codec))
  }

  /** A kind other than binder or perturbable makes the splice throw. */
  lemma UnknownKindUnsupported(q: seq<ParcelObject>, codec: Codec)
    requires !KnownKinds(q)
    ensures !AllSupported(Entries(q, codec))
  {
    EntriesIndex(q, codec);
    var i :| 0 <= i < |q| && q[i].objectType != BINDER_OBJECT && q[i].objectType != PERTURBABLE_OBJECT;
    assert Entries(q, codec)[i].emission == Unsupported;
  }

  // ---------------------------------------------------------------------
  // The pid-to-package lookup.

  /** The package getPackageForPid derives from the activity manager's
   *  answer: the first of the packages, "" when there is no activity
   *  manager, no array or a remote failure; an empty array throws. */
  function Resolve(a: PidAnswer): (r: Result<string>)
    ensures r.Threw? <==> a == Packages([])
    ensures r.Threw? ==> r.error == IndexOutOfBounds
    ensures a.Packages? && a.names != [] ==> r == Ok(a.names[0])
    ensures !a.Packages? ==> r == Ok("")
  {
    match a
    case Packages(names) => if |names| == 0 then Threw(IndexOutOfBounds) else Ok(names[0])
    case _ => Ok("")
  }

  /** What getPackageForPid returns for a cache content. */
  function LookupPackage(pid: int, cache: map<int, string>, env: Env): Result<string> {
    if pid <= 0 then Ok("")
    else if pid in cache && cache[pid] != "" then Ok(cache[pid])
    else Resolve(env.packagesForPid(pid))
  }

  /** The cache after getPackageForPid. */
  function CacheAfter(pid: int, cache: map<int, string>, env: Env): map<int, string> {
    if pid <= 0 || (pid in cache && cache[pid] != "") then cache
    else match Resolve(env.packagesForPid(pid))
      case Ok(name) => cache[pid := name]
      case Threw(_) => cache
  }

  /** A non-empty name, once resolved, is answered from the cache by every
   *  later lookup, whatever the activity manager would now say. */
  lemma CachedNameIsReused(pid: int, cache: map<int, string>, env: Env, later: Env)
    requires LookupPackage(pid, cache, env).Ok? && LookupPackage(pid, cache, env).value != ""
    ensures LookupPackage(pid, CacheAfter(pid, cache, env), later) == LookupPackage(pid, cache, env)
  {
  }

  /** An empty resolution is cached as "" and then queried again. */
  lemma EmptyNameIsRequeried(pid: int, cache: map<int, string>, env: Env, later: Env)
    requires pid > 0 && LookupPackage(pid, cache, env) == Ok("")
    ensures CacheAfter(pid, cache, env) == cache[pid := ""]
    ensures LookupPackage(pid, CacheAfter(pid, cache, env), later) == Resolve(later.packagesForPid(pid))
  {
  }

  /** The manager's static state. */
  class PermissionsPluginManager {
    var pluginProxies: map<string, PluginProxy>
    var pidsToPackage: map<int, string>
    var storageTracerPackage: Option<string>
    var storageInterposer: Option<Handle>

    constructor ()
      ensures pluginProxies == map[] && pidsToPackage == map[]
      ensures storageTracerPackage == None && storageInterposer == None
    {
      pluginProxies := map[];
      pidsToPackage := map[];
      storageTracerPackage := None;
      storageInterposer := None;
    }

    /** Each proxy is stored under its own plugin package. */
    ghost predicate Valid()
      reads this`pluginProxies
    {
      forall p :: p in pluginProxies ==> pluginProxies[p].package == p
    }

    /** The plugins whose proxy is connected. */
    ghost function ConnectedPlugins(): set<string>
      reads this`pluginProxies, pluginProxies.Values
    {
      set p | p in pluginProxies && pluginProxies[p].connected
    }

    /** The interposer handles of the proxy kept for `pkg`, none when there
     *  is no proxy. */
    ghost function HandlesOf(pkg: string): Handles
      reads this`pluginProxies, pluginProxies.Values
    {
      if pkg in pluginProxies then pluginProxies[pkg].Current() else NoHandles
    }

    /** What a recorded object holds after perturbAllDataImpl's loop, given
     *  what it held before (`prior`): an admitted perturbable holds what
     *  perturbObject made of it through the handles of its first plugin's
     *  proxy; every other record keeps `prior`. */
    ghost function AfterQueue(o: ParcelObject, targetPkg: string, env: Env, connected0: set<string>,
                              prior: Option<Value>): Option<Value>
      reads this`pluginProxies, pluginProxies.Values
    {
      if o.objectType == PERTURBABLE_OBJECT && o.perturbable.Some? && Admitted(o, targetPkg, env, connected0) then
        Perturbed(o.perturbable.value, HandlesOf(FirstPlugin(o, targetPkg, env)), targetPkg, o.obj, env.interpose, prior)
      else prior
    }

    /** A record that held no replacement before the loop and was admitted
     *  as a perturbable is re-emitted as its original object or as a
     *  non-null object its first plugin's interposer returned for it; when
     *  that interposer exists, answers a non-null object and the record
     *  qualifies (location, or contacts and calendar with query metadata),
     *  the answer is what is re-emitted. */
    lemma QueuedEmission(o: ParcelObject, targetPkg: string, env: Env, connected0: set<string>, codec: Codec)
      requires o.objectType == PERTURBABLE_OBJECT && o.perturbable.Some? && Admitted(o, targetPkg, env, connected0)
      requires o.perturbed == AfterQueue(o, targetPkg, env, connected0, None)
      ensures var info := o.perturbable.value;
              var h := HandlesOf(FirstPlugin(o, targetPkg, env));
              var handle := InterposerHandle(info.category, h);
              var latest := o.LatestParcelable();
              EmissionOf(o, codec) == Emit(codec.parcelable(latest, info.writeFlags)) &&
              (latest == o.obj ||
               (latest != Null && handle.Some? && env.interpose(handle.value, targetPkg, o.obj) == Returned(latest))) &&
              (handle.Some? && env.interpose(handle.value, targetPkg, o.obj).Returned? &&
               env.interpose(handle.value, targetPkg, o.obj).v != Null &&
               (info.category == Location || info.metadata.Some?) ==>
                 latest == env.interpose(handle.value, targetPkg, o.obj).v)
    {
      var h := HandlesOf(FirstPlugin(o, targetPkg, env));
      LatestIsOriginalOrAnswer(o.perturbable.value, h, targetPkg, o.obj, env.interpose);
    }

    /** connectToPluginService: one proxy per plugin package; a connected
     *  proxy is returned untouched; otherwise a binding is attempted and
     *  the proxy is returned in whatever state the handshake left it. */
    method ConnectToPluginService(pkg: string, interposers: seq<string>, env: Env) returns (proxy: PluginProxy)
      requires Valid()
      modifies this`pluginProxies, if pkg in pluginProxies then {pluginProxies[pkg]} else {}
      ensures Valid()
      ensures pluginProxies == old(pluginProxies)[pkg := proxy] && proxy.package == pkg
      ensures pkg in old(pluginProxies) ==> proxy == old(pluginProxies[pkg])
      ensures pkg !in old(pluginProxies) ==> fresh(proxy) && proxy.interposers == interposers
      ensures proxy.connected <==> pkg in old(ConnectedPlugins()) || Succeeds(env, pkg)
      ensures pkg in old(ConnectedPlugins()) ==> unchanged(proxy)
      ensures pkg !in old(ConnectedPlugins()) && !(env.hasContext && env.bindAccepted(pkg)) ==>
                if pkg in old(pluginProxies) then unchanged(proxy) else !proxy.connecting && !proxy.connected
      ensures pkg !in old(ConnectedPlugins()) && env.hasContext && env.bindAccepted(pkg) ==>
                match env.handshake(pkg)
                case Connected(_, answer) =>
                  !proxy.connecting &&
                  proxy.Current() == Retrieve(proxy.interposers, answer,
                    if pkg in old(pluginProxies) then old(pluginProxies[pkg].Current()) else NoHandles)
                case Interrupted => proxy.connecting
                case _ => !proxy.connecting
      ensures ConnectedPlugins() == old(ConnectedPlugins()) - {pkg} + (if proxy.connected then {pkg} else {})
    {
      if pkg in pluginProxies {
        proxy := pluginProxies[pkg];
      } else {
        proxy := new PluginProxy(pkg, interposers);
        pluginProxies := pluginProxies[pkg := proxy];
      }
      if proxy.connected {
        return;
      }
      var started := proxy.Connect(env.hasContext, env.bindAccepted(pkg));
      if !started {
        return;
      }
      match env.handshake(pkg)
      case Connected(binder, answer) => proxy.OnServiceConnected(binder, answer);
      case Disconnected => proxy.OnServiceDisconnected();
      case BindingDied => proxy.OnBindingDied();
      case Interrupted =>
    }

    /** perturbAllDataImpl: with no perturbable record it returns null and
     *  touches nothing; otherwise it stops the source's recording, queues
     *  the admitted records (perturbing each admitted perturbable) and
     *  splices them into the target, obtaining a new parcel when none was
     *  given. A record of another kind throws. */
    method PerturbAllDataImpl(targetPkg: string, source: Parcel, target: Parcel?, env: Env, codec: Codec)
      returns (r: Result<Parcel?>)
      requires Valid() && source != target
      requires forall o :: o in source.recordedObjects ==> o.WellTyped()
      requires PlacedWithin(source.recordedObjects, |source.data|)
      modifies this`pluginProxies, pluginProxies.Values, source`recording, target,
               (set o | o in source.recordedObjects)`perturbed
      ensures Valid()
      ensures !old(source.HasPerturbables()) ==>
                r == Ok(null) && unchanged(source) && (target != null ==> unchanged(target)) && pluginProxies == old(pluginProxies)
      ensures old(source.HasPerturbables()) ==> !source.recording
      ensures old(source.HasPerturbables()) && !KnownKinds(source.recordedObjects) ==> r == Threw(UnsupportedOperation)
      ensures old(source.HasPerturbables()) && KnownKinds(source.recordedObjects) ==>
                r.Ok? && r.value != null && r.value != source &&
                (target != null ==> r.value == target) && (target == null ==> fresh(r.value)) &&
                SplicedInto(r.value.data, if target == null then [] else old(target.data), source.data,
                            Queue(source.recordedObjects, targetPkg, env, old(ConnectedPlugins())), codec) &&
                (forall o :: o in source.recordedObjects ==>
                   o.perturbed == AfterQueue(o, targetPkg, env, old(ConnectedPlugins()), old(o.perturbed)))
      ensures forall o :: o in source.recordedObjects && !Admitted(o, targetPkg, env, old(ConnectedPlugins())) ==>
                o.perturbed == old(o.perturbed)
    {
      var rs := source.recordedObjects;
      ghost var connected0 := ConnectedPlugins();
      if !source.HasPerturbables() {
        return Ok(null);
      }
      source.StopRecording();
      var known, objectsToWrite := QueueRecords(targetPkg, rs, env);
      if !known {
        return Threw(UnsupportedOperation);
      }
      QueueInBounds(rs, targetPkg, env, connected0, |source.data|, codec);
      QueueIsSubsequence(rs, targetPkg, env, connected0);
      QueueSupported(rs, targetPkg, env, connected0, codec);
      label Queued:
      var out := WriteQueue(source, target, objectsToWrite, codec);
      forall o | o in rs
        ensures o.perturbed == AfterQueue(o, targetPkg, env, connected0, old(o.perturbed))
      {
        var prior := old(o.perturbed);
        assert o.perturbed == old@Queued(o.perturbed);
        assert AfterQueue(o, targetPkg, env, connected0, prior) ==
               old@Queued(AfterQueue(o, targetPkg, env, connected0, prior));
      }
      return Ok(out);
    }

    /** The end of perturbAllDataImpl: the queue is spliced into the given
     *  target, or into a newly obtained parcel when there is none. */
    method WriteQueue(source: Parcel, target: Parcel?, objectsToWrite: seq<ParcelObject>, codec: Codec)
      returns (out: Parcel)
      requires source != target
      requires forall o :: o in objectsToWrite ==> o.WellTyped()
      requires InBounds(Entries(objectsToWrite, codec), |source.data|)
      requires AllSupported(Entries(objectsToWrite, codec))
      modifies target
      ensures out != source && (target != null ==> out == target) && (target == null ==> fresh(out))
      ensures SplicedInto(out.data, if target == null then [] else old(target.data), source.data, objectsToWrite, codec)
    {
      if target == null {
        out := new Parcel.Obtain();
      } else {
        out := target;
      }
      var copied, remaining := CopySourceToTargetParcel(source, out, objectsToWrite, codec);
    }

    /** The loop of perturbAllDataImpl: each binder is queued; each
     *  perturbable is processed and queued when admitted; the first record
     *  of another kind stops the loop (the caller throws). Each admitted
     *  perturbable ends holding what its first plugin's interposer made of
     *  it; every record left out of the queue keeps what it held. */
    method QueueRecords(targetPkg: string, rs: seq<ParcelObject>, env: Env) returns (known: bool, objectsToWrite: seq<ParcelObject>)
      requires Valid()
      requires forall o :: o in rs ==> o.WellTyped()
      modifies this`pluginProxies, pluginProxies.Values, (set o | o in rs)`perturbed
      ensures Valid()
      ensures known == KnownKinds(rs)
      ensures known ==> objectsToWrite == Queue(rs, targetPkg, env, old(ConnectedPlugins()))
      ensures known ==> forall o :: o in rs ==> o.perturbed == AfterQueue(o, targetPkg, env, old(ConnectedPlugins()), old(o.perturbed))
      ensures known ==> forall o :: o in rs && o.objectType == PERTURBABLE_OBJECT && Admitted(o, targetPkg, env, old(ConnectedPlugins())) ==>
                          FirstPlugin(o, targetPkg, env) in ConnectedPlugins()
      ensures forall o :: o in rs && !Admitted(o, targetPkg, env, old(ConnectedPlugins())) ==> o.perturbed == old(o.perturbed)
    {
      ghost var connected0 := ConnectedPlugins();
      objectsToWrite := [];
      for i := 0 to |rs|
        invariant Valid()
        invariant forall p :: p in pluginProxies ==> pluginProxies[p] in old(pluginProxies.Values) || fresh(pluginProxies[p])
        invariant connected0 <= ConnectedPlugins()
        invariant forall p :: p in ConnectedPlugins() ==> p in connected0 || Succeeds(env, p)
        invariant objectsToWrite == Queue(rs[..i], targetPkg, env, connected0)
        invariant KnownKinds(rs[..i])
        invariant forall o :: o in rs ==>
                    o.perturbed == if o in rs[..i] then AfterQueue(o, targetPkg, env, connected0, old(o.perturbed)) else old(o.perturbed)
        invariant forall o :: o in rs[..i] && o.objectType == PERTURBABLE_OBJECT && Admitted(o, targetPkg, env, connected0) ==>
                    FirstPlugin(o, targetPkg, env) in ConnectedPlugins()
      {
        assert rs[..i + 1][..i] == rs[..i];
        assert rs[..i + 1][i] == rs[i];
        var o := rs[i];
        assert o in rs;
        if o.objectType != BINDER_OBJECT && o.objectType != PERTURBABLE_OBJECT {
          assert !KnownKinds(rs) by {
            assert rs[i].objectType != BINDER_OBJECT && rs[i].objectType != PERTURBABLE_OBJECT;
          }
          return false, objectsToWrite;
        }
        ghost var before := ConnectedPlugins();
        label Turn:
        var admitted := ProcessRecord(targetPkg, o, env);
        AdmittedStable(o, targetPkg, env, connected0, before);
        if admitted {
          objectsToWrite := objectsToWrite + [o];
        }
        forall r | r in rs
          ensures r.perturbed ==
                  if r in rs[..i + 1] then AfterQueue(r, targetPkg, env, connected0, old(r.perturbed)) else old(r.perturbed)
        {
          if r.objectType == PERTURBABLE_OBJECT && r.perturbable.Some? && Admitted(r, targetPkg, env, connected0) {
            if r in rs[..i] {
              var first := FirstPlugin(r, targetPkg, env);
              assert first in before;
              assert HandlesOf(first) == old@Turn(HandlesOf(first));
              if r == o {
                PerturbedIdempotent(r.perturbable.value, HandlesOf(first), targetPkg, r.obj, env.interpose, old(r.perturbed));
              }
            }
          }
        }
      }
      assert rs[..|rs|] == rs;
      known := true;
    }

    /** One iteration of perturbAllDataImpl's loop for a binder or a
     *  perturbable: a binder is admitted; a perturbable is admitted, after
     *  perturbObject, when the first active plugin's proxy is connected. */
    method ProcessRecord(targetPkg: string, o: ParcelObject, env: Env) returns (admitted: bool)
      requires Valid() && o.WellTyped()
      requires o.objectType == BINDER_OBJECT || o.objectType == PERTURBABLE_OBJECT
      modifies this`pluginProxies, pluginProxies.Values, o`perturbed
      ensures Valid()
      ensures admitted == Admitted(o, targetPkg, env, old(ConnectedPlugins()))
      ensures old(ConnectedPlugins()) <= ConnectedPlugins()
      ensures forall p :: p in ConnectedPlugins() ==> p in old(ConnectedPlugins()) || Succeeds(env, p)
      ensures forall p :: p in pluginProxies ==> pluginProxies[p] in old(pluginProxies.Values) || fresh(pluginProxies[p])
      ensures !admitted ==> o.perturbed == old(o.perturbed)
      ensures o.perturbed == AfterQueue(o, targetPkg, env, old(ConnectedPlugins()), old(o.perturbed))
      ensures admitted && o.objectType == PERTURBABLE_OBJECT ==> FirstPlugin(o, targetPkg, env) in ConnectedPlugins()
      ensures forall p :: p in old(ConnectedPlugins()) ==> HandlesOf(p) == old(HandlesOf(p))
    {
      if o.objectType == BINDER_OBJECT {
        return true;
      }
      var info := o.perturbable.value;
      var plugins := env.activePlugins(targetPkg, InterposerFor(info.category));
      if plugins == [] {
        return false;
      }
      var plugin := plugins[0];
      var proxy := ConnectToPluginService(plugin.packageName, plugin.supportedAPIs, env);
      if !proxy.connected {
        return false;
      }
      PerturbObject(targetPkg, proxy, o, env);
      return true;
    }

    /** getPackageForPid: "" for a non-positive pid; a cached non-empty name;
     *  otherwise the activity manager's first package (or ""), which is
     *  then cached. */
    method GetPackageForPid(pid: int, env: Env) returns (r: Result<string>)
      modifies this`pidsToPackage
      ensures r == LookupPackage(pid, old(pidsToPackage), env)
      ensures pidsToPackage == CacheAfter(pid, old(pidsToPackage), env)
    {
      if pid <= 0 {
        return Ok("");
      }
      var targetPkg := "";
      if pid in pidsToPackage {
        targetPkg := pidsToPackage[pid];
      }
      if targetPkg == "" {
        var answer := env.packagesForPid(pid);
        if answer.Packages? {
          if |answer.names| == 0 {
            return Threw(IndexOutOfBounds);
          }
          targetPkg := answer.names[0];
        }
        pidsToPackage := pidsToPackage[pid := targetPkg];
      }
      return Ok(targetPkg);
    }

    /** perturbDataForBinderProxy. */
    method PerturbDataForBinderProxy(targetPid: int, source: Parcel, env: Env, codec: Codec)
      returns (r: Result<Parcel?>)
      requires Valid()
      requires forall o :: o in source.recordedObjects ==> o.WellTyped()
      requires PlacedWithin(source.recordedObjects, |source.data|)
      modifies this`pluginProxies, this`pidsToPackage, pluginProxies.Values, source`recording,
               (set o | o in source.recordedObjects)`perturbed
      ensures Valid()
      ensures !old(source.HasPerturbables()) ==>
                r == Ok(null) && unchanged(source) && pidsToPackage == old(pidsToPackage)
      ensures old(source.HasPerturbables()) ==> pidsToPackage == CacheAfter(targetPid, old(pidsToPackage), env)
      ensures old(source.HasPerturbables()) ==>
                match LookupPackage(targetPid, old(pidsToPackage), env)
                case Threw(e) => r == Threw(e)
                case Ok(pkg) =>
                  if pkg == "" then r == Ok(null)
                  else if !KnownKinds(source.recordedObjects) then r == Threw(UnsupportedOperation)
                  else r.Ok? && r.value != null && fresh(r.value) &&
                       SplicedInto(r.value.data, [], source.data,
                                   Queue(source.recordedObjects, pkg, env, old(ConnectedPlugins())), codec) &&
                       forall o :: o in source.recordedObjects ==>
                         o.perturbed == AfterQueue(o, pkg, env, old(ConnectedPlugins()), old(o.perturbed))
    {
      if !source.HasPerturbables() {
        r := Ok(null);
      } else {
        var targetPkg := GetPackageForPid(targetPid, env);
        if targetPkg.Threw? {
          r := Threw(targetPkg.error);
        } else if targetPkg.value == "" {
          r := Ok(null);
        } else {
          r := PerturbAllDataImpl(targetPkg.value, source, null, env, codec);
        }
      }
    }

    /** fixupParcelForBinder: the target is always filled, with the
     *  perturbed splice when a package is known, and with the source's own
     *  recorded objects otherwise. */
    method FixupParcelForBinder(callingPid: int, source: Parcel, target: Parcel, env: Env, codec: Codec)
      returns (r: Result<()>)
      requires Valid() && source != target
      requires forall o :: o in source.recordedObjects ==> o.WellTyped()
      requires PlacedWithin(source.recordedObjects, |source.data|)
      modifies this`pluginProxies, this`pidsToPackage, pluginProxies.Values, source`recording, target,
               (set o | o in source.recordedObjects)`perturbed
      ensures Valid()
      ensures !old(source.HasPerturbables()) ==>
                pidsToPackage == old(pidsToPackage) &&
                (r.Ok? <==> AllSupported(Entries(source.recordedObjects, codec))) &&
                SplicedInto(target.data, old(target.data), source.data, source.recordedObjects, codec)
      ensures old(source.HasPerturbables()) ==>
                match LookupPackage(callingPid, old(pidsToPackage), env)
                case Threw(e) => r == Threw(e) && unchanged(target)
                case Ok(pkg) =>
                  if pkg == "" then
                    (r.Ok? <==> AllSupported(Entries(source.recordedObjects, codec))) &&
                    SplicedInto(target.data, old(target.data), source.data, source.recordedObjects, codec)
                  else if !KnownKinds(source.recordedObjects) then r == Threw(UnsupportedOperation)
                  else r.Ok? &&
                       SplicedInto(target.data, old(target.data), source.data,
                                   Queue(source.recordedObjects, pkg, env, old(ConnectedPlugins())), codec) &&
                       forall o :: o in source.recordedObjects ==>
                         o.perturbed == AfterQueue(o, pkg, env, old(ConnectedPlugins()), old(o.perturbed))
    {
      if source.HasPerturbables() {
        r := FixupPerturbables(callingPid, source, target, env, codec);
      } else {
        PlacedWithinInBounds(source.recordedObjects, |source.data|, codec);
        var remaining;
        r, remaining := CopySourceToTargetParcel(source, target, source.recordedObjects, codec);
      }
    }

    /** fixupParcelForBinder for a source that recorded a perturbable: the
     *  package of the calling pid decides between the plain copy and
     *  perturbAllDataImpl. */
    method FixupPerturbables(callingPid: int, source: Parcel, target: Parcel, env: Env, codec: Codec)
      returns (r: Result<()>)
      requires Valid() && source != target && source.HasPerturbables()
      requires forall o :: o in source.recordedObjects ==> o.WellTyped()
      requires PlacedWithin(source.recordedObjects, |source.data|)
      modifies this`pluginProxies, this`pidsToPackage, pluginProxies.Values, source`recording, target,
               (set o | o in source.recordedObjects)`perturbed
      ensures Valid()
      ensures match LookupPackage(callingPid, old(pidsToPackage), env)
              case Threw(e) => r == Threw(e) && unchanged(target)
              case Ok(pkg) =>
                if pkg == "" then
                  (r.Ok? <==> AllSupported(Entries(source.recordedObjects, codec))) &&
                  SplicedInto(target.data, old(target.data), source.data, source.recordedObjects, codec)
                else if !KnownKinds(source.recordedObjects) then r == Threw(UnsupportedOperation)
                else r.Ok? &&
                     SplicedInto(target.data, old(target.data), source.data,
                                 Queue(source.recordedObjects, pkg, env, old(ConnectedPlugins())), codec) &&
                     forall o :: o in source.recordedObjects ==>
                       o.perturbed == AfterQueue(o, pkg, env, old(ConnectedPlugins()), old(o.perturbed))
    {
      var rs := source.recordedObjects;
      var targetPkg := GetPackageForPid(callingPid, env);
      if targetPkg.Threw? {
        r := Threw(targetPkg.error);
      } else if targetPkg.value == "" {
        PlacedWithinInBounds(rs, |source.data|, codec);
        var remaining;
        r, remaining := CopySourceToTargetParcel(source, target, rs, codec);
      } else {
        r := PerturbInto(targetPkg.value, source, target, env, codec);
      }
    }

    /** The perturbing branch of fixupParcelForBinder: perturbAllDataImpl
     *  into the given target, its result reduced to success or the
     *  exception. */
    method PerturbInto(targetPkg: string, source: Parcel, target: Parcel, env: Env, codec: Codec)
      returns (r: Result<()>)
      requires Valid() && source != target && source.HasPerturbables()
      requires forall o :: o in source.recordedObjects ==> o.WellTyped()
      requires PlacedWithin(source.recordedObjects, |source.data|)
      modifies this`pluginProxies, pluginProxies.Values, source`recording, target,
               (set o | o in source.recordedObjects)`perturbed
      ensures Valid()
      ensures !KnownKinds(source.recordedObjects) ==> r == Threw(UnsupportedOperation)
      ensures KnownKinds(source.recordedObjects) ==>
                r.Ok? &&
                SplicedInto(target.data, old(target.data), source.data,
                            Queue(source.recordedObjects, targetPkg, env, old(ConnectedPlugins())), codec) &&
                forall o :: o in source.recordedObjects ==>
                  o.perturbed == AfterQueue(o, targetPkg, env, old(ConnectedPlugins()), old(o.perturbed))
    {
      var val := PerturbAllDataImpl(targetPkg, source, target, env, codec);
      r := if val.Threw? then Threw(val.error) else Ok(());
    }

    /** setInterposerForStorageTracer: the first package locks the tracer;
     *  a different package later throws RuntimeException before anything
     *  else happens; the interposer is then re-fetched, an exception leaving
     *  it as it was. */
    method SetInterposerForStorageTracer(packageName: string, env: Env) returns (r: Result<()>)
      modifies this`storageTracerPackage, this`storageInterposer
      ensures storageTracerPackage == if old(storageTracerPackage).None? then Some(packageName) else old(storageTracerPackage)
      ensures r.Threw? <==> old(storageTracerPackage).Some? && old(storageTracerPackage).value != packageName
      ensures r.Threw? ==> r.error == Runtime && storageInterposer == old(storageInterposer)
      ensures r.Ok? ==> storageInterposer == match env.storageInterposer(packageName)
                                             case StorageFailed => old(storageInterposer)
                                             case StorageBinder(b) => b
      ensures storageTracerPackage.Some?
    {
      if storageTracerPackage.None? {
        storageTracerPackage := Some(packageName);
      } else if packageName != storageTracerPackage.value {
        return Threw(Runtime);
      }
      var answer := env.storageInterposer(packageName);
      if answer.StorageBinder? {
        storageInterposer := answer.binder;
      }
      return Ok(());
    }
  }
}
