/**
 * The connection to one plugin's service: PluginProxy (the current
 * version, with four interposer handles) and PluginService (the older,
 * location-only version). Both keep two flags, connecting and connected,
 * driven by connect() and the three ServiceConnection callbacks.
 *
 * The remote side is a parameter: whether an application context exists,
 * whether bindService accepts, and what the plugin service answers to each
 * getXxxInterposerRaw call. Waiting on the monitor is not modelled; a
 * callback is a method call.
 */
module PluginConnection {
  import opened Wrappers

  const PLUGIN_MAIN: string := ".PluginMain"

  const INTERPOSER_LOCATION: string := "location"
  const INTERPOSER_CONTACTS: string := "contacts"
  const INTERPOSER_CALENDAR: string := "calendar"
  const INTERPOSER_CAMERA: string := "camera"

  /** Identity of a remote object (a binder or an interface wrapping it). */
  type Handle = nat

  /** What the plugin service answers to one getXxxInterposer call. */
  datatype Fetch = Binder(handle: Handle) | NullBinder | RemoteError

  /** The four interposer handles a PluginProxy holds (None is null). */
  datatype Handles = Handles(
    location: Option<Handle>,
    contacts: Option<Handle>,
    calendar: Option<Handle>,
    camera: Option<Handle>)

  const NoHandles: Handles := Handles(None, None, None, None)

  /** The interposer names PluginProxy knows how to fetch. */
  predicate Known(name: string) {
    name == INTERPOSER_LOCATION || name == INTERPOSER_CONTACTS ||
    name == INTERPOSER_CALENDAR || name == INTERPOSER_CAMERA
  }

  /** The handle kept for a known interposer name. */
  function Slot(h: Handles, name: string): Option<Handle>
    requires Known(name)
  {
    if name == INTERPOSER_LOCATION then h.location
    else if name == INTERPOSER_CONTACTS then h.contacts
    else if name == INTERPOSER_CALENDAR then h.calendar
    else h.camera
  }

  /** One iteration of PluginProxy.retrieveInterposers: a known name whose
   *  raw binder is non-null replaces that handle; a null binder, a
   *  RemoteException or an unknown name leave everything as it was. */
  function RetrieveOne(name: string, answer: string -> Fetch, h: Handles): Handles {
    if !Known(name) then h
    else match answer(name)
      case Binder(b) =>
        if name == INTERPOSER_LOCATION then h.(location := Some(b))
        else if name == INTERPOSER_CONTACTS then h.(contacts := Some(b))
        else if name == INTERPOSER_CALENDAR then h.(calendar := Some(b))
        else h.(camera := Some(b))
      case NullBinder => h
      case RemoteError => h
  }

  /** The handles after retrieveInterposers has gone through `names` in order. */
  function Retrieve(names: seq<string>, answer: string -> Fetch, h: Handles): Handles
    decreases |names|
  {
    if names == [] then h
    else RetrieveOne(names[|names| - 1], answer, Retrieve(names[..|names| - 1], answer, h))
  }

  /** What retrieveInterposers achieves, name by name: a requested interposer
   *  whose service answers with a binder gets that binder; every other
   *  handle (not requested, null answer, RemoteException) keeps its value. */
  lemma {:induction false} RetrieveSlot(names: seq<string>, answer: string -> Fetch, h: Handles, name: string)
    requires Known(name)
    ensures Slot(Retrieve(names, answer, h), name) ==
            if name in names && answer(name).Binder? then Some(answer(name).handle) else Slot(h, name)
    decreases |names|
  {
    if names != [] {
      var init := names[..|names| - 1];
      RetrieveSlot(init, answer, h, name);
      assert names == init + [names[|names| - 1]];
      assert name in names <==> name in init || name == names[|names| - 1];
    }
  }

  /** Names other than the four known ones are skipped. */
  lemma {:induction false} RetrieveIgnoresUnknown(names: seq<string>, answer: string -> Fetch, h: Handles)
    requires forall i :: 0 <= i < |names| ==> !Known(names[i])
    ensures Retrieve(names, answer, h) == h
    decreases |names|
  {
    if names != [] {
      RetrieveIgnoresUnknown(names[..|names| - 1], answer, h);
    }
  }

  /** A proxy to a distinct plugin service. */
  class PluginProxy {
    const package: string
    const interposers: seq<string>
    /** The ComponentName as (package, class name). */
    const component: (string, string)

    var service: Option<Handle>
    var locationInterposer: Option<Handle>
    var contactsInterposer: Option<Handle>
    var calendarInterposer: Option<Handle>
    var cameraInterposer: Option<Handle>

    var connecting: bool
    var connected: bool

    /** The interposer handles as one value. */
    function Current(): Handles
      reads this
    {
      Handles(locationInterposer, contactsInterposer, calendarInterposer, cameraInterposer)
    }

    constructor (pluginPackage: string, interposers: seq<string>)
      ensures package == pluginPackage && this.interposers == interposers
      ensures component == (pluginPackage, pluginPackage + PLUGIN_MAIN)
      ensures service == None && Current() == NoHandles
      ensures !connecting && !connected
    {
      package := pluginPackage;
      this.interposers := interposers;
      component := (pluginPackage, pluginPackage + PLUGIN_MAIN);
      service := None;
      locationInterposer := None;
      contactsInterposer := None;
      calendarInterposer := None;
      cameraInterposer := None;
      connecting := false;
      connected := false;
    }

    /** Asks for a binding; `hasContext` is whether an application context
     *  exists and `bindAccepted` is what bindService answers. */
    method Connect(hasContext: bool, bindAccepted: bool) returns (started: bool)
      modifies this`connecting
      ensures started == (hasContext && bindAccepted)
      ensures connecting == (started || old(connecting))
    {
      if !hasContext {
        return false;
      }
      if bindAccepted {
        connecting := true;
      } else {
        return false;
      }
      return true;
    }

    /** Fetches every requested interposer from the connected service. */
    method RetrieveInterposers(answer: string -> Fetch)
      modifies this`locationInterposer, this`contactsInterposer,
               this`calendarInterposer, this`cameraInterposer
      ensures Current() == Retrieve(interposers, answer, old(Current()))
    {
      for i := 0 to |interposers|
        invariant Current() == Retrieve(interposers[..i], answer, old(Current()))
      {
        var name := interposers[i];
        assert interposers[..i + 1][..i] == interposers[..i];
        if name == INTERPOSER_LOCATION {
          var fetched := answer(name);
          if fetched.Binder? {
            locationInterposer := Some(fetched.handle);
          }
        } else if name == INTERPOSER_CONTACTS {
          var fetched := answer(name);
          if fetched.Binder? {
            contactsInterposer := Some(fetched.handle);
          }
        } else if name == INTERPOSER_CALENDAR {
          var fetched := answer(name);
          if fetched.Binder? {
            calendarInterposer := Some(fetched.handle);
          }
        } else if name == INTERPOSER_CAMERA {
          var fetched := answer(name);
          if fetched.Binder? {
            cameraInterposer := Some(fetched.handle);
          }
        }
      }
      assert interposers[..|interposers|] == interposers;
    }

    /** The onServiceConnected callback: keep the service, retrieve the
     *  interposers, then mark the proxy connected. */
    method OnServiceConnected(binder: Handle, answer: string -> Fetch)
      modifies this
      ensures service == Some(binder)
      ensures Current() == Retrieve(interposers, answer, old(Current()))
      ensures !connecting && connected
    {
      service := Some(binder);
      RetrieveInterposers(answer);
      connecting := false;
      connected := true;
    }

    /** The private reset of the connection: only the service, the location
     *  handle and the two flags are cleared. */
    method Reset()
      modifies this`service, this`locationInterposer, this`connecting, this`connected
      ensures service == None && locationInterposer == None
      ensures !connecting && !connected
    {
      service := None;
      locationInterposer := None;
      connecting := false;
      connected := false;
    }

    /** The onServiceDisconnected callback. */
    method OnServiceDisconnected()
      modifies this`service, this`locationInterposer, this`connecting, this`connected
      ensures service == None && locationInterposer == None
      ensures !connecting && !connected
    {
      Reset();
    }

    /** The onBindingDied callback (unbinding is a remote call, not modelled). */
    method OnBindingDied()
      modifies this`service, this`locationInterposer, this`connecting, this`connected
      ensures service == None && locationInterposer == None
      ensures !connecting && !connected
    {
      Reset();
    }

    predicate IsConnected() reads this { connected }
    predicate IsTryingToConnect() reads this { connecting }
  }

  // ---------------------------------------------------------------------
  // The older, location-only PluginService.

  /** One iteration of PluginService.retrieveInterposers: the location
   *  interposer is assigned whatever the service returns, null included;
   *  a RemoteException leaves it as it was. */
  function RetrieveLocationOne(name: string, answer: string -> Fetch, loc: Option<Handle>): Option<Handle> {
    if name != INTERPOSER_LOCATION then loc
    else match answer(name)
      case Binder(b) => Some(b)
      case NullBinder => None
      case RemoteError => loc
  }

  function RetrieveLocation(names: seq<string>, answer: string -> Fetch, loc: Option<Handle>): Option<Handle>
    decreases |names|
  {
    if names == [] then loc
    else RetrieveLocationOne(names[|names| - 1], answer, RetrieveLocation(names[..|names| - 1], answer, loc))
  }

  /** Only "location" is fetched: when it is requested the handle becomes
   *  the service's answer (null included) unless the call failed remotely. */
  lemma {:induction false} RetrieveLocationResult(names: seq<string>, answer: string -> Fetch, loc: Option<Handle>)
    ensures RetrieveLocation(names, answer, loc) ==
            if INTERPOSER_LOCATION !in names then loc
            else match answer(INTERPOSER_LOCATION)
              case Binder(b) => Some(b)
              case NullBinder => None
              case RemoteError => loc
    decreases |names|
  {
    if names != [] {
      var init := names[..|names| - 1];
      RetrieveLocationResult(init, answer, loc);
      assert names == init + [names[|names| - 1]];
      assert INTERPOSER_LOCATION in names <==> INTERPOSER_LOCATION in init || INTERPOSER_LOCATION == names[|names| - 1];
    }
  }

  class PluginService {
    const package: string
    const interposers: seq<string>
    const component: (string, string)

    var service: Option<Handle>
    var locationInterposer: Option<Handle>
    var connecting: bool
    var connected: bool

    constructor (pluginPackage: string, interposers: seq<string>)
      ensures package == pluginPackage && this.interposers == interposers
      ensures component == (pluginPackage, pluginPackage + PLUGIN_MAIN)
      ensures service == None && locationInterposer == None
      ensures !connecting && !connected
    {
      package := pluginPackage;
      this.interposers := interposers;
      component := (pluginPackage, pluginPackage + PLUGIN_MAIN);
      service := None;
      locationInterposer := None;
      connecting := false;
      connected := false;
    }

    method Connect(hasContext: bool, bindAccepted: bool) returns (started: bool)
      modifies this`connecting
      ensures started == (hasContext && bindAccepted)
      ensures connecting == (started || old(connecting))
    {
      if !hasContext {
        return false;
      }
      if bindAccepted {
        connecting := true;
      } else {
        return false;
      }
      return true;
    }

    method RetrieveInterposers(answer: string -> Fetch)
      modifies this`locationInterposer
      ensures locationInterposer == RetrieveLocation(interposers, answer, old(locationInterposer))
    {
      for i := 0 to |interposers|
        invariant locationInterposer == RetrieveLocation(interposers[..i], answer, old(locationInterposer))
      {
        assert interposers[..i + 1][..i] == interposers[..i];
        if interposers[i] == INTERPOSER_LOCATION {
          match answer(interposers[i])
          case Binder(b) => locationInterposer := Some(b);
          case NullBinder => locationInterposer := None;
          case RemoteError =>
        }
      }
      assert interposers[..|interposers|] == interposers;
    }

    method OnServiceConnected(binder: Handle, answer: string -> Fetch)
      modifies this
      ensures service == Some(binder)
      ensures locationInterposer == RetrieveLocation(interposers, answer, old(locationInterposer))
      ensures !connecting && connected
    {
      service := Some(binder);
      RetrieveInterposers(answer);
      connecting := false;
      connected := true;
    }

    method Reset()
      modifies this`service, this`locationInterposer, this`connecting, this`connected
      ensures service == None && locationInterposer == None
      ensures !connecting && !connected
    {
      service := None;
      locationInterposer := None;
      connecting := false;
      connected := false;
    }

    method OnServiceDisconnected()
      modifies this`service, this`locationInterposer, this`connecting, this`connected
      ensures service == None && locationInterposer == None
      ensures !connecting && !connected
    {
      Reset();
    }

    method OnBindingDied()
      modifies this`service, this`locationInterposer, this`connecting, this`connected
      ensures service == None && locationInterposer == None
      ensures !connecting && !connected
    {
      Reset();
    }

    predicate IsConnected() reads this { connected }
    predicate IsTryingToConnect() reads this { connecting }
  }
}
