/**
 * PermissionsPluginProxyManager: the per-app manager that loads the plugin
 * bridge into an app once, installs the API interceptor and hooks the fused
 * location client's requestLocationUpdates.
 */
module ProxyManager {
  import opened Wrappers

  /** Package-name prefixes of apps the manager never initialises for. */
  const IGNORED_PACKAGES: seq<string> := ["android", "com.google", "com.android", "com.qualcomm"]

  const SET_PROXY_CALLBACKS: string := "setProxyCallbacks"
  const REQUEST_LOCATION_UPDATES: string := "requestLocationUpdates"
  const TARGET_HOOK: string := "FusedLocationHook_targetHook"
  const TARGET_BACKUP: string := "FusedLocationHook_targetBackup"

  /** String.startsWith. */
  predicate StartsWith(s: string, prefix: string) {
    |prefix| <= |s| && s[..|prefix|] == prefix
  }

  /** The package belongs to the platform or a vendor and is left alone. */
  predicate Ignored(packageName: string) {
    exists i :: 0 <= i < |IGNORED_PACKAGES| && StartsWith(packageName, IGNORED_PACKAGES[i])
  }

  /** The prefixes are matched character by character, not by package
   *  component: any text appended to an ignored prefix (such as
   *  "com.android" + "games.chess") still names an ignored package, and
   *  every ignored package starts with "android" or "com.", so no other
   *  name is ever ignored. */
  lemma IgnoredIsTextualPrefix(name: string, suffix: string)
    ensures forall i :: 0 <= i < |IGNORED_PACKAGES| ==> Ignored(IGNORED_PACKAGES[i] + suffix)
    ensures Ignored(name) ==> StartsWith(name, "android") || StartsWith(name, "com.")
  {
    forall i | 0 <= i < |IGNORED_PACKAGES|
      ensures Ignored(IGNORED_PACKAGES[i] + suffix)
    {
      var prefix := IGNORED_PACKAGES[i];
      assert (prefix + suffix)[..|prefix|] == prefix;
      assert StartsWith(prefix + suffix, IGNORED_PACKAGES[i]);
    }
    if Ignored(name) {
      var i :| 0 <= i < |IGNORED_PACKAGES| && StartsWith(name, IGNORED_PACKAGES[i]);
      PrefixOfIgnored(name, i);
    }
  }

  /** An ignored prefix is either "android" or begins with "com.". */
  lemma PrefixOfIgnored(name: string, i: nat)
    requires i < |IGNORED_PACKAGES| && StartsWith(name, IGNORED_PACKAGES[i])
    ensures StartsWith(name, "android") || StartsWith(name, "com.")
  {
    var prefix := IGNORED_PACKAGES[i];
    if i != 0 {
      assert prefix[..4] == "com.";
      assert name[..4] == name[..|prefix|][..4];
    }
  }

  /** A declared method, by name and parameter count. */
  datatype MethodSig = MethodSig(name: string, parameterCount: nat)

  /** The last method of `ms` with the given name (and parameter count, when
   *  one is given): what a loop that overwrites its pick on every match ends
   *  with. */
  function LastMatching(ms: seq<MethodSig>, name: string, arity: Option<nat>): Option<MethodSig>
    decreases |ms|
  {
    if ms == [] then None
    else
      var m := ms[|ms| - 1];
      if m.name == name && (arity.None? || m.parameterCount == arity.value) then Some(m)
      else LastMatching(ms[..|ms| - 1], name, arity)
  }

  predicate MatchesSig(m: MethodSig, name: string, arity: Option<nat>) {
    m.name == name && (arity.None? || m.parameterCount == arity.value)
  }

  /** LastMatching finds a matching method with no match after it, and
   *  finds nothing exactly when nothing matches. */
  lemma {:induction false} LastMatchingIsLast(ms: seq<MethodSig>, name: string, arity: Option<nat>)
    ensures LastMatching(ms, name, arity).None? <==> forall i :: 0 <= i < |ms| ==> !MatchesSig(ms[i], name, arity)
    ensures LastMatching(ms, name, arity).Some? ==>
              exists i :: 0 <= i < |ms| && ms[i] == LastMatching(ms, name, arity).value &&
                          MatchesSig(ms[i], name, arity) &&
                          forall j :: i < j < |ms| ==> !MatchesSig(ms[j], name, arity)
    decreases |ms|
  {
    if ms != [] {
      var init := ms[..|ms| - 1];
      LastMatchingIsLast(init, name, arity);
      if !MatchesSig(ms[|ms| - 1], name, arity) {
        assert forall i :: 0 <= i < |init| ==> init[i] == ms[i];
        if LastMatching(ms, name, arity).Some? {
          var i :| 0 <= i < |init| && init[i] == LastMatching(init, name, arity).value &&
                   MatchesSig(init[i], name, arity) &&
                   forall j :: i < j < |init| ==> !MatchesSig(init[j], name, arity);
          assert forall j :: i < j < |ms| ==> !MatchesSig(ms[j], name, arity);
        }
      }
    }
  }

  /** LastMatching of a longer list: the new method when it matches, the
   *  earlier pick otherwise. */
  lemma LastMatchingSnoc(ms: seq<MethodSig>, m: MethodSig, name: string, arity: Option<nat>)
    ensures LastMatching(ms + [m], name, arity) ==
              if MatchesSig(m, name, arity) then Some(m) else LastMatching(ms, name, arity)
  {
    assert (ms + [m])[..|ms + [m]| - 1] == ms;
  }

  /** A Java-level method hooked through the API interceptor. */
  datatype Hook = Hook(target: MethodSig, hook: MethodSig, backup: MethodSig)

  /** What class loading, reflection and the interceptor answer. */
  datatype LoaderAnswers = LoaderAnswers(
    bridgeMethods: Option<seq<MethodSig>>,   // PermissionsBridge's declared methods; None when it cannot be loaded
    invokeOk: bool,                          // setProxyCallbacks could be invoked
    interceptorOk: bool,                     // ApiInterceptor.initialize succeeded
    fusedClient: Option<seq<MethodSig>>,     // FusedLocationProviderClient's declared methods, if the app has it
    hookClass: Option<seq<MethodSig>>)       // LocationHooks' declared methods, if the bridge has it

  /** The methods hookFusedLocationProviderClient would hook, if any. */
  function HookFor(a: LoaderAnswers): Option<Hook> {
    if a.fusedClient.None? || a.hookClass.None? then None
    else
      var target := LastMatching(a.fusedClient.value, REQUEST_LOCATION_UPDATES, Some(3));
      var hook := LastMatching(a.hookClass.value, TARGET_HOOK, None);
      var backup := LastMatching(a.hookClass.value, TARGET_BACKUP, None);
      if target.None? || hook.None? || backup.None? then None
      else Some(Hook(target.value, hook.value, backup.value))
  }

  /** A hook is installed only on a three-parameter requestLocationUpdates,
   *  and only with both the target hook and its backup. */
  lemma HookForShape(a: LoaderAnswers)
    ensures HookFor(a).Some? ==>
              HookFor(a).value.target.name == REQUEST_LOCATION_UPDATES &&
              HookFor(a).value.target.parameterCount == 3 &&
              HookFor(a).value.target in a.fusedClient.value &&
              HookFor(a).value.hook.name == TARGET_HOOK && HookFor(a).value.hook in a.hookClass.value &&
              HookFor(a).value.backup.name == TARGET_BACKUP && HookFor(a).value.backup in a.hookClass.value
  {
    if HookFor(a).Some? {
      LastMatchingIsLast(a.fusedClient.value, REQUEST_LOCATION_UPDATES, Some(3));
      LastMatchingIsLast(a.hookClass.value, TARGET_HOOK, None);
      LastMatchingIsLast(a.hookClass.value, TARGET_BACKUP, None);
    }
  }

  /** Looks for `name` among the declared methods in order, keeping the last
   *  match (one loop of hookFusedLocationProviderClient). */
  method FindLast(ms: seq<MethodSig>, name: string, arity: Option<nat>) returns (found: Option<MethodSig>)
    ensures found == LastMatching(ms, name, arity)
  {
    found := None;
    var i := 0;
    while i < |ms|
      invariant 0 <= i <= |ms|
      invariant found == LastMatching(ms[..i], name, arity)
    {
      LastMatchingSnoc(ms[..i], ms[i], name, arity);
      assert ms[..i + 1] == ms[..i] + [ms[i]];
      if MatchesSig(ms[i], name, arity) {
        found := Some(ms[i]);
      }
      i := i + 1;
    }
    assert ms[..i] == ms;
  }

  /** Whether the bridge's setProxyCallbacks is among the declared methods
   *  (the loop breaks at the first one). */
  method HasMethod(ms: seq<MethodSig>, name: string) returns (found: bool)
    ensures found <==> exists i :: 0 <= i < |ms| && ms[i].name == name
  {
    found := false;
    var i := 0;
    while i < |ms|
      invariant 0 <= i <= |ms|
      invariant forall j :: 0 <= j < i ==> ms[j].name != name
    {
      if ms[i].name == name {
        return true;
      }
      i := i + 1;
    }
  }

  class PermissionsPluginProxyManager {
    var packageName: Option<string>
    var initialized: bool
    var classLoader: Option<nat>
    /** The bridge class loader has been created. */
    var bridgeLoaded: bool
    /** The hook installed through the API interceptor, if any. */
    var hook: Option<Hook>

    constructor ()
      ensures packageName == None && !initialized && classLoader == None && !bridgeLoaded && hook == None
    {
      packageName := None;
      initialized := false;
      classLoader := None;
      bridgeLoaded := false;
      hook := None;
    }

    /** The loop over the ignored prefixes. */
    static method IsIgnored(name: string) returns (ignored: bool)
      ensures ignored <==> Ignored(name)
    {
      for i := 0 to |IGNORED_PACKAGES|
        invariant forall j :: 0 <= j < i ==> !StartsWith(name, IGNORED_PACKAGES[j])
      {
        if StartsWith(name, IGNORED_PACKAGES[i]) {
          return true;
        }
      }
      return false;
    }

    /** initialize: does nothing for an ignored package; refuses a second
     *  initialisation; gives up quietly when the bridge cannot be loaded or
     *  has no setProxyCallbacks; otherwise records the package and class
     *  loader, installs the hooks (a failing interceptor throws
     *  IllegalStateException and leaves the manager uninitialised) and only
     *  then marks itself initialised. */
    method Initialize(name: string, loader: nat, a: LoaderAnswers) returns (r: Result<()>)
      modifies this
      ensures Ignored(name) ==> r == Ok(()) && unchanged(this)
      ensures !Ignored(name) && old(initialized) ==> r == Threw(UnsupportedOperation) && unchanged(this)
      ensures !Ignored(name) && !old(initialized) ==>
                var bridged := a.bridgeMethods.Some? && a.invokeOk &&
                               (exists i :: 0 <= i < |a.bridgeMethods.value| && a.bridgeMethods.value[i].name == SET_PROXY_CALLBACKS);
                bridgeLoaded &&
                (!bridged ==>
                   r == Ok(()) && !initialized && packageName == old(packageName) &&
                   classLoader == old(classLoader) && hook == old(hook)) &&
                (bridged && !a.interceptorOk ==>
                   r == Threw(IllegalState) && !initialized &&
                   packageName == Some(name) && classLoader == Some(loader) && hook == old(hook)) &&
                (bridged && a.interceptorOk ==>
                   r == Ok(()) && initialized && packageName == Some(name) && classLoader == Some(loader) &&
                   hook == (if HookFor(a).Some? then HookFor(a) else old(hook)))
      ensures initialized ==> old(initialized) || packageName == Some(name)
    {
      var ignored := IsIgnored(name);
      if ignored {
        return Ok(());
      }
      if initialized {
        return Threw(UnsupportedOperation);
      }
      bridgeLoaded := true;
      if a.bridgeMethods.None? {
        return Ok(());
      }
      var hasSetter := HasMethod(a.bridgeMethods.value, SET_PROXY_CALLBACKS);
      if !hasSetter || !a.invokeOk {
        return Ok(());
      }
      packageName := Some(name);
      classLoader := Some(loader);
      r := InitializeHooks(a);
      if r.Threw? {
        return r;
      }
      initialized := true;
    }

    /** initializeHooks: a failing interceptor throws IllegalStateException;
     *  otherwise the fused location client is hooked. */
    method InitializeHooks(a: LoaderAnswers) returns (r: Result<()>)
      modifies this`hook
      ensures !a.interceptorOk ==> r == Threw(IllegalState) && hook == old(hook)
      ensures a.interceptorOk ==> r == Ok(()) && hook == (if HookFor(a).Some? then HookFor(a) else old(hook))
    {
      if !a.interceptorOk {
        return Threw(IllegalState);
      }
      HookFusedLocationProviderClient(a);
      return Ok(());
    }

    /** hookFusedLocationProviderClient: gives up when either class is
     *  missing, when no three-parameter requestLocationUpdates exists, or
     *  when the target hook or its backup is missing. */
    method HookFusedLocationProviderClient(a: LoaderAnswers)
      modifies this`hook
      ensures hook == (if HookFor(a).Some? then HookFor(a) else old(hook))
    {
      if a.fusedClient.None? || a.hookClass.None? {
        return;
      }
      var target := FindLast(a.fusedClient.value, REQUEST_LOCATION_UPDATES, Some(3));
      if target.None? {
        return;
      }
      var targetHook := FindLast(a.hookClass.value, TARGET_HOOK, None);
      var targetBackup := FindLast(a.hookClass.value, TARGET_BACKUP, None);
      if targetHook.None? || targetBackup.None? {
        return;
      }
      hook := Some(Hook(target.value, targetHook.value, targetBackup.value));
    }
  }

  /** modifyLocationData: the manager's own callback leaves the location
   *  result as it is. */
  function ModifyLocationData<T>(locationResult: T): (r: T)
    ensures r == locationResult
  {
    locationResult
  }
}
