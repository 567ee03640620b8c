/**
 * LocationHooks: the replacement for FusedLocationProviderClient's
 * requestLocationUpdates installed in an app. It wraps the app's callback so
 * that every registered location interposer rewrites each location result
 * before the app sees it.
 */
module LocationHooks {
  /** A location result as the app's callback sees it; interposers may turn
   *  it into null. */
  datatype LocationResult = NullResult | LocationResult(locations: seq<int>)

  /** A location-availability notice. */
  datatype LocationAvailability = LocationAvailability(available: bool)

  /** A call received by the app's original callback. */
  datatype Delivery = OnResult(result: LocationResult) | OnAvailability(availability: LocationAvailability)

  /** Applies the interposers in iteration order, each to the previous
   *  output; `rewrite` is what an interposer's modifyLocationData returns. */
  function Fold(rewrite: (int, LocationResult) -> LocationResult, interposers: seq<int>, r: LocationResult): LocationResult
    decreases |interposers|
  {
    if interposers == [] then r
    else Fold(rewrite, interposers[1..], rewrite(interposers[0], r))
  }

  /** One more interposer applies after all the earlier ones. */
  lemma {:induction false} FoldSnoc(rewrite: (int, LocationResult) -> LocationResult, interposers: seq<int>, i: int, r: LocationResult)
    ensures Fold(rewrite, interposers + [i], r) == rewrite(i, Fold(rewrite, interposers, r))
    decreases |interposers|
  {
    if interposers != [] {
      assert (interposers + [i])[1..] == interposers[1..] + [i];
      FoldSnoc(rewrite, interposers[1..], i, rewrite(interposers[0], r));
    }
  }

  /** With no interposer registered the result passes through unchanged. */
  lemma FoldNone(rewrite: (int, LocationResult) -> LocationResult, r: LocationResult)
    ensures Fold(rewrite, [], r) == r
  {
  }

  /** A single interposer's answer is what the app gets. */
  lemma FoldOne(rewrite: (int, LocationResult) -> LocationResult, i: int, r: LocationResult)
    ensures Fold(rewrite, [i], r) == rewrite(i, r)
  {
  }

  /** The callback wrapper targetHook creates around the app's callback. */
  class WrappedCallback {
    /** originalCB. */
    const original: nat
    /** What the original callback has received so far. */
    var delivered: seq<Delivery>

    constructor (original: nat)
      ensures this.original == original && delivered == []
    {
      this.original := original;
      delivered := [];
    }

    /** onLocationResult: folds every registered interposer over the result,
     *  then hands the final value to the original callback exactly once. */
    method OnLocationResult(r: LocationResult, interposers: seq<int>, rewrite: (int, LocationResult) -> LocationResult)
      modifies this`delivered
      ensures delivered == old(delivered) + [OnResult(Fold(rewrite, interposers, r))]
    {
      var modified := r;
      for k := 0 to |interposers|
        invariant modified == Fold(rewrite, interposers[..k], r)
        invariant delivered == old(delivered)
      {
        FoldSnoc(rewrite, interposers[..k], interposers[k], r);
        assert interposers[..k + 1] == interposers[..k] + [interposers[k]];
        modified := rewrite(interposers[k], modified);
      }
      assert interposers[..|interposers|] == interposers;
      delivered := delivered + [OnResult(modified)];
    }

    /** onLocationAvailability: forwarded unchanged. */
    method OnLocationAvailability(a: LocationAvailability)
      modifies this`delivered
      ensures delivered == old(delivered) + [OnAvailability(a)]
    {
      delivered := delivered + [OnAvailability(a)];
    }
  }

  /** The call targetHook makes on the original requestLocationUpdates. */
  datatype BackupCall = BackupCall(client: nat, request: nat, callback: WrappedCallback, looper: nat)

  /** FusedLocationHook_targetHook: calls the original method through its
   *  backup with the same client, request and looper, and a new wrapper
   *  around the app's callback. */
  method TargetHook(client: nat, request: nat, callback: nat, looper: nat) returns (call: BackupCall)
    ensures fresh(call.callback) && call.callback.original == callback && call.callback.delivered == []
    ensures call.client == client && call.request == request && call.looper == looper
  {
    var wrapped := new WrappedCallback(callback);
    call := BackupCall(client, request, wrapped, looper);
  }
}
