/**
 * The capability cascade of the main activity: requestPermissions, which
 * queries the platform and launches at most one request per call, and the
 * three result callbacks, which decide whether to call it again.
 */
module Permissions {
  import opened Wrappers

  /** The Android permissions the activity checks and requests. */
  datatype Permission =
    | BluetoothAdmin
    | BluetoothAdvertise
    | BluetoothScan
    | BluetoothConnect
    | AccessCoarseLocation
    | AccessFineLocation

  /** Build.VERSION_CODES.S (API 31), the first version with the runtime radio permissions. */
  const VERSION_CODE_S: int := 31
  /** PackageManager.PERMISSION_GRANTED. */
  const PERMISSION_GRANTED: int := 0
  /** Activity.RESULT_OK and Activity.RESULT_CANCELED. */
  const RESULT_OK: int := -1
  const RESULT_CANCELED: int := 0

  /** What requestPermissions reads from the platform: the SDK level, the granted permissions, the adapter state. */
  datatype Probe = Probe(sdkInt: int, granted: set<Permission>, adapterOn: bool)

  /** The one thing a requestPermissions call may launch. */
  datatype Request =
    | LaunchPermissions(batch: seq<Permission>)  // through the multiple-permissions launcher
    | LaunchEnableAdapter                         // the ACTION_REQUEST_ENABLE intent

  /**
   * requestPermissions: the radio permissions of this SDK level first, then the
   * adapter, then coarse and fine location; the first check that fails
   * launches its request and returns. A launched batch is never empty, asks
   * only for permissions required on this SDK level, and the request always
   * covers some capability that is actually missing.
   */
  function NextRequest(p: Probe): (r: Option<Request>)
    ensures r.Some? && r.value.LaunchPermissions? ==>
              |r.value.batch| > 0 && forall q | q in r.value.batch :: Permit(q) in Required(p.sdkInt)
    ensures r.Some? ==> exists c :: c in Covers(r.value) && c in Missing(p)
  {
    if p.sdkInt < VERSION_CODE_S && BluetoothAdmin !in p.granted then
      assert Permit(BluetoothAdmin) in Missing(p);
      Some(LaunchPermissions([BluetoothAdmin]))
    else if p.sdkInt >= VERSION_CODE_S &&
            (BluetoothAdvertise !in p.granted || BluetoothConnect !in p.granted || BluetoothScan !in p.granted) then
      assert Permit(BluetoothAdvertise) in Missing(p) || Permit(BluetoothConnect) in Missing(p)
             || Permit(BluetoothScan) in Missing(p);
      Some(LaunchPermissions([BluetoothAdvertise, BluetoothScan, BluetoothConnect]))
    else if !p.adapterOn then
      assert AdapterEnabled in Missing(p);
      Some(LaunchEnableAdapter)
    else if AccessCoarseLocation !in p.granted || AccessFineLocation !in p.granted then
      assert Permit(AccessCoarseLocation) in Missing(p) || Permit(AccessFineLocation) in Missing(p);
      Some(LaunchPermissions([AccessCoarseLocation, AccessFineLocation]))
    else
      None
  }

  // ---------------------------------------------------------------------------
  // An independent description of what the activity needs, in the terms of
  // capabilities, stages and their priority.

  /** A precondition for networking: a permission, or the adapter being on. */
  datatype Capability = Permit(permission: Permission) | AdapterEnabled

  /** The three stages of the cascade. */
  datatype Stage = RadioStage | AdapterStage | LocationStage

  /** The stage's position in the cascade: radio permissions, then adapter, then location. */
  function Rank(stage: Stage): nat
  {
    match stage
    case RadioStage => 0
    case AdapterStage => 1
    case LocationStage => 2
  }

  function StageOf(c: Capability): Stage
  {
    match c
    case AdapterEnabled => AdapterStage
    case Permit(q) =>
      if q == AccessCoarseLocation || q == AccessFineLocation then LocationStage else RadioStage
  }

  /** The capabilities required on an SDK level: the legacy admin permission below S, the three radio permissions from S on. */
  function Required(sdkInt: int): set<Capability>
  {
    (if sdkInt < VERSION_CODE_S then {Permit(BluetoothAdmin)}
     else {Permit(BluetoothAdvertise), Permit(BluetoothScan), Permit(BluetoothConnect)})
    + {AdapterEnabled, Permit(AccessCoarseLocation), Permit(AccessFineLocation)}
  }

  predicate Holds(p: Probe, c: Capability)
  {
    match c
    case Permit(q) => q in p.granted
    case AdapterEnabled => p.adapterOn
  }

  /** The required capabilities the platform state does not provide. */
  function Missing(p: Probe): set<Capability>
  {
    set c | c in Required(p.sdkInt) && !Holds(p, c)
  }

  /** The capabilities a request asks for. */
  function Covers(r: Request): set<Capability>
  {
    match r
    case LaunchEnableAdapter => {AdapterEnabled}
    case LaunchPermissions(batch) => set q | q in batch :: Permit(q)
  }

  function RequestStage(r: Request): Stage
  {
    match r
    case LaunchEnableAdapter => AdapterStage
    case LaunchPermissions(batch) => if AccessCoarseLocation in batch then LocationStage else RadioStage
  }

  /** The platform state once a request has been granted in full. */
  function Grant(p: Probe, r: Request): Probe
  {
    match r
    case LaunchEnableAdapter => p.(adapterOn := true)
    case LaunchPermissions(batch) => p.(granted := p.granted + set q | q in batch)
  }

  /**
   * requestPermissions launches nothing exactly when nothing is missing;
   * otherwise it launches the request of the earliest stage that has a missing
   * capability, and that request asks for the WHOLE stage as one batch (all
   * three radio permissions even if only one is missing).
   */
  lemma NextRequestIsEarliestMissingStage(p: Probe)
    ensures NextRequest(p).None? <==> Missing(p) == {}
    ensures NextRequest(p).Some? ==>
              var r := NextRequest(p).value;
              && (exists c :: c in Missing(p) && StageOf(c) == RequestStage(r))
              && (forall c :: c in Missing(p) ==> Rank(RequestStage(r)) <= Rank(StageOf(c)))
              && Covers(r) == (set c | c in Required(p.sdkInt) && StageOf(c) == RequestStage(r))
  {
    var radio := if p.sdkInt < VERSION_CODE_S then [BluetoothAdmin]
                 else [BluetoothAdvertise, BluetoothScan, BluetoothConnect];
    var location := [AccessCoarseLocation, AccessFineLocation];
    match NextRequest(p)
    case None =>
      assert forall c :: c in Required(p.sdkInt) ==> Holds(p, c);
    case Some(r) =>
      if r == LaunchEnableAdapter {
        assert AdapterEnabled in Missing(p);
      } else if r == LaunchPermissions(location) {
        assert Permit(AccessCoarseLocation) in Missing(p) || Permit(AccessFineLocation) in Missing(p);
      } else {
        assert r == LaunchPermissions(radio);
        if p.sdkInt < VERSION_CODE_S {
          assert Permit(BluetoothAdmin) in Missing(p);
        } else if BluetoothAdvertise !in p.granted {
          assert Permit(BluetoothAdvertise) in Missing(p);
        } else if BluetoothConnect !in p.granted {
          assert Permit(BluetoothConnect) in Missing(p);
        } else {
          assert Permit(BluetoothScan) in Missing(p);
        }
      }
  }

  /**
   * The radio step depends on the SDK level: below S only BLUETOOTH_ADMIN is
   * checked (the three runtime radio permissions make no difference) and it is
   * requested alone; from S on BLUETOOTH_ADMIN makes no difference and a gap in
   * ADVERTISE/CONNECT/SCAN requests all three.
   */
  lemma RadioCheckDependsOnSdk(p: Probe)
    ensures p.sdkInt < VERSION_CODE_S ==>
              NextRequest(p) == NextRequest(p.(granted := p.granted - {BluetoothAdvertise, BluetoothScan, BluetoothConnect}))
    ensures p.sdkInt < VERSION_CODE_S && BluetoothAdmin !in p.granted ==>
              NextRequest(p) == Some(LaunchPermissions([BluetoothAdmin]))
    ensures p.sdkInt >= VERSION_CODE_S ==>
              NextRequest(p) == NextRequest(p.(granted := p.granted - {BluetoothAdmin}))
    ensures p.sdkInt >= VERSION_CODE_S && !({BluetoothAdvertise, BluetoothConnect, BluetoothScan} <= p.granted) ==>
              NextRequest(p) == Some(LaunchPermissions([BluetoothAdvertise, BluetoothScan, BluetoothConnect]))
  {
  }

  /**
   * The later steps are gated by the earlier ones: the adapter intent is
   * launched exactly when no radio capability is missing and the adapter is
   * off; the location batch exactly when, in addition, the adapter is on and
   * coarse or fine location is missing.
   */
  lemma LaterStepsAreGated(p: Probe)
    ensures NextRequest(p) == Some(LaunchEnableAdapter) <==>
              (forall c | c in Missing(p) :: StageOf(c) != RadioStage) && !p.adapterOn
    ensures NextRequest(p) == Some(LaunchPermissions([AccessCoarseLocation, AccessFineLocation])) <==>
              && (forall c | c in Missing(p) :: StageOf(c) != RadioStage) && p.adapterOn
              && (AccessCoarseLocation !in p.granted || AccessFineLocation !in p.granted)
  {
    if p.sdkInt < VERSION_CODE_S && BluetoothAdmin !in p.granted {
      assert Permit(BluetoothAdmin) in Missing(p);
    } else if p.sdkInt >= VERSION_CODE_S && BluetoothAdvertise !in p.granted {
      assert Permit(BluetoothAdvertise) in Missing(p);
    } else if p.sdkInt >= VERSION_CODE_S && BluetoothConnect !in p.granted {
      assert Permit(BluetoothConnect) in Missing(p);
    } else if p.sdkInt >= VERSION_CODE_S && BluetoothScan !in p.granted {
      assert Permit(BluetoothScan) in Missing(p);
    }
  }

  /**
   * Granting what was launched moves the cascade on: the next call launches a
   * request of a strictly later stage, or nothing.
   */
  lemma GrantMovesCascadeOn(p: Probe)
    requires NextRequest(p).Some?
    ensures var next := NextRequest(Grant(p, NextRequest(p).value));
            next.None? || Rank(RequestStage(next.value)) > Rank(RequestStage(NextRequest(p).value))
  {
  }

  // ---------------------------------------------------------------------------
  // The result callbacks.

  /**
   * onRequestPermissionsResult: re-prompt when the result belongs to the
   * coarse-location request code and it is empty or its first entry is not
   * PERMISSION_GRANTED.
   */
  predicate CoarseLocationReprompts(requestCode: int, coarseLocationCode: int, grantResults: seq<int>)
    ensures CoarseLocationReprompts(requestCode, coarseLocationCode, grantResults) ==> requestCode == coarseLocationCode
    ensures |grantResults| > 0 && grantResults[0] == PERMISSION_GRANTED ==>
              !CoarseLocationReprompts(requestCode, coarseLocationCode, grantResults)
  {
    requestCode == coarseLocationCode && (|grantResults| == 0 || grantResults[0] != PERMISSION_GRANTED)
  }

  /**
   * Only the first grant result matters: once there is one, further entries
   * change nothing, and a result for another request code never re-prompts.
   */
  lemma CoarseLocationReadsFirstResultOnly(requestCode: int, coarseLocationCode: int, first: int, rest: seq<int>)
    ensures CoarseLocationReprompts(requestCode, coarseLocationCode, [first] + rest)
            <==> requestCode == coarseLocationCode && first != PERMISSION_GRANTED
    ensures requestCode != coarseLocationCode ==> !CoarseLocationReprompts(requestCode, coarseLocationCode, [first] + rest)
    ensures CoarseLocationReprompts(coarseLocationCode, coarseLocationCode, [])
  {
  }

  /** The adapter-enable result: re-prompt unless the user turned the adapter on (RESULT_OK). */
  predicate AdapterReprompts(resultCode: int)
    ensures resultCode == RESULT_OK ==> !AdapterReprompts(resultCode)
    ensures resultCode == RESULT_CANCELED ==> AdapterReprompts(resultCode)
  {
    resultCode != RESULT_OK
  }

  /**
   * The multiple-permissions result: re-prompt when some entry other than
   * BLUETOOTH_ADMIN is denied AND the map holds BLUETOOTH_ADMIN mapped to
   * false (a missing key compares unequal to false in Kotlin).
   */
  predicate MultiPermissionReprompts(results: map<Permission, bool>)
    ensures MultiPermissionReprompts(results) ==> BluetoothAdmin in results && !results[BluetoothAdmin]
    ensures MultiPermissionReprompts(results) ==> results.Keys != {BluetoothAdmin}
  {
    var others := map k | k in results && k != BluetoothAdmin :: results[k];
    !(forall k | k in others :: others[k]) && BluetoothAdmin in results && results[BluetoothAdmin] == false
  }

  /** The callback's condition in plain terms: admin denied, and some other permission denied too. */
  lemma MultiPermissionRepromptsExactly(results: map<Permission, bool>)
    ensures MultiPermissionReprompts(results) <==>
              && BluetoothAdmin in results && !results[BluetoothAdmin]
              && (exists k :: k in results && k != BluetoothAdmin && !results[k])
  {
    var others := map k | k in results && k != BluetoothAdmin :: results[k];
    if exists k :: k in results && k != BluetoothAdmin && !results[k] {
      var k :| k in results && k != BluetoothAdmin && !results[k];
      assert k in others && !others[k];
    }
  }

  /** A result without BLUETOOTH_ADMIN, or holding nothing else, never re-prompts. */
  lemma AdminAloneOrAbsentNeverReprompts(results: map<Permission, bool>)
    requires BluetoothAdmin !in results || results.Keys == {BluetoothAdmin}
    ensures !MultiPermissionReprompts(results)
  {
    MultiPermissionRepromptsExactly(results);
  }

  /**
   * No batch that requestPermissions launches can make the multiple-permissions
   * callback re-prompt: the admin batch holds only BLUETOOTH_ADMIN, and the
   * other two batches do not hold it at all.
   */
  lemma LaunchedBatchesNeverReprompt(p: Probe, results: map<Permission, bool>)
    requires NextRequest(p).Some? && NextRequest(p).value.LaunchPermissions?
    requires forall k :: k in results ==> k in NextRequest(p).value.batch
    ensures !MultiPermissionReprompts(results)
  {
    if BluetoothAdmin in results {
      assert results.Keys == {BluetoothAdmin};
    }
    AdminAloneOrAbsentNeverReprompts(results);
  }
}
