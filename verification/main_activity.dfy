/**
 * The main activity as an object whose callbacks update its fields in place.
 * Each method performs one step of module Bootstrap: its postcondition ties
 * the new state to the step function applied to the old state, so the
 * lemmas about the steps hold of the object.
 */
module Activity {
  import opened SettingsStore
  import opened Permissions
  import opened Bootstrap

  class MainActivity {
    /** The value of RequestCode.ACCESS_COARSE_LOCATION. */
    const coarseLocationCode: int
    var userId: string
    var isServiceBound: bool
    /** bleService != null */
    var serviceAttached: bool
    /** bleBinder != null */
    var binderAttached: bool
    /** The "USER_SETTINGS" shared preferences. */
    var settings: Settings
    /** The platform effects issued so far. */
    var log: seq<Effect>

    function Snapshot(): Session
      reads this
    {
      Session(coarseLocationCode, userId, isServiceBound, serviceAttached, binderAttached, settings, log)
    }

    constructor (stored: Settings, coarseLocationCode: int)
      ensures Snapshot() == Initial(stored, coarseLocationCode)
    {
      this.coarseLocationCode := coarseLocationCode;
      userId := "";
      isServiceBound := false;
      serviceAttached := false;
      binderAttached := false;
      settings := stored;
      log := [];
    }

    /** onCreate: the identity is created when none is stored, reused otherwise; then the service is bound. */
    method OnCreate(freshId: string)
      modifies this
      ensures Snapshot() == CreateStep(old(Snapshot()), freshId)
      ensures old(GetString(settings, USER_ID)).Some? ==> userId == old(GetString(settings, USER_ID)).value
      ensures old(GetString(settings, USER_ID)).None? ==> userId == freshId
      ensures isServiceBound
    {
      var stored := GetString(settings, USER_ID);
      if stored.None? {
        userId := freshId;
        settings := settings[USER_ID := Text(userId)];
      } else {
        userId := stored.value;
      }
      BindService();
    }

    /** onDestroy. */
    method OnDestroy()
      modifies this
      ensures Snapshot() == UnbindStep(old(Snapshot()))
    {
      UnbindService();
    }

    method BindService()
      modifies this
      ensures Snapshot() == BindStep(old(Snapshot()))
      ensures isServiceBound
    {
      log := log + [PlatformBind(userId)];
      isServiceBound := true;
    }

    method UnbindService()
      modifies this
      ensures Snapshot() == UnbindStep(old(Snapshot()))
      ensures !isServiceBound
    {
      if isServiceBound {
        log := log + [PlatformUnbind];
      }
      isServiceBound := false;
    }

    /** requestPermissions, with the platform state it queries passed in. */
    method RequestPermissions(probe: Probe)
      modifies this
      ensures Snapshot() == RequestStep(old(Snapshot()), probe)
      ensures |log| <= old(|log|) + 1
    {
      match NextRequest(probe)
      case None =>
      case Some(LaunchPermissions(batch)) => log := log + [Launch(batch)];
      case Some(LaunchEnableAdapter) => log := log + [EnableAdapter];
    }

    /** onServiceConnected; returns the first-launch flag the App is shown with. */
    method OnServiceConnected(probe: Probe) returns (isFirstTime: bool)
      modifies this
      ensures Snapshot() == ConnectedStep(old(Snapshot()), probe)
      ensures isFirstTime == FirstTime(old(settings))
    {
      serviceAttached := true;
      binderAttached := true;
      RequestPermissions(probe);
      isFirstTime := FirstTime(settings);
      log := log + [ShowApp(isFirstTime)];
    }

    method OnServiceDisconnected()
      modifies this
      ensures Snapshot() == DisconnectedStep(old(Snapshot()))
    {
      serviceAttached := false;
    }

    method OnRequestPermissionsResult(requestCode: int, grantResults: seq<int>, probe: Probe)
      modifies this
      ensures Snapshot() == PermissionsResultStep(old(Snapshot()), requestCode, grantResults, probe)
    {
      if requestCode == coarseLocationCode {
        if |grantResults| == 0 || grantResults[0] != PERMISSION_GRANTED {
          RequestPermissions(probe);
        }
      }
    }

    method OnEnableAdapterResult(resultCode: int, probe: Probe)
      modifies this
      ensures Snapshot() == AdapterResultStep(old(Snapshot()), resultCode, probe)
    {
      if resultCode != RESULT_OK {
        RequestPermissions(probe);
      }
    }

    method OnMultiplePermissionsResult(results: map<Permission, bool>, probe: Probe)
      modifies this
      ensures Snapshot() == MultiplePermissionsResultStep(old(Snapshot()), results, probe)
    {
      if MultiPermissionReprompts(results) {
        RequestPermissions(probe);
      }
    }

    /** The confirm button of the password dialog. */
    method OnConfirmPassword(password: string)
      modifies this
      ensures Snapshot() == ConfirmStep(old(Snapshot()), password)
    {
      if |password| > 0 && binderAttached {
        log := log + [OpenDatabase(password)];
      }
    }

    /** The ready effect of the main-UI branch; started is the binder's isBleStarted value. */
    method OnMainUiEntered(started: bool)
      modifies this
      ensures Snapshot() == ReadyStep(old(Snapshot()), started)
      ensures !FirstTime(settings)
    {
      if FirstTime(settings) {
        settings := settings[FIRST_TIME := Flag(false)];
      }
      if !started && binderAttached {
        log := log + [Start(userId)];
      }
    }

    method StartBle()
      modifies this
      ensures Snapshot() == StartBleStep(old(Snapshot()))
    {
      if serviceAttached {
        log := log + [Start(userId)];
      }
    }

    method StopBle()
      modifies this
      ensures Snapshot() == StopBleStep(old(Snapshot()))
    {
      if serviceAttached {
        log := log + [Stop];
      }
    }

    /** The start/stop button of the main UI. */
    method OnStartStopClicked(started: bool)
      modifies this
      ensures Snapshot() == StartStopStep(old(Snapshot()), started)
    {
      if started {
        StopBle();
      } else {
        StartBle();
      }
    }
  }
}
