/**
 * The main activity's session as a value: its fields, the durable settings
 * and the log of platform effects it has issued, with one step function per
 * callback the platform delivers. The class in module Activity performs these
 * steps in place; the lemmas here state what every sequence of callbacks
 * preserves.
 */
module Bootstrap {
  import opened Wrappers
  import opened SettingsStore
  import opened Permissions
  import opened Screens

  /** A platform effect issued by the activity, recorded in issue order. */
  datatype Effect =
    | Launch(batch: seq<Permission>)    // the multiple-permissions dialog
    | EnableAdapter                     // the ACTION_REQUEST_ENABLE intent
    | PlatformBind(boundUserId: string) // Context.bindService, with the "user_id" extra
    | PlatformUnbind                    // Context.unbindService
    | ShowApp(firstTime: bool)          // setContent { App(firstTime) }
    | OpenDatabase(password: string)    // openDatabase on the service binder
    | Start(startUserId: string)        // start(userId) on the service or its binder
    | Stop                              // stop() on the service

  /**
   * The activity's state: its fields (bleService and bleBinder reduced to
   * whether they are set), the shared preferences and the effect log.
   * coarseLocationCode is the value of RequestCode.ACCESS_COARSE_LOCATION.
   */
  datatype Session = Session(
    coarseLocationCode: int,
    userId: string,
    isServiceBound: bool,
    serviceAttached: bool,
    binderAttached: bool,
    settings: Settings,
    log: seq<Effect>)

  /** A newly constructed activity: empty user id, nothing bound or attached, nothing issued. */
  function Initial(settings: Settings, coarseLocationCode: int): Session
  {
    Session(coarseLocationCode, "", false, false, false, settings, [])
  }

  function Append(s: Session, effects: seq<Effect>): Session
  {
    s.(log := s.log + effects)
  }

  // ---------------------------------------------------------------------------
  // Counting platform binds and unbinds.

  function Binds(log: seq<Effect>): nat
  {
    if log == [] then 0 else Binds(log[..|log| - 1]) + (if log[|log| - 1].PlatformBind? then 1 else 0)
  }

  function Unbinds(log: seq<Effect>): nat
  {
    if log == [] then 0 else Unbinds(log[..|log| - 1]) + (if log[|log| - 1].PlatformUnbind? then 1 else 0)
  }

  lemma {:induction false} CountsAppend(a: seq<Effect>, b: seq<Effect>)
    ensures Binds(a + b) == Binds(a) + Binds(b)
    ensures Unbinds(a + b) == Unbinds(a) + Unbinds(b)
    decreases |b|
  {
    if b == [] {
      assert a + b == a;
    } else {
      var b' := b[..|b| - 1];
      assert (a + b)[..|a + b| - 1] == a + b';
      CountsAppend(a, b');
    }
  }

  /** Appending effects that are neither binds nor unbinds leaves both counts as they were. */
  lemma CountsAppendOther(a: seq<Effect>, b: seq<Effect>)
    requires |b| <= 2
    requires forall e | e in b :: !e.PlatformBind? && !e.PlatformUnbind?
    ensures Binds(a + b) == Binds(a) && Unbinds(a + b) == Unbinds(a)
  {
    CountsAppend(a, b);
    if |b| == 2 {
      assert b[0] in b && b[1] in b;
      assert b[..1][..0] == [];
      assert Binds(b[..1]) == 0 && Unbinds(b[..1]) == 0;
      assert Binds(b) == 0 && Unbinds(b) == 0;
    } else if |b| == 1 {
      assert b[0] in b;
      assert b[..0] == [];
    }
  }

  // ---------------------------------------------------------------------------
  // One step per callback.

  /** The effect a requestPermissions call issues: the launched batch or the adapter prompt, and none exactly when nothing is launched. */
  function RequestEffects(r: Option<Request>): (effects: seq<Effect>)
    ensures |effects| <= 1
    ensures effects == [] <==> r.None?
    ensures r.Some? && r.value.LaunchPermissions? ==> effects == [Launch(r.value.batch)]
    ensures r == Some(LaunchEnableAdapter) ==> effects == [EnableAdapter]
    ensures Binds(effects) == 0 && Unbinds(effects) == 0
  {
    match r
    case None => []
    case Some(LaunchPermissions(batch)) => [Launch(batch)]
    case Some(LaunchEnableAdapter) => [EnableAdapter]
  }

  /** requestPermissions: issues the request NextRequest picks, and changes nothing else. */
  function RequestStep(s: Session, p: Probe): (t: Session)
    ensures t == Append(s, RequestEffects(NextRequest(p)))
    ensures |t.log| <= |s.log| + 1
    ensures NextRequest(p).None? ==> t == s
  {
    Append(s, RequestEffects(NextRequest(p)))
  }

  /** bindService: always binds (no check of isServiceBound) and marks the service bound. */
  function BindStep(s: Session): (t: Session)
    ensures t.isServiceBound
    ensures Binds(t.log) == Binds(s.log) + 1 && Unbinds(t.log) == Unbinds(s.log)
    ensures t.log == s.log + [PlatformBind(s.userId)]
    ensures t.(isServiceBound := s.isServiceBound, log := s.log) == s
  {
    CountsAppend(s.log, [PlatformBind(s.userId)]);
    s.(isServiceBound := true, log := s.log + [PlatformBind(s.userId)])
  }

  /** unbindService: unbinds on the platform only when bound, and always leaves the service unbound. */
  function UnbindStep(s: Session): (t: Session)
    ensures !t.isServiceBound
    ensures Unbinds(t.log) == Unbinds(s.log) + (if s.isServiceBound then 1 else 0)
    ensures Binds(t.log) == Binds(s.log)
    ensures t.log == s.log + (if s.isServiceBound then [PlatformUnbind] else [])
    ensures t.(isServiceBound := s.isServiceBound, log := s.log) == s
  {
    var effects := if s.isServiceBound then [PlatformUnbind] else [];
    CountsAppend(s.log, effects);
    s.(isServiceBound := false, log := s.log + effects)
  }

  /** onCreate: settle the identity (create it once, else reuse the stored one), then bind the service with it. */
  function CreateStep(s: Session, freshId: string): (t: Session)
    ensures GetString(s.settings, USER_ID).None? ==> t.userId == freshId
    ensures GetString(s.settings, USER_ID).Some? ==>
              t.userId == GetString(s.settings, USER_ID).value && t.settings == s.settings
    ensures GetString(t.settings, USER_ID) == Some(t.userId)
    ensures t.settings == ResolveIdentity(s.settings, freshId).settings
    ensures t.isServiceBound && t.log == s.log + [PlatformBind(t.userId)]
    ensures t.(userId := s.userId, settings := s.settings, isServiceBound := s.isServiceBound, log := s.log) == s
  {
    var identity := ResolveIdentity(s.settings, freshId);
    BindStep(s.(userId := identity.userId, settings := identity.settings))
  }

  /**
   * onServiceConnected: attach the service and its binder, run
   * requestPermissions, then show the App with the stored first-launch flag.
   */
  function ConnectedStep(s: Session, p: Probe): (t: Session)
    ensures t.serviceAttached && t.binderAttached
    ensures t.log == s.log + RequestEffects(NextRequest(p)) + [ShowApp(FirstTime(s.settings))]
    ensures t.(serviceAttached := s.serviceAttached, binderAttached := s.binderAttached, log := s.log) == s
  {
    var attached := s.(serviceAttached := true, binderAttached := true);
    Append(RequestStep(attached, p), [ShowApp(FirstTime(s.settings))])
  }

  /** onServiceDisconnected: clears bleService but leaves bleBinder as it was. */
  function DisconnectedStep(s: Session): (t: Session)
    ensures !t.serviceAttached && t.binderAttached == s.binderAttached
    ensures t.(serviceAttached := s.serviceAttached) == s
  {
    s.(serviceAttached := false)
  }

  /** onRequestPermissionsResult: re-runs requestPermissions exactly when the coarse-location grant failed. */
  function PermissionsResultStep(s: Session, requestCode: int, grantResults: seq<int>, p: Probe): (t: Session)
    ensures t.log == s.log + (if CoarseLocationReprompts(requestCode, s.coarseLocationCode, grantResults)
                              then RequestEffects(NextRequest(p)) else [])
    ensures t.(log := s.log) == s
  {
    if CoarseLocationReprompts(requestCode, s.coarseLocationCode, grantResults) then RequestStep(s, p) else s
  }

  /** The adapter-enable result: re-runs requestPermissions exactly when the result code is not RESULT_OK. */
  function AdapterResultStep(s: Session, resultCode: int, p: Probe): (t: Session)
    ensures t.log == s.log + (if resultCode != RESULT_OK then RequestEffects(NextRequest(p)) else [])
    ensures t.(log := s.log) == s
  {
    if AdapterReprompts(resultCode) then RequestStep(s, p) else s
  }

  /** The multiple-permissions result: re-runs requestPermissions exactly when MultiPermissionReprompts holds. */
  function MultiplePermissionsResultStep(s: Session, results: map<Permission, bool>, p: Probe): (t: Session)
    ensures t.log == s.log + (if MultiPermissionReprompts(results) then RequestEffects(NextRequest(p)) else [])
    ensures MultiPermissionReprompts(results) ==> t == RequestStep(s, p)
    ensures !MultiPermissionReprompts(results) ==> t == s
  {
    if MultiPermissionReprompts(results) then RequestStep(s, p) else s
  }

  /** The confirm button of the password dialog: openDatabase through the binder, only for a non-empty password. */
  function ConfirmStep(s: Session, password: string): (t: Session)
    ensures t.log == s.log + (if s.binderAttached && |password| > 0 then [OpenDatabase(password)] else [])
    ensures t.(log := s.log) == s
  {
    match SubmitPassword(password)
    case Some(pw) => if s.binderAttached then Append(s, [OpenDatabase(pw)]) else s
    case None => s
  }

  /**
   * The ready effect on entering the main UI: clear the first-launch flag and,
   * when the service is not started, start it through the binder.
   */
  function ReadyStep(s: Session, started: bool): (t: Session)
    ensures !FirstTime(t.settings)
    ensures t.settings == MarkLaunched(s.settings)
    ensures t.log == s.log + (if !started && s.binderAttached then [Start(s.userId)] else [])
    ensures t.(settings := s.settings, log := s.log) == s
  {
    var marked := s.(settings := MarkLaunched(s.settings));
    if !started && s.binderAttached then Append(marked, [Start(s.userId)]) else marked
  }

  /** A composition of the App: only the main-UI branch runs the ready effect. */
  function ScreenStep(s: Session, isOpen: bool, isOpening: bool, started: bool): (t: Session)
    ensures SelectScreen(isOpen, isOpening) == MainUi ==> t == ReadyStep(s, started)
    ensures SelectScreen(isOpen, isOpening) != MainUi ==> t == s
  {
    if SelectScreen(isOpen, isOpening) == MainUi then ReadyStep(s, started) else s
  }

  /** startBle and stopBle go through bleService, and do nothing while it is cleared. */
  function StartBleStep(s: Session): (t: Session)
    ensures t.log == s.log + (if s.serviceAttached then [Start(s.userId)] else [])
    ensures t.(log := s.log) == s
  {
    if s.serviceAttached then Append(s, [Start(s.userId)]) else s
  }

  function StopBleStep(s: Session): (t: Session)
    ensures t.log == s.log + (if s.serviceAttached then [Stop] else [])
    ensures t.(log := s.log) == s
  {
    if s.serviceAttached then Append(s, [Stop]) else s
  }

  /** The start/stop button: stopBle when started, startBle otherwise. */
  function StartStopStep(s: Session, started: bool): (t: Session)
    ensures t.log == s.log + (if !s.serviceAttached then [] else if started then [Stop] else [Start(s.userId)])
    ensures t.(log := s.log) == s
  {
    match StartStopCommand(started)
    case StopService => StopBleStep(s)
    case StartService => StartBleStep(s)
  }

  // ---------------------------------------------------------------------------
  // Sequences of callbacks.

  /** A callback the platform delivers to the activity, with the platform state it observes. */
  datatype Callback =
    | Create(freshId: string)
    | ServiceConnected(probe: Probe)
    | ServiceDisconnected
    | PermissionsResult(requestCode: int, grantResults: seq<int>, probe: Probe)
    | AdapterResult(resultCode: int, probe: Probe)
    | MultiplePermissionsResult(results: map<Permission, bool>, probe: Probe)
    | ConfirmClicked(password: string)
    | ScreenEntered(isOpen: bool, isOpening: bool, started: bool)
    | StartStopClicked(started: bool)
    | Destroy

  function Apply(s: Session, c: Callback): (t: Session)
    ensures t.coarseLocationCode == s.coarseLocationCode
    ensures s.log <= t.log
  {
    match c
    case Create(freshId) => CreateStep(s, freshId)
    case ServiceConnected(probe) => ConnectedStep(s, probe)
    case ServiceDisconnected => DisconnectedStep(s)
    case PermissionsResult(requestCode, grantResults, probe) => PermissionsResultStep(s, requestCode, grantResults, probe)
    case AdapterResult(resultCode, probe) => AdapterResultStep(s, resultCode, probe)
    case MultiplePermissionsResult(results, probe) => MultiplePermissionsResultStep(s, results, probe)
    case ConfirmClicked(password) => ConfirmStep(s, password)
    case ScreenEntered(isOpen, isOpening, started) => ScreenStep(s, isOpen, isOpening, started)
    case StartStopClicked(started) => StartStopStep(s, started)
    case Destroy => UnbindStep(s)
  }

  function Run(s: Session, callbacks: seq<Callback>): Session
    decreases |callbacks|
  {
    if callbacks == [] then s else Run(Apply(s, callbacks[0]), callbacks[1..])
  }

  // ---------------------------------------------------------------------------
  // What every callback preserves.

  /** Platform unbinds never outnumber binds; while bound, there is one bind not yet undone. */
  predicate Balanced(s: Session)
  {
    Unbinds(s.log) + (if s.isServiceBound then 1 else 0) <= Binds(s.log)
  }

  /** The activity's user id is the one stored under "USER_ID". */
  predicate IdentityAdopted(s: Session)
  {
    GetString(s.settings, USER_ID) == Some(s.userId)
  }

  /** Every bind and every start in the log carries the given identity. */
  predicate UsesIdentity(log: seq<Effect>, id: string)
  {
    forall e | e in log :: (e.PlatformBind? ==> e.boundUserId == id) && (e.Start? ==> e.startUserId == id)
  }

  /** No openDatabase in the log was given an empty password. */
  predicate OpensNonEmpty(log: seq<Effect>)
  {
    forall e | e in log && e.OpenDatabase? :: |e.password| > 0
  }

  lemma UsesIdentityAppend(a: seq<Effect>, b: seq<Effect>, id: string)
    requires UsesIdentity(a, id) && UsesIdentity(b, id)
    ensures UsesIdentity(a + b, id)
  {
    forall e | e in a + b
      ensures (e.PlatformBind? ==> e.boundUserId == id) && (e.Start? ==> e.startUserId == id)
    {
      assert e in a || e in b;
    }
  }

  lemma OpensNonEmptyAppend(a: seq<Effect>, b: seq<Effect>)
    requires OpensNonEmpty(a) && OpensNonEmpty(b)
    ensures OpensNonEmpty(a + b)
  {
    forall e | e in a + b && e.OpenDatabase?
      ensures |e.password| > 0
    {
      assert e in a || e in b;
    }
  }

  /** The effects one callback appends to the log. */
  lemma ApplyAppends(s: Session, c: Callback) returns (added: seq<Effect>)
    ensures Apply(s, c).log == s.log + added
    ensures c.Create? ==> added == [PlatformBind(Apply(s, c).userId)]
    ensures c.Destroy? ==> added == (if s.isServiceBound then [PlatformUnbind] else [])
    ensures !c.Create? && !c.Destroy? ==> |added| <= 2
    ensures !c.Create? && !c.Destroy? ==>
              forall e | e in added :: !e.PlatformBind? && !e.PlatformUnbind? && (e.Start? ==> e.startUserId == s.userId)
    ensures forall e | e in added && e.OpenDatabase? :: |e.password| > 0
  {
    match c
    case Create(freshId) => added := [PlatformBind(Apply(s, c).userId)];
    case ServiceConnected(probe) => added := RequestEffects(NextRequest(probe)) + [ShowApp(FirstTime(s.settings))];
    case ServiceDisconnected => added := [];
    case PermissionsResult(requestCode, grantResults, probe) =>
      added := if CoarseLocationReprompts(requestCode, s.coarseLocationCode, grantResults)
               then RequestEffects(NextRequest(probe)) else [];
    case AdapterResult(resultCode, probe) =>
      added := if resultCode != RESULT_OK then RequestEffects(NextRequest(probe)) else [];
    case MultiplePermissionsResult(results, probe) =>
      added := if MultiPermissionReprompts(results) then RequestEffects(NextRequest(probe)) else [];
    case ConfirmClicked(password) =>
      added := if s.binderAttached && |password| > 0 then [OpenDatabase(password)] else [];
    case ScreenEntered(isOpen, isOpening, started) =>
      added := if SelectScreen(isOpen, isOpening) == MainUi && !started && s.binderAttached then [Start(s.userId)] else [];
    case StartStopClicked(started) =>
      added := if !s.serviceAttached then [] else if started then [Stop] else [Start(s.userId)];
    case Destroy => added := if s.isServiceBound then [PlatformUnbind] else [];
  }

  /** Only onCreate and onDestroy touch isServiceBound. */
  lemma ApplyKeepsBoundFlag(s: Session, c: Callback)
    requires !c.Create? && !c.Destroy?
    ensures Apply(s, c).isServiceBound == s.isServiceBound
  {
  }

  /** One callback keeps the bind/unbind balance. */
  lemma ApplyKeepsBalance(s: Session, c: Callback)
    requires Balanced(s)
    ensures Balanced(Apply(s, c))
  {
    var added := ApplyAppends(s, c);
    if c.Create? || c.Destroy? {
      CountsAppend(s.log, added);
    } else {
      CountsAppendOther(s.log, added);
      ApplyKeepsBoundFlag(s, c);
    }
  }

  /** One callback keeps a cleared first-launch flag cleared and an adopted identity unchanged. */
  lemma ApplyKeepsSettingsFacts(s: Session, c: Callback)
    ensures !FirstTime(s.settings) ==> !FirstTime(Apply(s, c).settings)
    ensures IdentityAdopted(s) ==> IdentityAdopted(Apply(s, c)) && Apply(s, c).userId == s.userId
  {
    match c
    case ScreenEntered(isOpen, isOpening, started) =>
      if SelectScreen(isOpen, isOpening) == MainUi {
        var t := ReadyStep(s, started);
        assert GetString(t.settings, USER_ID) == GetString(s.settings, USER_ID);
      }
    case _ =>
  }

  /** One callback adds only effects that carry the adopted identity and only non-empty passwords. */
  lemma ApplyKeepsEffectFacts(s: Session, c: Callback)
    requires IdentityAdopted(s)
    ensures UsesIdentity(s.log, s.userId) ==> UsesIdentity(Apply(s, c).log, s.userId)
    ensures OpensNonEmpty(s.log) ==> OpensNonEmpty(Apply(s, c).log)
  {
    var added := ApplyAppends(s, c);
    ApplyKeepsSettingsFacts(s, c);
    assert UsesIdentity(added, s.userId);
    if UsesIdentity(s.log, s.userId) {
      UsesIdentityAppend(s.log, added, s.userId);
    }
    if OpensNonEmpty(s.log) {
      OpensNonEmptyAppend(s.log, added);
    }
  }

  /** Across any sequence of callbacks, platform unbinds never outnumber binds. */
  lemma {:induction false} RunKeepsBalance(s: Session, callbacks: seq<Callback>)
    requires Balanced(s)
    ensures Balanced(Run(s, callbacks))
    ensures Unbinds(Run(s, callbacks).log) <= Binds(Run(s, callbacks).log)
    decreases |callbacks|
  {
    if callbacks != [] {
      ApplyKeepsBalance(s, callbacks[0]);
      RunKeepsBalance(Apply(s, callbacks[0]), callbacks[1..]);
    }
  }

  /** Once cleared, the first-launch flag stays cleared across any sequence of callbacks. */
  lemma {:induction false} RunKeepsFirstLaunchCleared(s: Session, callbacks: seq<Callback>)
    requires !FirstTime(s.settings)
    ensures !FirstTime(Run(s, callbacks).settings)
    decreases |callbacks|
  {
    if callbacks != [] {
      ApplyKeepsSettingsFacts(s, callbacks[0]);
      RunKeepsFirstLaunchCleared(Apply(s, callbacks[0]), callbacks[1..]);
    }
  }

  /**
   * Once the identity is settled and stored, no sequence of callbacks changes
   * it, and every bind, start and openDatabase issued meanwhile carries that
   * identity and a non-empty password.
   */
  lemma {:induction false} RunKeepsIdentity(s: Session, callbacks: seq<Callback>)
    requires IdentityAdopted(s)
    requires UsesIdentity(s.log, s.userId) && OpensNonEmpty(s.log)
    ensures IdentityAdopted(Run(s, callbacks)) && Run(s, callbacks).userId == s.userId
    ensures UsesIdentity(Run(s, callbacks).log, s.userId) && OpensNonEmpty(Run(s, callbacks).log)
    ensures s.log <= Run(s, callbacks).log
    decreases |callbacks|
  {
    if callbacks != [] {
      ApplyKeepsSettingsFacts(s, callbacks[0]);
      ApplyKeepsEffectFacts(s, callbacks[0]);
      RunKeepsIdentity(Apply(s, callbacks[0]), callbacks[1..]);
    }
  }

  /**
   * A launch: onCreate on a new activity, then any callbacks. Whatever follows,
   * the activity keeps the identity onCreate settled, binds and starts only
   * with it, never opens the store with an empty password, and never unbinds
   * more often than it binds.
   */
  lemma LaunchUsesOneIdentity(settings: Settings, coarseLocationCode: int, freshId: string, callbacks: seq<Callback>)
    ensures var created := CreateStep(Initial(settings, coarseLocationCode), freshId);
            var final := Run(created, callbacks);
            && final.userId == created.userId
            && GetString(final.settings, USER_ID) == Some(created.userId)
            && UsesIdentity(final.log, created.userId)
            && OpensNonEmpty(final.log)
            && Unbinds(final.log) <= Binds(final.log)
  {
    var created := CreateStep(Initial(settings, coarseLocationCode), freshId);
    assert created.log == [PlatformBind(created.userId)];
    assert Binds(created.log) == 1 && Unbinds(created.log) == 0;
    RunKeepsIdentity(created, callbacks);
    RunKeepsBalance(created, callbacks);
  }

  // ---------------------------------------------------------------------------
  // Single-step consequences the source relies on.

  /** A second unbindService in a row is a no-op: two calls unbind on the platform at most once. */
  lemma UnbindTwiceUnbindsOnce(s: Session)
    ensures UnbindStep(UnbindStep(s)) == UnbindStep(s)
    ensures Unbinds(UnbindStep(UnbindStep(s)).log) <= Unbinds(s.log) + 1
  {
  }

  /**
   * After onServiceDisconnected the start/stop button does nothing (it goes
   * through the cleared bleService), while the ready effect still starts the
   * service through the binder, which the disconnect leaves set.
   */
  lemma DisconnectSilencesButtonOnly(s: Session, started: bool)
    requires s.binderAttached
    ensures StartStopStep(DisconnectedStep(s), started) == DisconnectedStep(s)
    ensures ReadyStep(DisconnectedStep(s), false).log == s.log + [Start(s.userId)]
  {
  }

  /**
   * The two places that start the service agree while both the service and
   * its binder are set: with the service stopped, the start/stop button and
   * the ready effect issue the same start(userId); with it started, the button
   * issues stop while the ready effect issues nothing.
   */
  lemma ButtonAndReadyEffectAgreeOnStart(s: Session, started: bool)
    requires s.serviceAttached && s.binderAttached
    ensures StartStopStep(s, started).log == ReadyStep(s, started).log <==> !started
    ensures !started ==> StartStopStep(s, started).log == s.log + [Start(s.userId)]
    ensures started ==> ReadyStep(s, started).log == s.log
  {
    if started {
      assert StartStopStep(s, started).log[|s.log|] == Stop;
    }
  }

  /**
   * The multiple-permissions callback never re-prompts for a result to a batch
   * that requestPermissions launched: the session is left as it was.
   */
  lemma LaunchedBatchResultChangesNothing(s: Session, p: Probe, results: map<Permission, bool>, q: Probe)
    requires NextRequest(p).Some? && NextRequest(p).value.LaunchPermissions?
    requires forall k :: k in results ==> k in NextRequest(p).value.batch
    ensures MultiplePermissionsResultStep(s, results, q) == s
  {
    LaunchedBatchesNeverReprompt(p, results);
  }

  /**
   * A fresh install: onCreate with nothing stored, the service connects with
   * every capability in place, the user confirms a password, the store opens
   * and the main UI is entered with the service stopped. The identity is
   * stored, the App is shown as a first launch, the store is opened once, the
   * service is started once with the new identity and the flag is cleared.
   */
  lemma FreshInstallScenario(coarseLocationCode: int, freshId: string, password: string, granted: set<Permission>)
    requires |password| > 0
    requires AccessCoarseLocation in granted && AccessFineLocation in granted && BluetoothAdmin in granted
    ensures var final := Run(Initial(map[], coarseLocationCode),
                             [Create(freshId), ServiceConnected(Probe(30, granted, true)),
                              ConfirmClicked(password), ScreenEntered(true, false, false)]);
            && final.userId == freshId
            && GetString(final.settings, USER_ID) == Some(freshId)
            && !FirstTime(final.settings)
            && final.log == [PlatformBind(freshId), ShowApp(true), OpenDatabase(password), Start(freshId)]
  {
    var s0 := Initial(map[], coarseLocationCode);
    var s1 := Apply(s0, Create(freshId));
    assert s1.userId == freshId;
    var s2 := Apply(s1, ServiceConnected(Probe(30, granted, true)));
    assert NextRequest(Probe(30, granted, true)) == None;
    assert FirstTime(s1.settings);
    var s3 := Apply(s2, ConfirmClicked(password));
    var s4 := Apply(s3, ScreenEntered(true, false, false));
    var cs := [Create(freshId), ServiceConnected(Probe(30, granted, true)),
               ConfirmClicked(password), ScreenEntered(true, false, false)];
    assert Run(s3, cs[3..]) == Run(s4, []) by { assert cs[3..][1..] == []; }
    assert Run(s2, cs[2..]) == Run(s3, cs[3..]) by { assert cs[2..][1..] == cs[3..]; }
    assert Run(s1, cs[1..]) == Run(s2, cs[2..]) by { assert cs[1..][1..] == cs[2..]; }
    assert Run(s0, cs) == Run(s1, cs[1..]);
  }
}
