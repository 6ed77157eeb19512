# MeshLink session bootstrap, modelled in Dafny

MeshLink is an Android app that finds nearby peers over Bluetooth LE and
exchanges messages. Its main activity handles startup. It settles the user's
friendly identifier, which is created once and kept in the "USER_SETTINGS"
preferences. It binds the background BLE service. It walks the user through
the radio permissions, the adapter-enable prompt and the location
permissions. Finally it gates the app behind the master password of the
encrypted database, then starts the service. The list entry for a peer device
picks a signal-strength icon from the peer's RSSI.

This project models that logic and proves its properties:

- `available_device.dfy` (module `AvailableDevice`): the signal-icon choice, the title fallback and the click target.
- `settings_store.dfy` (module `SettingsStore`): the preferences as a map, the create-once identity and the first-launch flag.
- `permissions.dfy` (module `Permissions`): `requestPermissions` as the pure decision `NextRequest`, and the three result callbacks' re-prompt conditions. An independent description (required capabilities, stages and their priority) is related to it by lemmas.
- `screens.dfy` (module `Screens`): the choice among password dialog, opening dialog and main UI; the non-empty password guard; the start/stop button.
- `bootstrap.dfy` (module `Bootstrap`): the activity's state as a `Session` value. Platform effects are kept as an append-only log (`Launch(batch)`, `EnableAdapter`, `PlatformBind(id)`, `PlatformUnbind`, `ShowApp(firstTime)`, `OpenDatabase(pw)`, `Start(id)`, `Stop`). There is one step function per callback, and `Run` applies any sequence of callbacks. Lemmas state what every such sequence preserves.
- `main_activity.dfy` (module `Activity`): class `MainActivity`. Its fields are `userId`, `isServiceBound`, `serviceAttached` (`bleService != null`), `binderAttached` (`bleBinder != null`), the settings map and the effect log. Each callback is a method that updates these fields in place. Each method's postcondition equates the new state with the matching step function applied to the old state.

Platform queries are inputs. A `Probe` carries the SDK level, the granted permissions and whether the adapter is on. The freshly generated identifier, the service's `isBleStarted` value and the store's open/opening status are parameters. `RequestCode.ACCESS_COARSE_LOCATION` is a constant given when the activity is constructed. The Android constants used are `PERMISSION_GRANTED = 0`, `RESULT_OK = -1` and `VERSION_CODES.S = 31`.

Some facts about the code that the model keeps:

- `requestPermissions` checks the radio permissions first, then the adapter, then location.
- `bindService` binds on every call, whether or not the service is already bound.
- Late results are not discarded: a callback acts on the state it finds.
- A second `openDatabase` is not guarded: each confirm with a non-empty password opens again.
- `onServiceDisconnected` clears only `bleService`; `bleBinder` stays set.

One consequence of the code is proved in `Permissions.LaunchedBatchesNeverReprompt`. The multiple-permissions callback re-prompts only when the result map contains `BLUETOOTH_ADMIN` mapped to false and some other entry is false. `requestPermissions` never launches such a batch: the admin batch holds only `BLUETOOTH_ADMIN`, and the other two batches do not contain it. So for every batch the activity launches, that callback never re-prompts.

## Model

| member | source | states |
|---|---|---|
| `AvailableDevice.SignalIconOf` | app/src/main/java/com/cstef/meshlink/ui/components/AvailableDevice.kt:72-78 | The icon chain; a connected device with a nonzero rssi always gets a strength icon, and the two "no signal" icons occur exactly otherwise |
| `AvailableDevice.ZeroRssiIsBad` | app/src/main/java/com/cstef/meshlink/ui/components/AvailableDevice.kt:72 | An rssi of 0 shows SignalWifiBad whether or not the device is connected, and only rssi 0 shows it |
| `AvailableDevice.DisconnectedIsOff` | app/src/main/java/com/cstef/meshlink/ui/components/AvailableDevice.kt:73 | SignalWifiOff is shown exactly for a nonzero rssi on a device that is not connected |
| `AvailableDevice.ConnectedBuckets` | app/src/main/java/com/cstef/meshlink/ui/components/AvailableDevice.kt:74-78 | For a connected device with nonzero rssi, each icon holds exactly on its range: >= -60, [-70,-60), [-80,-70), [-90,-80), < -90 |
| `AvailableDevice.StrengthMonotone` | app/src/main/java/com/cstef/meshlink/ui/components/AvailableDevice.kt:74-78 | For connected devices with nonzero rssi, a larger rssi never gets a lower-ranked strength icon |
| `AvailableDevice.ZeroBreaksMonotonicity` | app/src/main/java/com/cstef/meshlink/ui/components/AvailableDevice.kt:72-74 | The ranking is not monotone across rssi 0: -50 ranks above 0 |
| `AvailableDevice.Title` | app/src/main/java/com/cstef/meshlink/ui/components/AvailableDevice.kt:59 | The title is the device's name when it has one, otherwise its user id |
| `AvailableDevice.ClickTarget` | app/src/main/java/com/cstef/meshlink/ui/components/AvailableDevice.kt:34-35 | A click, long or short, reports the device's user id, which equals the title exactly when no distinct name is set |
| `AvailableDevice.ClickReportsIdNotTitle` | app/src/main/java/com/cstef/meshlink/ui/components/AvailableDevice.kt:33-35 | Click and long click both report the user id, which differs from the displayed title when a different name is set |
| `SettingsStore.ResolveIdentity` | app/src/main/java/com/cstef/meshlink/MainActivity.kt:74-82 | With no USER_ID stored, the fresh id is used and stored; with one stored, it is used and the settings are unchanged; afterwards USER_ID holds the user id and the first-launch flag is untouched |
| `SettingsStore.IdentityCreatedOnce` | app/src/main/java/com/cstef/meshlink/MainActivity.kt:74-82 | A later launch on the persisted settings gets the same id and writes nothing, whatever fresh id it is offered |
| `SettingsStore.FirstTime` | app/src/main/java/com/cstef/meshlink/MainActivity.kt:448 | first_time is read with default true: an absent flag means a first launch, and a stored flag is taken as it is |
| `SettingsStore.MarkLaunched` | app/src/main/java/com/cstef/meshlink/MainActivity.kt:204-209 | Afterwards first_time reads false; an already-false flag leaves the store unchanged; every other key keeps its value |
| `Permissions.NextRequest` | app/src/main/java/com/cstef/meshlink/MainActivity.kt:339-392 | requestPermissions' early-return cascade; a launched batch is never empty and asks only for permissions required on this SDK level, and every request covers a capability that is missing |
| `Permissions.NextRequestIsEarliestMissingStage` | app/src/main/java/com/cstef/meshlink/MainActivity.kt:339-392 | Nothing is launched iff no required capability is missing; otherwise the request belongs to the earliest stage (radio, adapter, location) with a missing capability and asks for that whole stage as one batch |
| `Permissions.RadioCheckDependsOnSdk` | app/src/main/java/com/cstef/meshlink/MainActivity.kt:340-369 | Below API 31 only BLUETOOTH_ADMIN matters and it is requested alone; from API 31 on ADMIN is ignored and any missing ADVERTISE/CONNECT/SCAN requests all three |
| `Permissions.LaterStepsAreGated` | app/src/main/java/com/cstef/meshlink/MainActivity.kt:372-391 | The adapter intent is launched iff the radio stage is satisfied and the adapter is off; the location batch iff both earlier steps pass and coarse or fine location is missing |
| `Permissions.GrantMovesCascadeOn` | app/src/main/java/com/cstef/meshlink/MainActivity.kt:339-392 | Granting the launched request makes the next call launch a strictly later stage or nothing |
| `Permissions.CoarseLocationReprompts` | app/src/main/java/com/cstef/meshlink/MainActivity.kt:307-308 | The coarse-location condition; it only re-prompts for the coarse-location request code, and never when the first result is granted |
| `Permissions.CoarseLocationReadsFirstResultOnly` | app/src/main/java/com/cstef/meshlink/MainActivity.kt:307-311 | The permission result re-prompts iff it is for the coarse-location code and the results are empty or the first is not granted; later entries and other codes do not matter |
| `Permissions.AdapterReprompts` | app/src/main/java/com/cstef/meshlink/MainActivity.kt:317 | The adapter-enable condition: RESULT_OK never re-prompts, RESULT_CANCELED always does |
| `Permissions.MultiPermissionReprompts` | app/src/main/java/com/cstef/meshlink/MainActivity.kt:327-328 | The filter/all/`== false` condition; when it holds, BLUETOOTH_ADMIN is present and false and it is not the only key |
| `Permissions.MultiPermissionRepromptsExactly` | app/src/main/java/com/cstef/meshlink/MainActivity.kt:327-328 | The multiple-permissions callback re-prompts iff BLUETOOTH_ADMIN is present and false and some other entry is false |
| `Permissions.AdminAloneOrAbsentNeverReprompts` | app/src/main/java/com/cstef/meshlink/MainActivity.kt:327-328 | A result map lacking BLUETOOTH_ADMIN, or containing only it, never re-prompts |
| `Permissions.LaunchedBatchesNeverReprompt` | app/src/main/java/com/cstef/meshlink/MainActivity.kt:327-392 | No result whose keys come from a batch requestPermissions launched can make the multiple-permissions callback re-prompt |
| `Screens.SelectScreen` | app/src/main/java/com/cstef/meshlink/MainActivity.kt:137-202 | Exactly one screen: password dialog iff not open and not opening, opening dialog iff opening, main UI iff open and not opening |
| `Screens.SubmitPassword` | app/src/main/java/com/cstef/meshlink/MainActivity.kt:182-186 | A password is handed to openDatabase iff it is non-empty, and it is handed on unchanged |
| `Screens.StartStopCommand` | app/src/main/java/com/cstef/meshlink/MainActivity.kt:240-246 | The button stops the service iff it is started, and starts it otherwise |
| `Bootstrap.RequestEffects` | app/src/main/java/com/cstef/meshlink/MainActivity.kt:339-392 | A requestPermissions call logs Launch(batch) for a permission batch and EnableAdapter for the adapter request, nothing exactly when nothing is launched, and never a bind or unbind |
| `Bootstrap.RequestStep` | app/src/main/java/com/cstef/meshlink/MainActivity.kt:339-392 | requestPermissions appends the chosen request and at most one effect; when every check passes the session is unchanged |
| `Bootstrap.BindStep` | app/src/main/java/com/cstef/meshlink/MainActivity.kt:423-429 | bindService always binds with the user id and sets isServiceBound, without checking it; nothing else changes |
| `Bootstrap.UnbindStep` | app/src/main/java/com/cstef/meshlink/MainActivity.kt:431-436 | unbindService unbinds on the platform iff bound and always leaves isServiceBound false; nothing else changes |
| `Bootstrap.CreateStep` | app/src/main/java/com/cstef/meshlink/MainActivity.kt:74-84 | onCreate uses the stored id if present, otherwise the fresh one (and stores it, keeping every other key), then binds with that id; the service and binder flags are untouched |
| `Bootstrap.ConnectedStep` | app/src/main/java/com/cstef/meshlink/MainActivity.kt:441-451 | onServiceConnected sets the service and binder, issues requestPermissions' request, then shows the App with the stored first-launch flag; user id, bound flag and settings are unchanged |
| `Bootstrap.DisconnectedStep` | app/src/main/java/com/cstef/meshlink/MainActivity.kt:454-456 | onServiceDisconnected clears bleService, leaves bleBinder unchanged, and changes nothing else |
| `Bootstrap.PermissionsResultStep` | app/src/main/java/com/cstef/meshlink/MainActivity.kt:303-313 | The coarse-location result re-issues requestPermissions' request exactly when the coarse-location grant failed; nothing but the log changes |
| `Bootstrap.AdapterResultStep` | app/src/main/java/com/cstef/meshlink/MainActivity.kt:315-321 | The adapter result re-issues requestPermissions' request exactly when the result code is not RESULT_OK; nothing but the log changes |
| `Bootstrap.MultiplePermissionsResultStep` | app/src/main/java/com/cstef/meshlink/MainActivity.kt:322-336 | The multiple-permissions result runs requestPermissions when its re-prompt condition holds, and leaves the session unchanged otherwise |
| `Bootstrap.ConfirmStep` | app/src/main/java/com/cstef/meshlink/MainActivity.kt:182-186 | Confirm issues openDatabase(password) exactly when the password is non-empty and the binder is set; nothing but the log changes |
| `Bootstrap.ReadyStep` | app/src/main/java/com/cstef/meshlink/MainActivity.kt:203-213 | Entering the main UI leaves first_time false and issues start(userId) exactly when the service is not started and the binder is set; nothing but settings and log changes |
| `Bootstrap.ScreenStep` | app/src/main/java/com/cstef/meshlink/MainActivity.kt:137-213 | A composition that selects the main UI runs the ready effect; one that selects a dialog changes nothing |
| `Bootstrap.StartBleStep` | app/src/main/java/com/cstef/meshlink/MainActivity.kt:394-397 | startBle issues start(userId) exactly while bleService is set; nothing but the log changes |
| `Bootstrap.StopBleStep` | app/src/main/java/com/cstef/meshlink/MainActivity.kt:399-402 | stopBle issues stop exactly while bleService is set; nothing but the log changes |
| `Bootstrap.StartStopStep` | app/src/main/java/com/cstef/meshlink/MainActivity.kt:240-246 | The button issues stop when started and start(userId) otherwise, and nothing while bleService is cleared; nothing but the log changes |
| `Bootstrap.Apply` | app/src/main/java/com/cstef/meshlink/MainActivity.kt:68-456 | No callback removes or rewrites an issued effect, and none changes the coarse-location request code |
| `Bootstrap.CountsAppend` | app/src/main/java/com/cstef/meshlink/MainActivity.kt:423-436 | Bind and unbind counts of a concatenated log add up |
| `Bootstrap.RunKeepsBalance` | app/src/main/java/com/cstef/meshlink/MainActivity.kt:423-436 | Across any callback sequence, platform unbinds never outnumber binds |
| `Bootstrap.RunKeepsFirstLaunchCleared` | app/src/main/java/com/cstef/meshlink/MainActivity.kt:203-209 | Once first_time is false, no callback sequence sets it back to true |
| `Bootstrap.RunKeepsIdentity` | app/src/main/java/com/cstef/meshlink/MainActivity.kt:74-82 | Once the stored id is adopted it never changes, and every later bind and start carries it and every openDatabase has a non-empty password |
| `Bootstrap.LaunchUsesOneIdentity` | app/src/main/java/com/cstef/meshlink/MainActivity.kt:68-85 | After onCreate on a new activity and any callbacks: one identity throughout, stored under USER_ID; binds and starts carry it; no empty-password open; unbinds never exceed binds |
| `Bootstrap.UnbindTwiceUnbindsOnce` | app/src/main/java/com/cstef/meshlink/MainActivity.kt:431-436 | A second unbindService in a row is a no-op, so two calls unbind on the platform at most once |
| `Bootstrap.DisconnectSilencesButtonOnly` | app/src/main/java/com/cstef/meshlink/MainActivity.kt:394-456 | After a disconnect the start/stop button does nothing (it uses bleService), but the ready effect still starts through the remaining binder |
| `Bootstrap.ButtonAndReadyEffectAgreeOnStart` | app/src/main/java/com/cstef/meshlink/MainActivity.kt:210-246 | With service and binder set, the button and the ready effect issue the same start(userId) exactly when the service is not started; when started the button stops and the ready effect does nothing |
| `Bootstrap.LaunchedBatchResultChangesNothing` | app/src/main/java/com/cstef/meshlink/MainActivity.kt:322-392 | A multiple-permissions result for a batch requestPermissions launched leaves the session unchanged |
| `Bootstrap.FreshInstallScenario` | app/src/main/java/com/cstef/meshlink/MainActivity.kt:68-213 | Fresh install, all granted, password confirmed, store open: the id is stored, the App shows as a first launch, the store opens once, start runs once with the new id, first_time is cleared |
| `Activity.MainActivity.constructor` | app/src/main/java/com/cstef/meshlink/MainActivity.kt:60-66 | A new activity has an empty user id, is unbound, has neither service nor binder set, and has issued nothing |
| `Activity.MainActivity.OnCreate` | app/src/main/java/com/cstef/meshlink/MainActivity.kt:68-85 | Performs CreateStep in place: the stored id is reused, or the fresh one is stored; then the service is bound |
| `Activity.MainActivity.OnDestroy` | app/src/main/java/com/cstef/meshlink/MainActivity.kt:298-301 | Performs UnbindStep in place |
| `Activity.MainActivity.BindService` | app/src/main/java/com/cstef/meshlink/MainActivity.kt:423-429 | Performs BindStep in place; isServiceBound is true afterwards |
| `Activity.MainActivity.UnbindService` | app/src/main/java/com/cstef/meshlink/MainActivity.kt:431-436 | Performs UnbindStep in place; isServiceBound is false afterwards |
| `Activity.MainActivity.RequestPermissions` | app/src/main/java/com/cstef/meshlink/MainActivity.kt:339-392 | Performs RequestStep in place: at most one effect is appended |
| `Activity.MainActivity.OnServiceConnected` | app/src/main/java/com/cstef/meshlink/MainActivity.kt:441-452 | Performs ConnectedStep in place and returns the stored first-launch flag |
| `Activity.MainActivity.OnServiceDisconnected` | app/src/main/java/com/cstef/meshlink/MainActivity.kt:454-456 | Performs DisconnectedStep in place |
| `Activity.MainActivity.OnRequestPermissionsResult` | app/src/main/java/com/cstef/meshlink/MainActivity.kt:303-313 | Performs PermissionsResultStep in place |
| `Activity.MainActivity.OnEnableAdapterResult` | app/src/main/java/com/cstef/meshlink/MainActivity.kt:315-321 | Performs AdapterResultStep in place |
| `Activity.MainActivity.OnMultiplePermissionsResult` | app/src/main/java/com/cstef/meshlink/MainActivity.kt:322-336 | Performs MultiplePermissionsResultStep in place |
| `Activity.MainActivity.OnConfirmPassword` | app/src/main/java/com/cstef/meshlink/MainActivity.kt:182-186 | Performs ConfirmStep in place |
| `Activity.MainActivity.OnMainUiEntered` | app/src/main/java/com/cstef/meshlink/MainActivity.kt:203-213 | Performs ReadyStep in place; first_time reads false afterwards |
| `Activity.MainActivity.StartBle` | app/src/main/java/com/cstef/meshlink/MainActivity.kt:394-397 | Performs StartBleStep in place: start(userId) only while bleService is set |
| `Activity.MainActivity.StopBle` | app/src/main/java/com/cstef/meshlink/MainActivity.kt:399-402 | Performs StopBleStep in place: stop only while bleService is set |
| `Activity.MainActivity.OnStartStopClicked` | app/src/main/java/com/cstef/meshlink/MainActivity.kt:240-246 | Performs StartStopStep in place |

## Left out

- Compose layout, theming, icons' visuals, navigation, the password text field and its visibility toggle, and the dialog titles and texts are UI. Only the branch conditions are modelled.
- Toasts, `Log` calls, `FLAG_KEEP_SCREEN_ON` and the notification channels (`createNotificationChannels`) are platform side effects with no decision logic.
- `LoadingScreen` and the Cancel button of the password dialog (`finish()`) are left out: they are pure UI and activity teardown.
- The database error toast is left out: it only displays the binder's error message.
- `ContextCompat.checkSelfPermission`, `isBleOn`, `Build.VERSION.SDK_INT`, `registerForActivityResult`, `bindService`/`unbindService` on the context and `getSharedPreferences` are platform APIs. They are inputs (`Probe`, result codes, result maps) or log effects, not behaviour.
- `BleService` and its binder (`openDatabase`, `start`, `stop`, `isBleStarted`, the database observables), `generateFriendlyId`, `RequestCode` and `Device` are not part of this model. Their values are parameters, and their calls are log effects.
- Asynchrony, lifecycle timing and LiveData plumbing are left out. Each callback is one sequential step, and `ScreenEntered` stands for one composition of the App; only the main-UI branch runs its `LaunchedEffect`.
- Reading a preference stored with a different type throws `ClassCastException` on Android. `SettingsStore.GetString` and `SettingsStore.GetBoolean` treat such a key as absent instead.
- Permission keys are the six permissions the activity uses, not arbitrary strings. A result map with other keys is not represented.
- `SettingsStore.ResolveIdentity`: the `?: generateFriendlyId()` fallback on the reuse branch is not modelled. It can only fire when the stored value disappears between the two reads.
