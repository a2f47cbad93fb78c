# ASCOM Alpaca simulator, modelled in Dafny

This project models the ASCOM Alpaca device simulator. It is an HTTP
server that pretends to be a set of observatory devices: cameras,
telescopes, domes, focusers, filter wheels, rotators, safety monitors,
switches, observing-conditions sensors and cover calibrators. A client
talks to it through the Alpaca REST protocol. The model covers:

- **The device store** (`State`). There is one property map per
  device, identified by its type and number. A device's map is created
  on first access from its type's defaults, which its configured
  settings override. It changes only when a patch is merged into it,
  and a configuration reload clears it. The store also keeps the
  counter that issues server transaction ids.
- **The configuration loader** (`ConfigLoader`). This is the
  `Config` singleton. It standardises the file name, copies the
  template in when the configuration file is missing, and caches the
  document.
- **The request pipeline and reply envelope** (`Common`, `Envelope`).
  Every device endpoint checks that the device exists, reads its
  state, decides, merges a patch and replies with one fresh server
  transaction id. Domain errors travel as HTTP 200 envelopes that
  carry their error number. Unexpected exceptions become HTTP 500 with
  error number 0x500. An explicitly raised FastAPI `HTTPException` with
  status 404 or 422 becomes a plain HTTP 400.
- **Every device handler**, one module per device type. Each module
  has a pure decision function over the device's settings and state,
  and a `Handle` method that runs it through the store.
- **The camera's exposure task** (`Exposure`, `ImageBytes`,
  `Interleaving`). This covers the progress steps, the seeing and
  pointing inputs, the module-level image cache, and the
  `imagebytes` frame layout. `Interleaving` shows what happens when
  an abort or stop request runs during the background task.
- **The endpoint discovery and the two analysis scripts**
  (`Discovery`, `SpecPaths`, `Completeness`). These list routes, group
  the OpenAPI operations by device type, and compare the two
  listings.

`Values`, `Text`, `Sorting`, `Collections` and `Wrappers` model the
Python values and library operations the rest relies on: `dict.get`,
`dict.update`, numeric comparison, float `%`, `str.lower`,
`str.title`, `str.split`, `str.strip`, `str.replace`, `int()` on
numbers and decimal text, `str()` on integers, and `sorted(set(...))`.

The repository ships two copies of most files: `src/alpaca_simulators/`
and `src/observatory_simulator/`. They differ in where the
configuration comes from (`get` rather than `load` in the config
loader), in a few line positions, and in logging: the
`alpaca_simulators` copy's `api/common.py` and `api/safetymonitor.py`
write `logging.debug` messages, and its `get_form_data` catches
`except Exception as e` where the other copy has a bare `except:`.
None of these changes a reply. One module models both copies.
The table cites the `alpaca_simulators` copy, except for the
`configureddevices` listing, which is complete only in the
`observatory_simulator` copy.

Floats are modelled as `real`. An integer in the store is `int`. No
operation of the modelled code depends on a machine integer width.

## Model

| member | source | states |
|---|---|---|
| State.ConfiguredIds | src/alpaca_simulators/state.py:360-362 | the configured identities are exactly the (type, number) pairs whose number is a key of the type's section |
| State.DeviceConfigOf | src/alpaca_simulators/state.py:355-357 | a configured device's settings are its section entry; an unconfigured device's settings are the empty map |
| State.SettingsImplyConfigured | src/alpaca_simulators/state.py:355-362 | a device with non-empty settings is configured |
| State.Defaults | src/alpaca_simulators/state.py:145-284 | every state class starts with `connected` False; a type without a state class has `connected` and nothing else |
| State.BaseState | src/alpaca_simulators/state.py:298-310 | before the settings are applied, a device's keys are exactly its state class's fields |
| State.InitialState | src/alpaca_simulators/state.py:298-334 | the first state holds the defaults' keys plus the settings' keys; every setting overrides, every other default stays, and the state is never empty |
| State.CameraInitialGeometry | src/alpaca_simulators/state.py:303-310 | a camera's first `numx`/`numy` is its configured `numx`/`numy`, else `cameraxsize`/`cameraysize`, else 1024 |
| State.UnknownKindInitialState | src/alpaca_simulators/state.py:329-334 | a device of an unknown type starts as `{connected: False}` updated by its settings |
| State.CurrentIn | src/alpaca_simulators/state.py:337-343 | a device's current state is its stored map when it has one, else its initial state; it is never empty |
| State.Store.constructor | src/alpaca_simulators/state.py:286-288 | a new store has no device states, the given configuration and a transaction counter at 0 |
| State.Store.NextTransactionId | src/alpaca_simulators/state.py:291-295 | each id is one more than the previous, so the first is 1 |
| State.Store.GetDeviceState | src/alpaca_simulators/state.py:337-343 | returns the device's current state and stores it there; no read changes what any later read of any device returns |
| State.Store.UpdateDeviceState | src/alpaca_simulators/state.py:346-352 | the device's state becomes its current state with the patch merged in; every other device reads as before |
| State.Store.ReloadConfig | src/alpaca_simulators/state.py:365-372 | the new configuration replaces the old, every device state is dropped, and every device then reads as its new initial state |
| State.Store.GetAllConfiguredDevices | src/alpaca_simulators/state.py:375-380 | one list per configured type, holding each configured number exactly once and nothing else |
| Values.Get | src/alpaca_simulators/state.py:357 | `dict.get`: the key's value when present, the default otherwise |
| Values.Merge | src/alpaca_simulators/state.py:352 | `dict.update`: the keys are the union; patch keys take the patch's value, the rest keep theirs |
| Values.MergeTwice | src/alpaca_simulators/state.py:346-352 | two updates change only the keys of their two patches |
| Values.Num | src/alpaca_simulators/api/focuser.py:173 | a value takes part in numeric comparison exactly when it is a bool, int or float |
| Values.Trunc | src/alpaca_simulators/api/camera.py:76 | `int()` of a float truncates toward zero, for negative values too |
| Values.IntOf | src/alpaca_simulators/api/camera.py:46-47 | `int()` converts every number (an int as it is, a float truncated toward zero), reads a string as a decimal literal, and raises on None, lists and dicts |
| Values.IntOfDecimalText | src/alpaca_simulators/api/camera.py:46-47 | `int()` of the decimal text of an integer is that integer |
| Values.Len | src/alpaca_simulators/api/filterwheel.py:64 | `len()` is defined exactly on lists, strings and dicts, and a list's length is its number of items |
| Values.FloatMod | src/alpaca_simulators/api/rotator.py:152 | Python's float `%` by a positive modulus lies in [0, m) and differs from the operand by a whole multiple of m |
| Values.FloatModOfInRange | src/alpaca_simulators/api/rotator.py:152 | a value already in [0, m) is its own remainder |
| ConfigLoader.DropSuffix | src/alpaca_simulators/config.py:75-82 | `removesuffix` of a present suffix gives the text that the suffix completes |
| ConfigLoader.StandardiseConfigName | src/alpaca_simulators/config.py:75-82 | the result always ends in ".yaml"; a ".yaml" name is kept; a ".yml" name has its suffix replaced; any other name gets ".yaml" appended |
| ConfigLoader.YamlIsNotYml | src/alpaca_simulators/config.py:75-82 | the two suffix cases never both apply |
| ConfigLoader.StandardiseIdempotent | src/alpaca_simulators/config.py:75-82 | standardising a standardised name changes nothing |
| ConfigLoader.YmlAndYamlAgree | src/alpaca_simulators/config.py:75-82 | "x.yml" and "x.yaml" name the same file |
| ConfigLoader.EnsureAndLoad | src/alpaca_simulators/config.py:46-63 | a missing directory raises; an existing file is read as it is; a missing file is first copied from the template, or raises when the template is missing too |
| ConfigLoader.EnsureAndLoadSettles | src/alpaca_simulators/config.py:46-54 | after a successful load the file exists and holds what was read, and a second load copies nothing and reads the same |
| ConfigLoader.MissingConfigComesFromTemplate | src/alpaca_simulators/config.py:50-63 | a missing configuration file is created from the template, and the template's contents are then the configuration |
| ConfigLoader.ConfigDir.constructor | src/alpaca_simulators/config.py:46-48 | the directory model holds the given presence flag and files |
| ConfigLoader.Config.constructor | src/alpaca_simulators/config.py:27-36 | a new configuration object holds the standardised name and no cached document |
| ConfigLoader.Config.Load | src/alpaca_simulators/config.py:38-44 | a cached document is returned without touching the directory; otherwise the loader runs and a non-empty result is cached |
| ConfigLoader.Config.Reload | src/alpaca_simulators/config.py:68-72 | always runs the loader again and replaces the cache with what it read, unless it raises |
| ConfigLoader.Config.Item | src/alpaca_simulators/config.py:38-66 | `config[key]` loads first: with a cached document it succeeds exactly when that document is a mapping with the key; with an empty cache it reports the loader's error, or succeeds exactly when the freshly loaded document has the key, leaving the cache and files as the loader does; a success returns the entry |
| ConfigLoader.ConfigClass.constructor | src/alpaca_simulators/config.py:14 | the class starts with no instance |
| ConfigLoader.ConfigClass.Construct | src/alpaca_simulators/config.py:19-29 | the first construction creates the singleton; every later one returns that same object unchanged and ignores its argument |
| Envelope.QueryClientTransactionId | src/alpaca_simulators/main.py:51-58 | the echoed ClientTransactionID is `int()` of the query parameter when that parses, and 0 when it is missing or does not parse |
| Envelope.QueryEchoesClientTransactionId | src/alpaca_simulators/main.py:53-58 | a query holding the decimal text of an integer echoes that integer |
| Envelope.SuccessReply | src/alpaca_simulators/api/common.py:84-88 | a normal return is HTTP 200, error 0, an empty message, the value, and both transaction ids |
| Envelope.FailureReply | src/alpaca_simulators/main.py:49-127 | an AlpacaError is HTTP 200 with its code and message; any other exception is HTTP 500 with 0x500 and "Internal server error: " followed by a placeholder for the exception's text; neither carries a value |
| Envelope.DomainErrorsTravelAsSuccessfulHttp | src/alpaca_simulators/main.py:64-72 | a domain error and a success share HTTP status 200 and differ only in the envelope |
| Envelope.HttpExceptionReply | src/alpaca_simulators/main.py:75-105 | an explicitly raised `HTTPException` of status 404 or 422 becomes HTTP 400 with its prefixed text; any other status passes through with its detail |
| Envelope.HandleException | src/alpaca_simulators/main.py:49-72 | an exception handler draws exactly one server transaction id and puts it in its reply |
| Envelope.ApiVersions | src/alpaca_simulators/main.py:209-212 | the only API version served is 1 |
| Envelope.DeviceEntryFacts | src/observatory_simulator/main.py:234-241 | an entry's DeviceType is already title-cased, and two devices of one type have different UniqueIDs |
| Envelope.ConfiguredDevices | src/observatory_simulator/main.py:224-245 | one entry per configured device and nothing else, as many entries as configured devices |
| Envelope.Listed | src/observatory_simulator/main.py:230-243 | a duplicate-free list covering every configured identity gives exactly that listing |
| Common.NotFound | src/alpaca_simulators/api/common.py:33-35 | the guard's error is an AlpacaError with code 0x400 |
| Common.ValidateDevice | src/alpaca_simulators/api/common.py:33-35 | the guard passes exactly for configured devices and raises NotFound otherwise |
| Common.Apply | src/alpaca_simulators/api/common.py:84-88 | a raising handler leaves the state as it was; a returning one merges its patch |
| Common.ReplyFor | src/alpaca_simulators/main.py:49-72 | a returning handler gets the success envelope, a raising one the failure envelope of its exception |
| Common.ServedReads | src/alpaca_simulators/api/common.py:76-88 | after a request, the addressed device reads as the decision applied to it (or as before, when it is not configured) and every other device reads as before |
| Common.Reject | src/alpaca_simulators/api/common.py:33-35 | an unconfigured device gets the 0x400 reply with one fresh transaction id and the store is untouched |
| Common.Finish | src/alpaca_simulators/api/common.py:120-127 | the decision's patch is merged into the device's state and the reply carries one fresh transaction id |
| Common.Serve | src/alpaca_simulators/api/common.py:76-88 | the guard → read → decide → merge → reply pipeline: exactly one transaction id is drawn, an unconfigured device is never read or written, and a configured one ends as the decision applied to its current state |
| Common.ConnectedFlagIgnoresCase | src/alpaca_simulators/api/common.py:118-120 | letter case does not matter to the Connected text, and only the four short words count as True |
| Common.CommonDecision | src/alpaca_simulators/api/common.py:76-356 | every common endpoint succeeds; only connect, disconnect and set_connected write, and they write `connected` only |
| Common.ConnectionRoundTrip | src/alpaca_simulators/api/common.py:298-343 | connect, disconnect and set_connected write only `connected`, which a later read of `connected` returns |
| Common.InitiallyDisconnected | src/alpaca_simulators/api/common.py:77-88 | a device that was never connected, and whose settings say nothing about it, reads as disconnected |
| Common.CommonDefaults | src/alpaca_simulators/api/common.py:189-295 | the default name is "Simulator <Type> #<n>" ending in the device number; supportedactions is empty; action, commandbool and commandstring return "", False and "" |
| Common.HandleCommon | src/alpaca_simulators/api/common.py:76-356 | every common endpoint follows the request pipeline with its own decision |
| SafetyMonitor.Decide | src/alpaca_simulators/api/safetymonitor.py:17-57 | the getter reads `issafe` (True when absent) and writes nothing; the setter writes `issafe` only |
| SafetyMonitor.SetThenGet | src/alpaca_simulators/api/safetymonitor.py:36-47 | a written flag is read back and nothing else changes |
| SafetyMonitor.SafeByDefault | src/alpaca_simulators/api/safetymonitor.py:18-21 | a monitor never written, with no `issafe` setting, reads as safe |
| SafetyMonitor.Handle | src/alpaca_simulators/api/safetymonitor.py:18-57 | each safety monitor endpoint follows the request pipeline with its decision |
| FilterWheel.SetPositionDecision | src/alpaca_simulators/api/filterwheel.py:52-69 | a position is accepted exactly when it indexes the configured names; a refused one gets 0x402; a `names` setting without a length raises a TypeError |
| FilterWheel.Decide | src/alpaca_simulators/api/filterwheel.py:18-69 | names and focus offsets come from the settings, the position from the state, and only set_position writes |
| FilterWheel.EmptyWheelRefusesEveryPosition | src/alpaca_simulators/api/filterwheel.py:64-67 | a wheel with no names refuses every position with 0x402 |
| FilterWheel.SetThenGet | src/alpaca_simulators/api/filterwheel.py:63-69 | an accepted position is read back and nothing else changes |
| FilterWheel.Handle | src/alpaca_simulators/api/filterwheel.py:18-74 | each filter wheel endpoint follows the request pipeline with its decision |
| Focuser.MoveDecision | src/alpaca_simulators/api/focuser.py:160-185 | a negative position is refused with 0x402; otherwise it is accepted exactly up to and including `maxstep`, a non-numeric `maxstep` raises a TypeError, and a move leaves the focuser not moving |
| Focuser.SetTempCompDecision | src/alpaca_simulators/api/focuser.py:96-111 | refused with 0x401 exactly when `tempcompavailable` is falsy; otherwise only `tempcomp` is written |
| Focuser.WritesAreConfined | src/alpaca_simulators/api/focuser.py:96-185 | which endpoints write, and which keys each may write |
| Focuser.SettingsGettersIgnoreState | src/alpaca_simulators/api/focuser.py:18-80 | absolute, maxincrement, maxstep and stepsize answer from the settings alone |
| Focuser.MoveIsAbsolute | src/alpaca_simulators/api/focuser.py:171-185 | the position read back after a move is the one asked for, and moving twice to it is moving once |
| Focuser.DefaultMoveRange | src/alpaca_simulators/api/focuser.py:172-175 | with the default limit, exactly the positions 0 through 100000 are accepted |
| Focuser.Decide | src/alpaca_simulators/api/focuser.py:96-175 | only settempcomp and move ever raise; a getter's reply changes nothing |
| Focuser.Handle | src/alpaca_simulators/api/focuser.py:18-190 | each focuser endpoint follows the request pipeline with its decision |
| Rotator.Normalize | src/alpaca_simulators/api/rotator.py:152 | every normalised angle lies in [0, 360) |
| Rotator.MoveDecision | src/alpaca_simulators/api/rotator.py:137-162 | a relative move from a non-numeric position raises a TypeError; otherwise all three positions go to the normalised sum |
| Rotator.SetReverseDecision | src/alpaca_simulators/api/rotator.py:75-90 | refused with 0x401 exactly when `canreverse` is falsy; otherwise only `reverse` is written |
| Rotator.MovesAgree | src/alpaca_simulators/api/rotator.py:137-226 | every successful move leaves the three positions equal, in [0, 360), a whole number of turns from the requested angle, and the rotator not moving; nothing else changes |
| Rotator.MoveAbsoluteIdempotent | src/alpaca_simulators/api/rotator.py:172-194 | moveabsolute depends only on its argument, and doing it twice is doing it once |
| Rotator.NormalisedAnglesAreKept | src/alpaca_simulators/api/rotator.py:148-152 | an angle already in [0, 360) is stored as given, and a relative move by 0 from it equals moveabsolute to it |
| Rotator.SyncKeepsMechanicalPosition | src/alpaca_simulators/api/rotator.py:236-253 | sync moves the sky position and target but never the mechanical position |
| Rotator.HaltOnlyStops | src/alpaca_simulators/api/rotator.py:121-128 | halt clears `ismoving` and changes nothing else |
| Rotator.Decide | src/alpaca_simulators/api/rotator.py:75-152 | only setreverse and move (on a non-numeric position) ever raise; a getter's reply changes nothing |
| Rotator.Handle | src/alpaca_simulators/api/rotator.py:17-258 | each rotator endpoint follows the request pipeline with its decision |
| CoverCalibrator.CalibratorOnDecision | src/alpaca_simulators/api/covercalibrator.py:112-136 | a negative brightness is refused with 0x402; otherwise it is accepted exactly up to and including `maxbrightness`, a non-numeric limit raises a TypeError, and success writes the brightness and READY |
| CoverCalibrator.CalibratorOnThenOff | src/alpaca_simulators/api/covercalibrator.py:88-136 | on, then off: on reads back the brightness and READY, off reads back 0 and OFF, and neither touches the cover |
| CoverCalibrator.CalibratorOnReads | src/alpaca_simulators/api/covercalibrator.py:124-136 | an accepted calibratoron reads back its brightness, READY and not changing |
| CoverCalibrator.CalibratorOffReads | src/alpaca_simulators/api/covercalibrator.py:88-103 | calibratoroff always succeeds and reads back 0, OFF and not changing, writing only those three keys |
| CoverCalibrator.CoverCommands | src/alpaca_simulators/api/covercalibrator.py:145-192 | open reads back OPEN, close reads back CLOSED, halt keeps the cover state; all leave the cover not moving and the calibrator untouched |
| CoverCalibrator.InitialCoverCalibrator | src/alpaca_simulators/api/covercalibrator.py:19-70 | a device with no settings of its own starts NOT_PRESENT at brightness 0 with its cover CLOSED and a limit of 255 |
| CoverCalibrator.Decide | src/alpaca_simulators/api/covercalibrator.py:112-126 | only calibratoron ever raises; a getter's reply changes nothing |
| CoverCalibrator.Handle | src/alpaca_simulators/api/covercalibrator.py:19-197 | each cover/calibrator endpoint follows the request pipeline with its decision |
| Dome.ParkAsWritten | src/alpaca_simulators/api/dome.py:276-290 | park as written: parked, not slewing, azimuth taken from the `parkazimuth` setting (0 when absent) |
| Dome.ParkDecision | src/alpaca_simulators/api/dome.py:276-290 | corrected park: parked, not slewing, and the azimuth is the park position held in the state |
| Dome.SetParkDecision | src/alpaca_simulators/api/dome.py:299-308 | setpark always succeeds without a value; afterwards the park position is the azimuth before the call (0.0 when none is stored) and every other property is as it was |
| Dome.AzimuthDecision | src/alpaca_simulators/api/dome.py:348-393 | an azimuth outside [0, 360) is refused with 0x402, and only then |
| Dome.ShutterCommands | src/alpaca_simulators/api/dome.py:228-275 | open and close read back OPEN and CLOSED and change only the shutter status |
| Dome.SlewsAndSync | src/alpaca_simulators/api/dome.py:317-393 | a slew or sync is refused with 0x402 exactly outside its range, leaving the state as it was; a slew sets its coordinate and clears slewing and atpark; a sync sets only the azimuth |
| Dome.HomeAndAbort | src/alpaca_simulators/api/dome.py:212-259 | findhome goes to azimuth 0, at home and not slewing; abortslew only clears slewing |
| Dome.KeepsParkAzimuth | src/alpaca_simulators/api/dome.py:299-308 | no command but setpark changes the recorded park position, over any sequence of commands |
| Dome.ParkReturnsToSetPark | src/alpaca_simulators/api/dome.py:283-308 | setpark, then any commands other than setpark, then the corrected park: the dome returns to the azimuth it had at setpark |
| Dome.ParkAsWrittenIgnoresSetPark | src/alpaca_simulators/api/dome.py:283-308 | as written, a dome marked at azimuth 90 and then parked goes to azimuth 0 |
| Dome.ParkAgreesOnFreshState | src/alpaca_simulators/api/dome.py:283-290 | on a freshly created state the corrected park does exactly what the written one does |
| Dome.Decide | src/alpaca_simulators/api/dome.py:317-393 | only slewtoaltitude, slewtoazimuth and synctoazimuth ever raise, and then with 0x402; a getter's reply changes nothing |
| Dome.Handle | src/alpaca_simulators/api/dome.py:19-398 | each dome endpoint follows the request pipeline with its decision |
| ObservingConditions.KeysDistinct | src/alpaca_simulators/api/observingconditions.py:17-483 | the fourteen readings are stored under fourteen different keys |
| ObservingConditions.Description | src/alpaca_simulators/api/observingconditions.py:512-536 | a known sensor gets its description; any other name gets "Unknown sensor", which no known sensor has |
| ObservingConditions.SettersCheckTheirIntervals | src/alpaca_simulators/api/observingconditions.py:28-483 | each setter accepts exactly its interval: a closed range, [0, 360) for wind direction, a positive average period, and anything for sky brightness and sky temperature |
| ObservingConditions.WriteThenRead | src/alpaca_simulators/api/observingconditions.py:62-76 | a write outside the interval raises 0x402 and changes nothing; a write inside it is read back and changes only its own reading |
| ObservingConditions.WritesAreIndependent | src/alpaca_simulators/api/observingconditions.py:42-483 | writing one reading never changes what another reading reports |
| ObservingConditions.LookupsNeverFail | src/alpaca_simulators/api/observingconditions.py:492-561 | sensordescription and timesincelastupdate never raise, timesincelastupdate is always 1.0, and refresh changes nothing |
| ObservingConditions.Decide | src/alpaca_simulators/api/observingconditions.py:17-561 | only a setter raises, and then with 0x402; a setter writes only its own reading; every reading, sensordescription and timesincelastupdate answers a value and writes nothing |
| ObservingConditions.Handle | src/alpaca_simulators/api/observingconditions.py:17-561 | each weather station endpoint follows the request pipeline with its decision |
| Switch.InvalidId | src/alpaca_simulators/api/switch.py:41 | an unknown switch Id is an AlpacaError with code 0x402 |
| Switch.NotADict | src/alpaca_simulators/api/switch.py:87-91 | calling `.get` on a switch entry that is not a dict is an internal error |
| Switch.ConfigEntry | src/alpaca_simulators/api/switch.py:38-43 | the lookup fails with 0x402 exactly when the `in` test does not find `str(Id)` (for a dict: not a key); only a dict table can succeed, and for a dict it succeeds exactly for its keys |
| Switch.Listed | src/alpaca_simulators/api/switch.py:40 | `str(Id) in switches` is key membership for a dict, element membership for a list, substring for a string, and raises for anything else |
| Switch.CurrentValue | src/alpaca_simulators/api/switch.py:87-91 | an Id missing from a dict state table reads the configuration entry's `value`, or the default; a state table that does not support `in` raises |
| Switch.EntryGet | src/alpaca_simulators/api/switch.py:45 | `entry.get` works exactly on dict entries and is `dict.get` there |
| Switch.Setting | src/alpaca_simulators/api/switch.py:30-230 | the configuration getters never write |
| Switch.AsSwitchState | src/alpaca_simulators/api/switch.py:87-94 | an int or float value is reported as its truth value; any other value as it is |
| Switch.Write | src/alpaca_simulators/api/switch.py:274-279 | a successful table write changes only the `switches` property and answers no value |
| Switch.Decide | src/alpaca_simulators/api/switch.py:19-431 | only the four set endpoints ever write |
| Switch.UnknownIdRefused | src/alpaca_simulators/api/switch.py:38-41 | every per-switch endpoint refuses an Id that the `in` test does not find in the configured table, whatever kind of value it is, with 0x402 and changes nothing |
| Switch.StateChangeAlwaysComplete | src/alpaca_simulators/api/switch.py:236-248 | statechangecomplete answers True for any Id and writes nothing |
| Switch.PermissionsComeBeforeValues | src/alpaca_simulators/api/switch.py:269-271 | a falsy `canwrite` refuses both synchronous writes with 0x401, and a falsy or missing `canasync` refuses both asynchronous writes, whatever the value |
| Switch.ValueRangeIsInclusive | src/alpaca_simulators/api/switch.py:310-313 | on a writable switch with numeric limits a value write succeeds exactly when minimum <= value <= maximum, and is otherwise refused with 0x402 |
| Switch.SuccessfulWritesAreTableWrites | src/alpaca_simulators/api/switch.py:316-321 | a successful setswitchvalue or setswitch is exactly the table write of its value |
| Switch.WriteUpdatesOneEntry | src/alpaca_simulators/api/switch.py:274-279 | after a table write the table gives the new value for that Id and the old one for every other Id |
| Switch.WriteValueThenRead | src/alpaca_simulators/api/switch.py:316-321 | a written value is read back by getswitchvalue as itself and by getswitch as its truth, and only `switches` changes |
| Switch.WriteValueKeepsOthers | src/alpaca_simulators/api/switch.py:316-321 | a written value leaves every other switch reading as before |
| Switch.WriteStateThenRead | src/alpaca_simulators/api/switch.py:274-279 | a written state is read back by getswitch, and by getswitchvalue as 1.0 or 0.0 |
| Switch.SetSwitchNameChangesNothing | src/alpaca_simulators/api/switch.py:330-353 | setswitchname only runs the `in` test: it succeeds exactly when that finds the Id, otherwise raises 0x402 (or a TypeError when the table does not support `in`), and changes nothing |
| Switch.FreshSwitchReadsConfiguration | src/alpaca_simulators/api/switch.py:87-94 | a switch never written reads the value its configuration entry gives, or False/0.0 when the entry has none |
| Switch.Handle | src/alpaca_simulators/api/switch.py:19-431 | each switch endpoint follows the request pipeline with its decision |
| Telescope.NormalizeHours | src/alpaca_simulators/api/telescope.py:29-31 | a normalised hour angle lies in [0, 24) |
| Telescope.NormalizeHoursKeepsRange | src/alpaca_simulators/api/telescope.py:29-31 | an hour angle already in [0, 24) is kept |
| Telescope.NormalizeDegrees | src/alpaca_simulators/api/telescope.py:34-36 | clamping lies in [-90, 90], keeps values inside and sends values outside to the nearer end |
| Telescope.ConversionsAreInverse | src/alpaca_simulators/api/telescope.py:39-46 | hours to degrees and back (and the other way round) give the original value on the reals |
| Telescope.CheckCoordinates | src/alpaca_simulators/api/telescope.py:1252-1256 | the coordinate check passes exactly when 0 <= ra < 24 and -90 <= dec <= 90 |
| Telescope.CheckAltAz | src/alpaca_simulators/api/telescope.py:1185-1189 | the horizon check passes exactly when 0 <= alt <= 90 and 0 <= az < 360 |
| Telescope.Guarded | src/alpaca_simulators/api/telescope.py:1240-1269 | an action succeeds exactly when its check passes, and then writes its patch |
| Telescope.TargetCheck | src/alpaca_simulators/api/telescope.py:1339-1340 | slewing to the target is allowed exactly when both target coordinates are set |
| Telescope.PulseGuideDecision | src/alpaca_simulators/api/telescope.py:1089-1140 | a successful pulse writes the two coordinates and ispulseguiding, and nothing else |
| Telescope.AxisKey | src/alpaca_simulators/api/telescope.py:1050 | a key built from "axis" starts with "axis" |
| Telescope.MoveAxisDecision | src/alpaca_simulators/api/telescope.py:1030-1050 | moveaxis writes only the axis's own rate key |
| Telescope.ParkDecision | src/alpaca_simulators/api/telescope.py:1059-1080 | park always succeeds and answers no value |
| Telescope.SetParkDecision | src/alpaca_simulators/api/telescope.py:1149-1164 | setpark always succeeds and writes only the two park coordinates |
| Telescope.ReadDecision | src/alpaca_simulators/api/telescope.py:50-808 | a getter always succeeds and leaves the state exactly as it was; it answers the value stored under its key, or its own default when the key is absent |
| Telescope.SlewToTargetDecision | src/alpaca_simulators/api/telescope.py:1328-1356 | slewtotarget succeeds exactly when both target coordinates are set, and otherwise raises 0x402; on success the position is the target, slewing and atpark are false, and nothing else changes |
| Telescope.SlewToTargetAsyncDecision | src/alpaca_simulators/api/telescope.py:1359-1379 | slewtotargetasync succeeds exactly when both target coordinates are set, and otherwise raises 0x402; on success slewing is true, atpark is false, and the position and everything else are unchanged |
| Telescope.SyncToTargetDecision | src/alpaca_simulators/api/telescope.py:1440-1463 | synctotarget succeeds exactly when both target coordinates are set, and otherwise raises 0x402; on success the position is the target and nothing else changes |
| Telescope.WriteDecision | src/alpaca_simulators/api/telescope.py:431-799 | an accepted setter writes only the key its getter reads |
| Telescope.ApertureAreaDecision | src/alpaca_simulators/api/telescope.py:74-84 | aperturearea writes nothing and answers a non-negative float |
| Telescope.SiderealTimeDecision | src/alpaca_simulators/api/telescope.py:583-601 | siderealtime writes nothing and answers a float in [0, 24) |
| Telescope.QueryDecision | src/alpaca_simulators/api/telescope.py:938-1000 | the endpoints that only answer never write |
| Telescope.SetupDecision | src/alpaca_simulators/api/telescope.py:343-870 | the setters of non-position settings write only setting keys |
| Telescope.SettersCheckTheirIntervals | src/alpaca_simulators/api/telescope.py:431-799 | every numeric setter accepts exactly the values of its interval (guide rates, latitude, longitude, settle time, targets, elevation) |
| Telescope.WriteThenRead | src/alpaca_simulators/api/telescope.py:431-799 | a value outside the interval raises 0x402 and changes nothing; one inside it is read back by its getter, and nothing else changes |
| Telescope.SideOfPierArgument | src/alpaca_simulators/api/telescope.py:560-574 | a pier side is accepted exactly when it is -1, 0 or 1 |
| Telescope.TrackingRateArgument | src/alpaca_simulators/api/telescope.py:850-870 | a tracking rate is accepted exactly when it is 0 to 3 |
| Telescope.AxisArgument | src/alpaca_simulators/api/telescope.py:938-1050 | an axis outside 0 to 2 is refused with 0x402 by axisrates, canmoveaxis and moveaxis; one inside is accepted |
| Telescope.GuideDirectionArgument | src/alpaca_simulators/api/telescope.py:1100-1110 | a direction outside 0 to 3, or a negative duration, is refused with 0x402 |
| Telescope.SlewToCoordinatesArrives | src/alpaca_simulators/api/telescope.py:1240-1269 | slewtocoordinates accepts exactly the valid coordinates, then puts the mount and both targets there, not slewing and not parked; a refused slew changes nothing |
| Telescope.AsyncSlewsKeepPosition | src/alpaca_simulators/api/telescope.py:1209-1228 | the asynchronous slews set slewing and clear atpark, and leave every coordinate where it was |
| Telescope.FindHomeArrives | src/alpaca_simulators/api/telescope.py:1010-1021 | findhome goes to (0, 0), at home and not slewing |
| Telescope.UnparkClears | src/alpaca_simulators/api/telescope.py:1467-1474 | unpark clears atpark and changes nothing else |
| Telescope.OnlySetParkWritesParkPosition | src/alpaca_simulators/api/telescope.py:1149-1164 | no endpoint but setpark writes the park position |
| Telescope.SetupKeepsPark | src/alpaca_simulators/api/telescope.py:343-870 | no setter writes the park position |
| Telescope.MotionKeepsPark | src/alpaca_simulators/api/telescope.py:922-1474 | no action other than setpark writes the park position |
| Telescope.KeepsParkPosition | src/alpaca_simulators/api/telescope.py:922-1474 | the park position survives any sequence of commands without setpark |
| Telescope.SetParkMarks | src/alpaca_simulators/api/telescope.py:1149-1164 | setpark stores the current coordinates as the park position |
| Telescope.ParkMoves | src/alpaca_simulators/api/telescope.py:1059-1080 | park moves to the stored park position |
| Telescope.ParkReturnsToSetPark | src/alpaca_simulators/api/telescope.py:1059-1164 | setpark, then any commands other than setpark, then park: the mount is back at the coordinates it had at setpark, parked, neither slewing nor tracking |
| Telescope.SlewingOnlyClearedByClearingActions | src/alpaca_simulators/api/telescope.py:922-1474 | only the clearing actions set slewing False, and each of them does |
| Telescope.SetupNeverSlews | src/alpaca_simulators/api/telescope.py:343-870 | no setter touches slewing |
| Telescope.MotionSlewing | src/alpaca_simulators/api/telescope.py:922-1474 | of the actions, the clearing ones set slewing False and the others can only set it True |
| Telescope.SlewingPersists | src/alpaca_simulators/api/telescope.py:1360-1374 | once slewing, the mount stays slewing over any sequence of commands that has no clearing action; the asynchronous slews never finish on their own |
| Telescope.AbortSlewStops | src/alpaca_simulators/api/telescope.py:922-929 | abortslew clears slewing and changes nothing else |
| Telescope.PulseGuideNorthThenSouth | src/alpaca_simulators/api/telescope.py:1116-1120 | a north pulse then a south pulse of the same length restore the declination and keep the right ascension, and the mount is then not pulse guiding |
| Telescope.PulseGuideDispatch | src/alpaca_simulators/api/telescope.py:1089-1140 | the pulseguide endpoint decides by its own rule |
| Telescope.PulseGuideNorthSouth | src/alpaca_simulators/api/telescope.py:1116-1120 | a north or south pulse moves the declination by duration/1000 times the declination rate, keeps the right ascension and the rate, and ends not pulse guiding |
| Telescope.PulseGuideEastWest | src/alpaca_simulators/api/telescope.py:1121-1124 | an east or west pulse moves the right ascension by duration/1000 times the rate over 15 and keeps the declination |
| Telescope.FreshGuideRatesAreZero | src/alpaca_simulators/api/telescope.py:418-460 | a mount whose settings give no guide rate reads 0.0 for both rates from its state class, not the getters' default 15.0 |
| Telescope.ReadsStored | src/alpaca_simulators/api/telescope.py:50-808 | a getter answers what the state holds under its key |
| Telescope.FreshDefault | src/alpaca_simulators/state.py:177-208 | a state-class default that the settings do not override is where a fresh mount starts |
| Telescope.ZeroRateDoesNotGuide | src/alpaca_simulators/api/telescope.py:1116-1124 | with both guide rates 0, a pulse in any direction leaves both coordinates where they were |
| Telescope.Decide | src/alpaca_simulators/api/telescope.py:50-1474 | the queries change nothing, and the setup setters write only setup properties (rates, site, targets, tracking, refraction, pier side, axis motion), never the current coordinates |
| Telescope.Handle | src/alpaca_simulators/api/telescope.py:50-1474 | each telescope endpoint follows the request pipeline with its decision |
| Camera.Difference | src/alpaca_simulators/api/camera.py:1016 | `max - other` inside a message is defined exactly on two numbers and is their difference |
| Camera.RangeRefusal | src/alpaca_simulators/api/camera.py:1016 | a range refusal raises 0x402 when its message can be built, and a TypeError otherwise |
| Camera.SetBinDecision | src/alpaca_simulators/api/camera.py:406-443 | a bin below 1 is refused with 0x402; otherwise it is accepted exactly up to and including `maxbin` (default 8), a non-numeric limit raises a TypeError, and success writes only that axis's bin |
| Camera.SetReadoutModeDecision | src/alpaca_simulators/api/camera.py:474-484 | a negative mode is refused with 0x402; otherwise it is accepted exactly below the number of readout modes, and a `readoutmodes` setting without a length raises a TypeError |
| Camera.BoundedDecision | src/alpaca_simulators/api/camera.py:855-945 | gain and offset are accepted exactly between their two bounds, both included, the lower bound being checked first; a non-numeric bound raises |
| Camera.SetSizeDecision | src/alpaca_simulators/api/camera.py:1000-1057 | a size below 1 is refused; otherwise it is accepted exactly when start + size does not pass the sensor's edge |
| Camera.SetStartDecision | src/alpaca_simulators/api/camera.py:1077-1133 | a negative start is refused; otherwise it is accepted exactly when start + size does not pass the sensor's edge |
| Camera.PulseGuideDecision | src/alpaca_simulators/api/camera.py:1206-1238 | refused with 0x401 without `canpulseguide`; otherwise accepted exactly for a direction 0 to 3 and a non-negative duration, ending not pulse guiding |
| Camera.StartExposureDecision | src/alpaca_simulators/api/camera.py:233-266 | a camera that is not idle is refused with 0x40C (a KeyError without `camera_state`); then the duration must lie between `exposuremin` and `exposuremax`; the request itself writes nothing |
| Camera.AlpacaRaise | src/alpaca_simulators/api/camera.py:246-247 | an explicit AlpacaError carries its code |
| Camera.StopExposureDecision | src/alpaca_simulators/api/camera.py:305-318 | refused with 0x401 without `canstopexposure`; an exposing camera moves to reading and any other is left alone |
| Camera.Gated | src/alpaca_simulators/api/camera.py:771-1169 | a capability-gated setter is refused with 0x401 exactly when the capability is falsy, and otherwise writes its patch |
| Camera.WritesAreConfined | src/alpaca_simulators/api/camera.py:233-1289 | no endpoint writes outside its own keys, and the getters and startexposure write nothing |
| Camera.AxisKeysDiffer | src/alpaca_simulators/api/camera.py:395-1133 | keys of different axes or different prefixes differ |
| Camera.SubframeStaysOnSensor | src/alpaca_simulators/api/camera.py:1000-1133 | every accepted command keeps the subframe on the sensor, and numx/startx (and the y pair) can establish it |
| Camera.OtherWritesMissSubframe | src/alpaca_simulators/api/camera.py:233-1289 | only an axis's own subframe setters write its start or size |
| Camera.FreshDefault | src/alpaca_simulators/state.py:145-176 | a state-class default that the settings do not override is where a fresh camera starts |
| Camera.FreshStartTimeReadsNone | src/alpaca_simulators/api/camera.py:664-675 | a camera never exposed reports its last start time as the text "None" |
| Camera.FreshSubframeFits | src/alpaca_simulators/state.py:303-310 | a fresh camera's subframe lies on the sensor when the sensor size is a non-negative number and the subframe is not configured |
| Camera.FreshGeometry | src/alpaca_simulators/state.py:303-310 | a fresh camera's subframe starts at 0 and spans the sensor |
| Camera.FreshAxisX | src/alpaca_simulators/state.py:145-176 | a fresh camera's horizontal start is 0 and its width is the configured sensor width, else 1024 |
| Camera.FreshAxisY | src/alpaca_simulators/state.py:145-176 | a fresh camera's vertical start is 0 and its height is the configured sensor height, else 1024 |
| Camera.BinWriteThenRead | src/alpaca_simulators/api/camera.py:406-443 | an accepted bin is read back and the other axis keeps its bin |
| Camera.SizeWriteThenRead | src/alpaca_simulators/api/camera.py:1000-1057 | an accepted size is read back and the other axis keeps its size |
| Camera.StartWriteThenRead | src/alpaca_simulators/api/camera.py:1077-1133 | an accepted start is read back and the other axis keeps its start |
| Camera.TemperatureSetterSetsBoth | src/alpaca_simulators/api/camera.py:771-788 | setccdtemperature sets the target and the sensor temperature together, and the heat sink then reads 5 degrees above |
| Camera.ImageArrayDecision | src/alpaca_simulators/api/camera.py:200-223 | imagearray raises 0x40D exactly when no image is stored; otherwise the camera goes idle and the image is kept |
| Camera.DownloadsRepeat | src/alpaca_simulators/api/camera.py:207-223 | a download does not consume the image: a second one succeeds with the same image and dimensions |
| Camera.AbortForcesIdle | src/alpaca_simulators/api/camera.py:275-296 | abortexposure forces idle from any state: no image is ready, a download is refused with 0x40D, and a new exposure is no longer refused as busy |
| Camera.StopOnlyFromExposing | src/alpaca_simulators/api/camera.py:305-318 | stopexposure moves an exposing camera to reading and leaves any other camera as it was |
| Camera.Decide | src/alpaca_simulators/api/camera.py:178-1289 | every setting, property, size and start-time read answers a value and writes nothing; no reply with a value changes the state |
| Camera.Handle | src/alpaca_simulators/api/camera.py:178-1289 | each camera endpoint follows the request pipeline with its decision; exactly an accepted startexposure on a configured camera schedules a task, with the request's number, duration and light flag |
| Camera.HandleImageArray | src/alpaca_simulators/api/camera.py:200-229 | imagearray: an unconfigured camera gets 0x400, a missing image gets 0x40D through the exception handler, and otherwise the camera goes idle and the stored image is streamed |
| Camera.Download | src/alpaca_simulators/api/camera.py:211-229 | a successful download merges the download patch and streams the frame of the stored image with the stored dimensions |
| Exposure.ProgressIsTenths | src/alpaca_simulators/api/camera.py:73-77 | the progress written after step i is 10 (i + 1) percent |
| Exposure.ProgressedShows | src/alpaca_simulators/api/camera.py:59-77 | while exposing, the camera reports exposing, no image ready, the duration, light flag and start time, and its progress |
| Exposure.BeginIsProgressedZero | src/alpaca_simulators/api/camera.py:59-70 | the first write shows the exposure at 0 percent |
| Exposure.Seeing | src/alpaca_simulators/api/camera.py:89-92 | the seeing multiplier lies in [1, 5], is 1 exactly at focuser position 10000, and grows by 1 every 100 steps away from it until capped |
| Exposure.ClampDec | src/alpaca_simulators/api/camera.py:97-99 | the declination given to the synthesiser lies strictly between the poles: kept when inside, 89.99 or -89.99 at or beyond them; a non-number raises |
| Exposure.ClampRa | src/alpaca_simulators/api/camera.py:101-102 | the right ascension lies strictly inside (0, 24): kept when inside, 0.01 or 23.99 at or beyond the ends; a non-number raises |
| Exposure.SynthesisInputs | src/alpaca_simulators/api/camera.py:84-147 | the synthesiser's inputs carry the clamped pointing, the seeing, the camera's numx/numy, the duration and the light flag; a non-numeric focuser position makes the exposure task fail |
| Exposure.SynthesisReadsCameraInputs | src/alpaca_simulators/api/camera.py:105-115 | the synthesiser's inputs depend on the camera state only through the properties read at readout |
| Exposure.Cached | src/alpaca_simulators/api/camera.py:137-148 | a stored picture is reused without synthesis; otherwise the new picture is stored under the key, and a failure stores nothing |
| Exposure.MakeCacheKey | src/alpaca_simulators/api/camera.py:33-34 | the cache key holds the pointing, duration, light flag and focuser position, and nothing else |
| Exposure.SynthesizeAsWritten | src/alpaca_simulators/api/camera.py:104-148 | the written step never forgets a cached picture |
| Exposure.Synthesize | src/alpaca_simulators/api/camera.py:104-148 | the corrected step never forgets a cached picture, and an input that raises makes it fail without touching the cache |
| Exposure.Picture | src/alpaca_simulators/api/camera.py:136-148 | failed inputs or model objects that refuse them produce no picture and leave the cache as it was |
| Exposure.CachedImagesHaveRequestedSize | src/alpaca_simulators/api/camera.py:136-148 | with the full key, an exposure's picture always has the size the camera asked for, and the cache keeps that property |
| Exposure.BlankIsShaped | src/alpaca_simulators/api/camera.py:141-147 | a synthesiser that honours the requested size exists, so the size property is not vacuous |
| Exposure.AsWrittenReusesWrongSize | src/alpaca_simulators/api/camera.py:33-34 | with the written key, a 1 x 1 exposure at the pointing of an earlier 2 x 1 one gets the 2 x 1 picture |
| Exposure.ImageCache.constructor | src/alpaca_simulators/api/camera.py:30 | the cache starts empty |
| Exposure.ImageCache.Lookup | src/alpaca_simulators/api/camera.py:138-139 | a lookup returns the stored picture exactly when the key is present |
| Exposure.ImageCache.Insert | src/alpaca_simulators/api/camera.py:148 | an insertion stores the picture under the key and keeps every other entry |
| Exposure.Begin | src/alpaca_simulators/api/camera.py:59-70 | the first write merges the begin patch into the camera and changes no other device |
| Exposure.ReportProgress | src/alpaca_simulators/api/camera.py:77 | a progress step merges its percentage and changes no other device |
| Exposure.StartReadout | src/alpaca_simulators/api/camera.py:80 | the readout step sets the camera to reading and changes no other device |
| Exposure.Complete | src/alpaca_simulators/api/camera.py:84-172 | the last step reads the camera, telescope 0 and focuser 0, takes the picture through the cache, and records it or the error |
| Exposure.Obtain | src/alpaca_simulators/api/camera.py:136-148 | the picture through the in-place cache is the picture the cache function gives, and the cache becomes its new contents |
| Exposure.ProgressStep | src/alpaca_simulators/api/camera.py:73-77 | each progress step moves the state from k·10 to (k+1)·10 percent |
| Exposure.ProgressTrace | src/alpaca_simulators/api/camera.py:73-77 | the trace of the progress phase has one state per step, each the expected progressed state |
| Exposure.ReportAllProgress | src/alpaca_simulators/api/camera.py:73-77 | the ten progress steps show 10, 20, ..., 100 percent in turn and touch no other device |
| Exposure.RunExposure | src/alpaca_simulators/api/camera.py:55-172 | an uninterrupted task shows exposing at 0 percent, then 10 to 100 percent, then reading, then its outcome; no other device changes |
| ImageBytes.U32 | src/alpaca_simulators/api/camera.py:38-48 | `to_bytes(4, "little")` gives four octets |
| ImageBytes.U32RoundTrip | src/alpaca_simulators/api/camera.py:38-48 | reading a written 32-bit field back gives the number written |
| ImageBytes.ReadU32Prefix | src/alpaca_simulators/api/camera.py:38-48 | a field reads the same once more octets follow it |
| ImageBytes.AppendField | src/alpaca_simulators/api/camera.py:38-48 | appending a field encodes one more number and keeps every earlier field |
| ImageBytes.DataStartIsHeaderLength | src/alpaca_simulators/api/camera.py:42 | the data-start field (44) is exactly the header's length in octets, so the pixels begin where the header says |
| ImageBytes.HeaderBytes | src/alpaca_simulators/api/camera.py:38-48 | the eleven header fields decode, one by one, to version 1, error 0, ids 0, data start 44, element types 2 and 8, rank 2 and the dimensions |
| ImageBytes.Column | src/alpaca_simulators/api/camera.py:50 | a column has one pixel per row, the row's pixel at that column |
| ImageBytes.Transposed | src/alpaca_simulators/api/camera.py:50 | the transposed pixels number width × height |
| ImageBytes.TransposedAt | src/alpaca_simulators/api/camera.py:50 | pixel order is column-major: column x, row y sits at x · height + y |
| ImageBytes.GridOf | src/alpaca_simulators/api/camera.py:50 | a stored image value is read as a picture whose rows all have the same length |
| ImageBytes.RowOf | src/alpaca_simulators/api/camera.py:50 | a stored row is read as a sequence as long as the list |
| ImageBytes.GridRoundTrip | src/alpaca_simulators/api/camera.py:151-160 | a rectangular picture stored by the exposure task is read back as the same picture |
| ImageBytes.Frame | src/alpaca_simulators/api/camera.py:37-52 | the streamed body exists exactly when the image is a picture and both dimensions convert to unsigned 32-bit numbers, and it is the header followed by the transposed pixels |
| ImageBytes.FrameMatchesPicture | src/alpaca_simulators/api/camera.py:37-52 | a picture sent with its own dimensions gives a header recording those dimensions, a body whose pixel count matches the header, and whose pixel at column x, row y is that of the picture |
| Interleaving.Overwritten | src/alpaca_simulators/api/camera.py:73-172 | two states that differ only on keys that later writes all set end up equal |
| Interleaving.LostWrite | src/alpaca_simulators/api/camera.py:73-172 | a write is lost when later writes set all of its keys |
| Interleaving.RestWrites | src/alpaca_simulators/api/camera.py:73-172 | the exposure task's remaining writes always set the camera state, image_ready and image_data, and the progress unless only a failing outcome is left |
| Interleaving.RestFrom | src/alpaca_simulators/api/camera.py:73-172 | the remaining writes, from any progress step, end at the read-out state with the outcome applied |
| Interleaving.RestCompletes | src/alpaca_simulators/api/camera.py:73-172 | resuming from any progress step ends where the uninterrupted task ends |
| Interleaving.AbortWriteIsLost | src/alpaca_simulators/api/camera.py:287-296 | an abort served while the exposure task still reports progress, or before it succeeds, is entirely overwritten by the rest of the exposure task |
| Interleaving.SetCommutes | src/alpaca_simulators/api/camera.py:164-171 | setting a key a later write does not touch commutes with that write |
| Interleaving.RestAtEnd | src/alpaca_simulators/api/camera.py:80-172 | after the last progress step only the readout and the outcome writes remain |
| Interleaving.AbortSplits | src/alpaca_simulators/api/camera.py:275-296 | an abort is a progress reset followed by the error write's other keys with the camera idle |
| Interleaving.AbortBeforeFailure | src/alpaca_simulators/api/camera.py:164-171 | an abort after the last progress step of a failing exposure leaves only its progress reset |
| Interleaving.TaskStatesAreBusy | src/alpaca_simulators/api/camera.py:59-80 | while the exposure task runs the camera is exposing, then reading |
| Interleaving.BusyCameraRefusesStart | src/alpaca_simulators/api/camera.py:246-247 | a second startexposure during the exposure task is refused with 0x40C |
| Interleaving.BusyRefusesStart | src/alpaca_simulators/api/camera.py:246-247 | a camera in any state other than idle refuses startexposure with 0x40C |
| Interleaving.AbortIsUndone | src/alpaca_simulators/api/camera.py:275-296 | an abort served during the exposure task is undone by the rest of the exposure task when the exposure succeeds or progress is still to come |
| Interleaving.StopIsUndone | src/alpaca_simulators/api/camera.py:305-318 | a stop served during the exposure task only shows reading early; the exposure task ends exactly as it would have |
| Interleaving.FailedExposureNeedsAbort | src/alpaca_simulators/api/camera.py:164-171 | after a failed exposure every new start is refused with 0x40C and a download with 0x40D, until an abort |
| Interleaving.ExposureIsDownloadable | src/alpaca_simulators/api/camera.py:151-160 | after a successful exposure the picture is stored, a download succeeds, and the subframe dimensions are kept |
| Interleaving.AbortKeepsSynthesisInputs | src/alpaca_simulators/api/camera.py:84-128 | an abort does not change what the synthesiser is given |
| Interleaving.AbortKeepsKey | src/alpaca_simulators/api/camera.py:275-296 | a property the abort does not write reads the same after it |
| Discovery.Kept | src/alpaca_simulators/endpoint_discovery.py:45-51 | the reported parameters are the handler's parameters other than device_number and ClientTransactionID |
| Discovery.Placements | src/alpaca_simulators/endpoint_discovery.py:20-68 | each route contributes the entry its path and handler determine |
| Discovery.DiscoveredStep | src/alpaca_simulators/endpoint_discovery.py:20-68 | discovering one route more is one loop step more |
| Discovery.KeepParams | src/alpaca_simulators/endpoint_discovery.py:45-51 | the filtering loop keeps exactly the non-bookkeeping parameters, in their order |
| Discovery.Discover | src/alpaca_simulators/endpoint_discovery.py:11-70 | the discovery loop computes the grouping of the routes |
| Discovery.RecordRoute | src/alpaca_simulators/endpoint_discovery.py:20-68 | one loop iteration adds the route's entry, if any, to the groups |
| Discovery.PlaceRoute | src/alpaca_simulators/endpoint_discovery.py:21-51 | a route is placed by its device-type segment, its last path piece and its kept parameters |
| Discovery.AddByMethod | src/alpaca_simulators/endpoint_discovery.py:62-64 | the property is appended to the GET list exactly when the methods include GET, and likewise PUT; info is untouched |
| Discovery.GroupingKeys | src/alpaca_simulators/endpoint_discovery.py:53-59 | a device type is in the grouping exactly when some entry is under it |
| Discovery.GroupingListing | src/alpaca_simulators/endpoint_discovery.py:62-64 | a name is in a GET or PUT list exactly when some entry lists it with that method |
| Discovery.GroupingInfoKeys | src/alpaca_simulators/endpoint_discovery.py:66-68 | a property has info exactly when some entry names it |
| Discovery.GroupingLastInfo | src/alpaca_simulators/endpoint_discovery.py:66-68 | a property's info is that of the last entry naming it |
| Discovery.Discovered | src/alpaca_simulators/endpoint_discovery.py:20-68 | a device type has a group exactly when some route contributes an endpoint to it |
| Discovery.DiscoveredKeys | src/alpaca_simulators/endpoint_discovery.py:33-59 | a device type is discovered exactly when some route is grouped under it |
| Discovery.DiscoveredListing | src/alpaca_simulators/endpoint_discovery.py:62-64 | a name is in a device type's GET (PUT) list exactly when some route grouped under that type with that name has GET (PUT) |
| Discovery.DiscoveredInfoKeys | src/alpaca_simulators/endpoint_discovery.py:66-68 | a name has info exactly when some route grouped under the type names that property |
| Discovery.InfoFromLastRoute | src/alpaca_simulators/endpoint_discovery.py:66-68 | a property's info comes from the last route that names it |
| Discovery.InfoShape | src/alpaca_simulators/endpoint_discovery.py:45-68 | every info entry is either the bool placeholder or a nonempty list of non-bookkeeping parameters |
| Discovery.NoDeviceNumberProperty | src/alpaca_simulators/endpoint_discovery.py:41-43 | no discovered property is the device number itself |
| Discovery.DevicePathPlaced | src/alpaca_simulators/endpoint_discovery.py:33-43 | a route /api/v1/<type>/{device_number}/<name> is grouped under its type with its name |
| Discovery.Without | src/alpaca_simulators/endpoint_discovery.py:86 | the set difference keeps exactly the names of the first list that are not in the second |
| Discovery.ActionEndpoints | src/alpaca_simulators/endpoint_discovery.py:73-88 | the actions of a discovered type are its PUT names without a GET, each once, ascending; an undiscovered type has none |
| Discovery.ActionsAreTheSortedListing | src/alpaca_simulators/endpoint_discovery.py:82-88 | there is one ascending duplicate-free listing of those names, and the action list is it |
| Discovery.DiscoveredActions | src/alpaca_simulators/endpoint_discovery.py:73-88 | over discovered routes, an action is a property some route accepts PUT for and no route serves GET for |
| Sorting.SortedUnique | src/alpaca_simulators/endpoint_discovery.py:88 | `sorted(set(xs))` is strictly ascending and holds exactly the elements of xs |
| Sorting.SortedListingIsUnique | src/alpaca_simulators/endpoint_discovery.py:88 | two strictly ascending listings of the same elements are equal |
| Sorting.Insert | src/alpaca_simulators/endpoint_discovery.py:88 | insertion keeps a listing strictly ascending and adds exactly the new element |
| Sorting.BelowTotal | src/alpaca_simulators/endpoint_discovery.py:88 | any two different strings are ordered one way or the other by Python's `<` |
| Sorting.BelowTransitive | src/alpaca_simulators/endpoint_discovery.py:88 | Python's string `<` is transitive |
| SpecPaths.DeviceTypeFromPath | parse_spec.py:8-31 | a path's type is never empty and holds no slash |
| SpecPaths.UnrootedIsUnknown | parse_spec.py:13-14 | a path not starting with "/" is of unknown type |
| SpecPaths.ShortPathsAreUnknown | parse_spec.py:27-31 | a path of one segment, or none, is of unknown type |
| SpecPaths.FirstSegmentDecides | parse_spec.py:16-29 | a path /<first>/<rest> with a real rest is management, common for the {device_type} template, or its first segment |
| SpecPaths.Entries | parse_spec.py:55-59 | a path item gives one endpoint per operation |
| SpecPaths.Select | parse_spec.py:52-59 | the endpoints of one type are exactly the endpoints with that type |
| SpecPaths.GroupAll | parse_spec.py:50-59 | no device type is given an empty list |
| SpecPaths.GroupAllAppend | parse_spec.py:50-59 | grouping a longer list is grouping its front, then adding the rest |
| SpecPaths.AnalyzeApiSpec | parse_spec.py:45-59 | no paths give nothing; otherwise every operation is listed under its path's type in encounter order |
| SpecPaths.ListOperations | parse_spec.py:55-59 | the inner loop appends each operation of a path item under the path's type, with its method upper-cased and its summary or "No summary provided." |
| SpecPaths.GroupsAreSelections | parse_spec.py:50-59 | each type's list is exactly its endpoints in encounter order, and a type has a list only when it has endpoints |
| SpecPaths.EachEndpointInOneGroup | parse_spec.py:52-59 | every endpoint is listed under its own type and under no other |
| Completeness.NormalizePath | analyze_completeness.py:53-62 | a path under the device's own prefix comes out under the `{device_type}` prefix; any other path comes out without `{device_number}` |
| Completeness.ReplaceClearsDeviceNumber | analyze_completeness.py:56 | after the rewrite no {device_number} is left |
| Completeness.OtherPathsLoseDeviceNumber | analyze_completeness.py:53-62 | a path outside the device's own prefix comes out without {device_number} |
| Completeness.OtherPathsWithoutNumberUnchanged | analyze_completeness.py:53-62 | a path outside the prefix and without {device_number} is left as it is |
| Completeness.DevicePathsGetTypePlaceholder | analyze_completeness.py:59-60 | a path /<type>/<rest> becomes /{device_type}/<rest>, its {device_number} kept as written |
| Completeness.NormalizedAtMost | analyze_completeness.py:89-98 | deduplicating normalised pairs leaves at most as many as the list has entries |
| Completeness.AsSetAtMost | analyze_completeness.py:156-163 | deduplicating pairs leaves at most as many as the list has entries |
| Completeness.NormalizeAll | analyze_completeness.py:89-98 | the normalising loops compute the set of normalised pairs |
| Completeness.CollectAll | analyze_completeness.py:156-163 | the collecting loops compute the set of pairs |
| Completeness.MissingAndExtra | analyze_completeness.py:101-102 | missing and extra pairs never overlap; every missing pair was expected and every extra one implemented |
| Completeness.FoundCount | analyze_completeness.py:116-120 | the expected pairs less the missing ones are exactly those implemented |
| Completeness.RateBounds | analyze_completeness.py:116-120 | the completion rate is between 0 and 100, 100 exactly when nothing is missing and something is expected |
| Completeness.CompletionRate | analyze_completeness.py:116-120 | the rate is 0 with nothing expected; when the missing pairs are among the expected ones it lies in [0, 100] and is 100 exactly when nothing is missing |
| Completeness.Report | analyze_completeness.py:103-129 | the report counts the listed endpoints as written, never counts more missing pairs than expected, gives a rate in [0, 100] that is 100 exactly when every expected pair is implemented, and 0 when none is |
| Completeness.ShareBounds | analyze_completeness.py:116-120 | a share of a positive whole lies in [0, 1] and is 1 exactly for the whole |
| Completeness.AnalyzeDevice | analyze_completeness.py:65-129 | a missing description or implementation gives nothing; otherwise the counts over the normalised pairs |
| Completeness.AnalyzeCommon | analyze_completeness.py:132-191 | the same comparison over the pairs as written |
| Completeness.DeviceMissingAtMostExpected | analyze_completeness.py:101-129 | a device report never counts more missing pairs than the description lists endpoints, and its rate is a percentage |
| Completeness.Summarize | analyze_completeness.py:230-247 | the summary totals the device reports and prints the overall figure exactly when there is a report |
| Completeness.OverallAsWritten | analyze_completeness.py:244-247 | the overall figure as written is 0 with nothing expected, never negative, and above 100 whenever more endpoints are implemented than expected |
| Completeness.OverallCompletion | analyze_completeness.py:244-247 | the corrected overall figure is 0 with nothing expected, lies in [0, 100] when no more are missing than expected, and is then 100 exactly when nothing is missing |
| Completeness.OverallCanExceedFull | analyze_completeness.py:244-247 | as written, one device with one expected endpoint and two implemented ones reports 200% |
| Completeness.TotalMissingAtMostExpected | analyze_completeness.py:230-242 | the total missing count is at most the total expected count |
| Completeness.OverallCompletionBounded | analyze_completeness.py:244-247 | the corrected overall figure, expected endpoints not missing over expected, is a percentage |
| Collections.KeyList | src/alpaca_simulators/state.py:379 | `list(m.keys())` holds every key exactly once |
| Text.Lower | src/alpaca_simulators/api/common.py:118 | `str.lower()` maps every character on its own and keeps the length |
| Text.Title | src/observatory_simulator/main.py:239 | `str.title()` lower-cases a letter after a letter and upper-cases every other letter |
| Text.TitleIdempotent | src/observatory_simulator/main.py:239 | title-casing a title-cased string changes nothing |
| Text.ParseInt | src/alpaca_simulators/main.py:54-58 | `int()` of empty or all-whitespace text raises, and text without a minus sign gives a non-negative number |
| Text.SurroundingSpaceIgnored | src/alpaca_simulators/main.py:54-58 | whitespace before and after the literal does not change what `int()` reads |
| Text.UnsignedLiteral | src/alpaca_simulators/main.py:54-58 | digits with single underscores between them read as the number their digits spell |
| Text.UnderscoreBetweenDigits | src/alpaca_simulators/main.py:54-58 | an underscore between two digit runs is ignored: "1_0" reads as 10 |
| Text.IntToString | src/alpaca_simulators/api/switch.py:40 | `str(i)` is never empty and starts with "-" exactly for negative numbers |
| Text.IntToStringRoundTrip | src/alpaca_simulators/main.py:54-58 | `int(str(i)) == i` |
| Text.IntToStringInjective | src/alpaca_simulators/api/switch.py:40 | distinct switch Ids have distinct keys |
| Text.Split | src/alpaca_simulators/endpoint_discovery.py:33-37 | `split` gives at least one piece, none holding the separator |
| Text.JoinSplit | src/alpaca_simulators/endpoint_discovery.py:33-37 | joining the pieces of a split gives the string back |
| Text.SplitJoin | src/alpaca_simulators/endpoint_discovery.py:33-37 | splitting the join of separator-free pieces gives the pieces back |
| Text.SplitLength | src/alpaca_simulators/endpoint_discovery.py:33-37 | a split has one piece more than the string has separators |
| Text.Strip | parse_spec.py:16 | `strip` leaves no separator at either end; what remains is one slice of the string, and everything cut off before and after it is the separator |
| Text.LStrip | parse_spec.py:16 | the left strip is a suffix of the string that does not start with the separator, and everything it cuts off is the separator |
| Text.RStrip | parse_spec.py:16 | the right strip is a prefix of the string that does not end with the separator, and everything it cuts off is the separator |
| Text.Join | src/alpaca_simulators/endpoint_discovery.py:33-37 | the join starts with the first piece and, when no piece holds the separator, has one separator fewer than there are pieces |
| Text.Replace | analyze_completeness.py:56 | a string without the pattern, or a rewrite of a pattern by itself, is left as it is |
| Text.ReplaceAbsent | analyze_completeness.py:56 | a string without the pattern is left as it is |
| Text.ReplaceLeading | analyze_completeness.py:56 | a leading occurrence is rewritten and the replacement goes on after it |

## Left out

- HTTP plumbing: FastAPI routing and its request validation (the router's 404 for an unknown route and the validation error's 422 leave through FastAPI's own handlers, which this application does not replace), CORS, and the `StreamingResponse` object. A request is its `ClientTransactionID` and its query string; a reply is its status and body.
- `get_form_data` (src/alpaca_simulators/api/common.py:38-72): form parsing is framework work; each endpoint receives its arguments already typed.
- The informational management endpoints `root`, `test_interface`, `api_info`, `get_discovered_endpoints` and `get_management_description` (src/alpaca_simulators/main.py:145-228): they return fixed text or call discovery, which is modelled on its own.
- `reload_config_state` (src/alpaca_simulators/main.py:174): it only calls the store's reload, which `State.Store.ReloadConfig` models.
- `get_configured_devices` in src/alpaca_simulators/main.py:230-248: it imports a name the module does not define, so that copy always fails; the observatory copy is modelled instead.
- run_simulator.py is not part of this model: it only starts the server.
- The image synthesiser (the `cabaret` package) is a function parameter. The model keeps its inputs and the size of what it returns. It does not model the star field. Whether its model objects accept their arguments is a predicate parameter.
- `tobytes` of the NumPy array writes each pixel in the array's own element width. The model keeps each pixel as an integer and checks the header and the pixel order, not the pixel octets.
- Concurrency: asyncio tasks, sleeps and the lack of locking. Requests served while the exposure task runs are stated as interleavings between its writes (`Interleaving`). A scheduler is not modelled.
- The `AlpacaError` that `exposure_task` raises at src/alpaca_simulators/api/camera.py:173 reaches no client, since the exposure task runs in the background. Only its state update is modelled.
- Clock readings (`datetime.now`, the sidereal-time clock, the exposure start timestamp) are parameters.
- Floating point: floats are reals. Rounding, overflow to infinity and `repr` formatting are not modelled. A float inside an error message is shown by a placeholder.
- YAML parsing and file reading: the configuration directory is a map from file names to parsed documents, and the empty-file case is its `None` document.
- The regular-expression scanners `extract_endpoints_from_api_doc` and `extract_endpoints_from_python_file` (analyze_completeness.py:6-50) are not modelled: their results are inputs. Their printing is left out too.
- parse_spec.py:60-78 writes per-type text files and prints; the model stops at the grouping written to them.
- `inspect.signature`: a route's handler parameters (name and type annotation name) are part of the route value.
- Dictionary iteration order: `get_all_configured_devices` and `configureddevices` are stated as duplicate-free listings whose order is not fixed.
- Text: case mapping, `str.title()` and digit tests are over ASCII only.
- Switch.Write: the source updates the state's `switches` table in place through a shallow copy of the state. The model merges a new table, so it does not model aliasing between the returned state map and the store.
- Telescope.PulseGuideDecision and Camera.PulseGuideDecision: the source writes `ispulseguiding` True and then False within one request. The model gives only the final state, since no other request can observe the intermediate write.
- Telescope.Decide: `slewtocoordinatesasync` (src/alpaca_simulators/api/telescope.py:1297-1318) writes the coordinates with slewing True and `last_slew_time`, sleeps 3 seconds, then writes the coordinates again with slewing False. The model gives only the final state, so the 3-second window in which other requests see slewing True, and in which their coordinate writes are overwritten by the second write, is not modelled.
- Telescope.Handle: runs Telescope.Decide, so it has the same single final state for `slewtocoordinatesasync`.
- Switch.Decide: `getswitchvalue` (src/alpaca_simulators/api/switch.py:162-167) answers `float(value)`. The model converts only booleans, integers and floats; a string such as "0.5", which Python's `float()` accepts, is refused here with a TypeError instead of answered as 0.5.
- Switch.Handle: runs Switch.Decide, so it has the same gap for string switch values.
- Response models: pydantic validates the fields of each reply model when a handler builds it. A configured value of the wrong type, such as a `maxstep` of 1000.5 put in an `IntResponse` (src/alpaca_simulators/api/focuser.py:50-58), fails that validation and leaves as a status 500 "Internal server error" reply. The model does not validate reply fields; the decided value goes into the reply as it is.
- Logging: the `logging.debug` calls in src/alpaca_simulators/api/common.py and src/alpaca_simulators/api/safetymonitor.py are not modelled; they write no reply and no state.
- Telescope.AxisArgument: the rates `axisrates` returns are a fixed table the model does not state.
- Dome.Decide: `park` moves to the azimuth `setpark` recorded (the corrected half of the dome finding), not to the `parkazimuth` setting or 0 as written; the written behaviour is `Dome.ParkAsWritten`.
- Dome.Handle: runs `Dome.Decide`, so its `park` is the corrected one too.
- Exposure.Complete: the image cache is keyed by all the synthesiser inputs (the corrected half of the camera cache finding), not by `make_cache_key`'s five fields as written; the written key is `Exposure.MakeCacheKey`, used by `Exposure.SynthesizeAsWritten`.
- Exposure.Obtain: uses the same corrected cache key as Exposure.Complete.
- Exposure.RunExposure: runs Exposure.Complete, so it uses the corrected cache key too.
- Envelope.FailureReply: the text after "Internal server error: " is a placeholder naming the exception's class, not Python's `str(exc)`.
- SpecPaths.Entries: every key of a path item is taken as an operation; the non-operation keys `parameters` and `servers`, whose lists `.get` would fail on, are not modelled, and an operation whose `summary` is explicitly null gets "No summary provided." here where Python keeps None.
- Exposure.Complete: the gaia query timeout is read from a second, separate `Config().load()` and is a parameter here.

## Findings

| source | as written | input that shows it | evidently intended | confidence | as-written member | corrected member |
|---|---|---|---|---|---|---|
| src/alpaca_simulators/api/dome.py:283-290 | `park` moves to the `parkazimuth` setting (default 0) and ignores the park position `setpark` stores | no `parkazimuth` setting, azimuth 90, `setpark`, then `park`: the dome goes to 0 | `park` returns to the azimuth `setpark` recorded | not executed | Dome.ParkAsWrittenIgnoresSetPark | Dome.ParkReturnsToSetPark |
| src/alpaca_simulators/api/camera.py:33-34 | the image cache key is pointing, duration, light flag and focuser position only, so a stored picture is reused after the subframe or other camera settings change | a 2 x 1 exposure, then `numx` set to 1, then the same exposure: the 1 x 1 request gets the 2 x 1 picture | a cached picture is reused only for the same synthesiser inputs | not executed | Exposure.AsWrittenReusesWrongSize | Exposure.CachedImagesHaveRequestedSize |
| analyze_completeness.py:244-247 | the overall figure is implemented / expected, which passes 100% when a device declares extra endpoints | one device: one expected endpoint, that one and another implemented: 200% | the share of expected endpoints that are implemented, as each device's own rate computes it | not executed | Completeness.OverallCanExceedFull | Completeness.OverallCompletionBounded |
