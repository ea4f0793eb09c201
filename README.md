# Innova fan-coil driver: a Dafny model

This project models the two pieces of logic in the hub driver for an Innova fan-coil
appliance.

The first is the device session (`drivers/fancoil/device.ts`). It polls the appliance's
status record over its local HTTP API and decodes it into the hub's capabilities:
power, scheduling, setpoint, the three temperatures, mode, fan speed and the alarm.
It turns each capability change into a POST command. When the appliance accepts it, the
mode, fan-speed and setpoint handlers mirror the new value into `fancoil_mode_state`,
`fan_speed_state` and `measure_temperature.target`; the power and scheduling handlers
mirror nothing. It also keeps a single recurring refresh timer.

The second is the pairing filter (`drivers/fancoil/driver.ts`). It turns the discovery
API's reply into the list of devices offered to the user, and it fails with one fixed
message when there are none.

Modules:

- `Wrappers` (wrappers.dfy): `Option` and `Result`.
- `FancoilStatus` (status.dfy): the status decoder. It holds the mode and fan-speed
  tables, the code tables they invert, tenths of a degree as `real`, the projection of a
  record onto the capability store, and the alarm title with its `join(', ')`.
- `FancoilCommands` (commands.dfy): the command encoder. It holds the routes, bodies and
  URIs, the appliance's route table read backwards, the reply kinds and the handlers'
  errors.
- `FancoilDevice` (device.dfy): `class Fancoil`. The class holds the capability store
  (`caps`, keyed by the `Capability` datatype whose `Id()` is the hub identifier), the
  alarm title, the `refreshInterval` handle and the runtime's live timers. Its methods are
  the poll, the timer discipline, `sendCommand`, the five capability listeners and the two
  flow actions. The flow conditions are predicates over the store.
- `FancoilDriver` (driver.dfy): `apiCall`, `discoverDevices` and `list_devices` as pure
  functions.

Effects are replaced by values:

- Every HTTP exchange is an input describing how it ended: `StatusFetch`, `HttpReply` or
  `FetchOutcome`. Whether the development toggle (`DEBUG=1`) is on is a constructor
  argument, `debug`.
- Each method returns the request it would issue (URI and body), or `None` when the
  toggle is on and nothing is sent.
- A thrown error is a `HandlerError` out-parameter or a `Failure`.

Three facts about the code that the model keeps:

- The poll projects the record whatever the reply's `success` flag says (device.ts:221-224).
- Pairing has no manual IP entry, no verification call and no duplicate detection; it only
  filters the discovery reply (driver.ts:5-49).
- A "disconnected" event only calls `setUnavailable` (device.ts:26-28). It does not change the timer.

## Model

| member | source | states |
|---|---|---|
| `FancoilStatus.GetFancoilMode` | drivers/fancoil/device.ts:271-276 | for every integer, the mode is `cool` exactly when the code is 5, and `heat` otherwise |
| `FancoilStatus.GetFanSpeed` | drivers/fancoil/device.ts:278-289 | for every integer: `night` iff 2, `min` iff 3, `max` iff 4, `auto` iff the code is outside 2..4 (1 included) |
| `FancoilStatus.CodesRoundTrip` | drivers/fancoil/device.ts:271-289 | decoding gives back each mode and speed from the code the appliance reports for it (3 heating, 5 cooling; 1..4 auto..max); the driver has no table of these codes, and 3 and 1 appear only in the canned record at device.ts:294-295 |
| `FancoilStatus.Projection` | drivers/fancoil/device.ts:234-250 | a record gives a value to every capability the session writes, and each value agrees with its mirror (`.target`, `.current`, `_state`) |
| `FancoilStatus.Projected` | drivers/fancoil/device.ts:234-250 | the store after a poll holds the record's value for every written capability and keeps every other stored value |
| `FancoilStatus.ProjectedTitle` | drivers/fancoil/device.ts:251-257 | the alarm title is rewritten from the codes when an alarm is active, and kept otherwise |
| `FancoilStatus.ProjectionMeaning` | drivers/fancoil/device.ts:234-250 | after a poll: `onoff` iff `ps == 1`; scheduling iff `cm == 1`; each temperature times 10 is its raw field; mode and fan decoded; alarm iff `a` is non-empty; every value agrees with its mirror (`.target`, `.current`, `_state`) |
| `FancoilStatus.ProjectionIdempotent` | drivers/fancoil/device.ts:234-258 | projecting the same record twice gives the same store and title as projecting it once |
| `FancoilStatus.Join` | drivers/fancoil/device.ts:254 | `join` of no codes is empty, and the joined text ends exactly where the last code ends |
| `FancoilStatus.AlarmTitle` | drivers/fancoil/device.ts:254 | the title is "Current error message", then an `s` exactly when more than one code is active, then ": ", then exactly the codes joined with ", " |
| `FancoilStatus.JoinHoldsPart` | drivers/fancoil/device.ts:254 | the joined codes hold each code, in order, at its offset |
| `FancoilStatus.JoinHoldsSeparator` | drivers/fancoil/device.ts:254 | consecutive codes are separated by exactly the separator |
| `FancoilStatus.AlarmTitleCodes` | drivers/fancoil/device.ts:254 | after the heading and ": " the title holds every code at its position, in order, with ", " between consecutive codes |
| `FancoilStatus.AlarmTitleTwoCodes` | drivers/fancoil/device.ts:250-257 | `["E01","E02"]` gives "Current error messages: E01, E02"; one code gives the singular |
| `FancoilStatus.MockProjection` | drivers/fancoil/device.ts:291-302 | the canned record gives 22.0, 21.0 and 28.0 degrees, power on, scheduling off, `heat`, `auto`, no alarm |
| `FancoilCommands.Route` | drivers/fancoil/device.ts:68-142 | every command goes to a route that, with its body, the appliance's route table reads back as that same command (power, calendar, mode, setpoint, `set/function/S`) |
| `FancoilCommands.BodyOf` | drivers/fancoil/device.ts:112-131 | only the setpoint carries `{temp}`, holding ten times the temperature; only the fan speed carries `{value: 1}`; every other command posts `{}` |
| `FancoilCommands.ApiBase` | drivers/fancoil/device.ts:218 | the API root is `http://`, then the address, then `/api/v/1/` |
| `FancoilCommands.CommandUri` | drivers/fancoil/device.ts:264-265 | the URI is `http://{ip}/api/v/1/` followed by exactly the command |
| `FancoilCommands.StatusUri` | drivers/fancoil/device.ts:218 | the status URI is the command URI template with `status` as the command |
| `FancoilCommands.CommandUriInjective` | drivers/fancoil/device.ts:265 | for one address, distinct commands go to distinct URIs |
| `FancoilCommands.SetpointRoundTrip` | drivers/fancoil/device.ts:112-126 | if the appliance stores the sent `temp` (T*10) as `sp`, the next poll shows T as `target_temperature` and `measure_temperature.target` |
| `FancoilCommands.HandlerError.Message` | drivers/fancoil/device.ts:68-142 | every handler's error text ends with " failed!"; only the temperature error has no text in the model |
| `FancoilCommands.MessageText` | drivers/fancoil/device.ts:68-142 | a step towards `MessageIdentifiesError`: the characters at which the handlers' error texts differ |
| `FancoilCommands.MessageIdentifiesError` | drivers/fancoil/device.ts:68-142 | two errors with the same text are the same error: the text names the change that failed |
| `FancoilDevice.Polled` | drivers/fancoil/device.ts:219-231 | a fetch yields a record exactly when it resolved to a body that holds one; its `success` flag is not consulted |
| `FancoilDevice.Delivered` | drivers/fancoil/device.ts:213-224 | under the development toggle the canned record; otherwise a record exactly when the fetch resolved to a body that holds one, and that record |
| `FancoilDevice.ModeIs` | drivers/fancoil/device.ts:44-48 | "mode is X" requires a stored `fancoil_mode`, and holds for at most one mode |
| `FancoilDevice.FanSpeedIs` | drivers/fancoil/device.ts:55-59 | "fan speed is X" requires a stored `fan_speed_state`, and holds for at most one speed |
| `FancoilDevice.ConditionsAfterPoll` | drivers/fancoil/device.ts:44-59 | after a poll, "mode is X" holds iff X is the decoded `wm`, and "fan speed is X" holds iff X is the decoded `fn` |
| `FancoilDevice.ConditionsIgnoreOtherCapability` | drivers/fancoil/device.ts:55-59 | "fan speed is X" reads `fan_speed_state`, not `fan_speed`; "mode is X" reads `fancoil_mode`, not its mirror |
| `FancoilDevice.Fancoil.constructor` | drivers/fancoil/device.ts:8-9 | a new session has no capability values, no alarm title and no timer |
| `FancoilDevice.Fancoil.AtMostOneInterval` | drivers/fancoil/device.ts:14-20 | under the session invariant, at most one recurring timer is live |
| `FancoilDevice.Fancoil.SetCapabilityValues` | drivers/fancoil/device.ts:234-258 | the store becomes the old store overridden by the record's projection; the alarm title is rewritten only when `a` is non-empty, otherwise kept |
| `FancoilDevice.Fancoil.RefreshStatus` | drivers/fancoil/device.ts:211-232 | fetches `http://{ip}/api/v/1/status` (nothing under the toggle); projects the delivered record (the canned one under the toggle); a failed, empty or record-less fetch leaves store and title unchanged |
| `FancoilDevice.Fancoil.OnInit` | drivers/fancoil/device.ts:14-20 | one poll, then the previous timer is cleared and a new 300000 ms timer is armed: exactly one timer is live afterwards, the new one |
| `FancoilDevice.Fancoil.ClearRefreshInterval` | drivers/fancoil/device.ts:17 | clearing the stored handle leaves no live timer, and is a no-op before any timer was armed |
| `FancoilDevice.Fancoil.Tick` | drivers/fancoil/device.ts:18-20 | a tick of a live timer is one status poll, with the poll's effect |
| `FancoilDevice.Fancoil.OnDeleted` | drivers/fancoil/device.ts:187-190 | removal leaves no live timer; the stale handle stays in the field |
| `FancoilDevice.Fancoil.SendCommand` | drivers/fancoil/device.ts:260-269 | posts the body to `http://{ip}/api/v/1/{command}` (nothing under the toggle); settles to `true` iff the toggle is on or the reply says `success: true`, to `false` on `success: false`, and rejects on a transport error or a body-less reply |
| `FancoilDevice.Fancoil.Dispatch` | drivers/fancoil/device.ts:68-142 | a command succeeds iff it is acknowledged; otherwise it raises its handler's error |
| `FancoilDevice.Fancoil.OnCapabilityOnOff` | drivers/fancoil/device.ts:68-80 | posts `power/on` or `power/off`; fails with "Power on/off failed!" unless acknowledged; writes no capability |
| `FancoilDevice.Fancoil.OnCapabilityOnOffScheduling` | drivers/fancoil/device.ts:82-94 | posts `set/calendar/on` or `set/calendar/off`; fails unless acknowledged; writes no capability |
| `FancoilDevice.Fancoil.OnCapabilityFancoilMode` | drivers/fancoil/device.ts:96-110 | posts `set/mode/cooling` for `cool`, else `set/mode/heating`; on success writes `fancoil_mode_state` and nothing else; on failure raises the mode error and writes nothing |
| `FancoilDevice.Fancoil.OnCapabilityTargetTemperature` | drivers/fancoil/device.ts:112-126 | posts `set/setpoint` with `{temp: T*10}`; on success writes `measure_temperature.target := T` only; on failure raises the temperature error and writes nothing |
| `FancoilDevice.Fancoil.OnCapabilityFanSpeed` | drivers/fancoil/device.ts:128-142 | posts `set/function/S` with `{value: 1}`; on success writes `fan_speed_state := S` only; on failure raises the fan error and writes nothing |
| `FancoilDevice.Fancoil.SetFancoilModeAction` | drivers/fancoil/device.ts:49-54 | `fancoil_mode` is written whatever the outcome, then the mode listener posts `set/mode/cooling` or `set/mode/heating`; "mode is X" holds afterwards |
| `FancoilDevice.Fancoil.SetFanSpeedAction` | drivers/fancoil/device.ts:60-65 | `fan_speed` is written whatever the outcome, then the fan listener posts `set/function/S` with `{value: 1}`; "fan speed is X" holds afterwards iff the command succeeded, or if it already held |
| `FancoilDriver.Truthy` | drivers/fancoil/driver.ts:14 | a string field is falsy exactly when it is missing or empty |
| `FancoilDriver.Complete` | drivers/fancoil/driver.ts:39 | a device is kept only when it has a non-empty `mac` and a non-empty `id`; otherwise one of them is missing or empty |
| `FancoilDriver.ApiCall` | drivers/fancoil/driver.ts:51-66 | yields the parsed body of an ok response, and `null` when the call throws, the response is not ok or the body does not parse |
| `FancoilDriver.KeepComplete` | drivers/fancoil/driver.ts:38-44 | the result is a subsequence of the input (order kept), all its devices have a truthy `mac` and `id`, and it holds each such device as often as the input does, and no other |
| `FancoilDriver.KeepCompleteUnique` | drivers/fancoil/driver.ts:38-44 | those three properties single out the filter's result: no other list has them |
| `FancoilDriver.Discover` | drivers/fancoil/driver.ts:27-49 | with a `devices` list, the result is exactly its complete devices in order; for `null`, a non-object, an object without `devices` (the throwing `.filter`) or a failed call, it is `[]` |
| `FancoilDriver.PairEntryOf` | drivers/fancoil/driver.ts:13-19 | an entry's name is the device's if truthy, else "Onbekend apparaat", so never empty; its data holds the device's `id` and `mac` |
| `FancoilDriver.ListDevices` | drivers/fancoil/driver.ts:5-24 | fails with the single fixed message iff discovery yields no device; otherwise one entry per discovered device, in order |
| `FancoilDriver.ListedEntriesComplete` | drivers/fancoil/driver.ts:13-19 | every entry has a non-empty name (the device's if truthy, else "Onbekend apparaat") and carries the device's truthy `id` and `mac` |
| `FancoilDriver.ListDevicesFailsIff` | drivers/fancoil/driver.ts:8-11 | pairing fails exactly when the reply does not list a device with both a MAC address and an id |

## Left out

- HTTP transport (`axios`, `fetch`): each exchange is an input value describing how it ended. Logging is left out too.
- Hub runtime wiring: the listener and flow-card registration, `setAvailable`/`setUnavailable` on connected/disconnected, `setSettings` on an address change, `onDiscoveryResult`, `onDiscoveryAvailable` (it only runs the poll), and the log-only `onAdded`/`onSettings`/`onRenamed`.
- Promise ordering and `.catch(this.error)`: each handler is one sequential step. A capability write that the hub rejects is treated as done.
- Timer ticks after removal: `Tick` requires a live handle, so an in-flight poll that completes after `onDeleted` is not modelled.
- A status record with missing or non-numeric fields: the decoder receives a whole `RawStatus`. A body without `RESULT` makes the decoder throw before its first write, and that case is modelled as "no record".
- JavaScript numbers: temperatures and setpoints are exact `real`s, so there is no float rounding in `sp / 10` or `temp * 10`.
- `FancoilCommands.HandlerError.Message`: the text of the temperature error embeds JavaScript's rendering of a number, which is not modelled, so that error has no text in the model.
- `null` entries inside the `devices` array, whose `.mac` would throw inside the filter: devices are records whose fields may be missing. A non-string `id`, `mac` or `name` is not modelled either.
- The placeholder URL `http://192.168.0.x/devices` of `apiCall`: the request is not modelled, only its outcome.
- The diagnostic fields of the status record that the session never reads (`heap`, `uptime`, `ncc`, ...).
- `app.ts` and the interface files: a bootstrap that only logs, and type declarations.
