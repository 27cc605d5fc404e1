# Eight Sleep (local) integration — Dafny model

This project models the core of a Home Assistant integration that polls an
Eight Sleep pod controller on the local network. The controller serves one
JSON status document at `/api/deviceStatus`. The model covers three parts:

- **The client** `LocalEightSleep` (`client.dfy`, module `Client`). It is a
  class with the source's mutable fields: the HTTP session, whether the client
  created that session, and the rolling history of status documents, newest
  first, at most ten. `Start`, `Stop`, `UpdateDeviceData` and
  `HandleDeviceJson` are methods that change those fields. `DeviceData`,
  `DeviceDataHistory` and the field properties (`IsPriming` … `Settings`) are
  functions that read them. The history is specified by the function
  `Pushed`, and the lemmas about `PushAll` say what any number of fetches
  leaves behind.
- **The sensor platform** (`sensor.dfy`, module `Sensor`). It holds the
  static `SENSOR_TYPES` table and the per-side attribute lists. It also holds
  the entity selection done at setup, the value lookups `native_value` and
  `is_on`, and the entity names, unique ids and device identifiers.
- **The config flow's user step** (`config_flow.dfy`, module `ConfigFlow`).
  It decides between "host required", "invalid port" and creating the entry.

Two support modules hold the Python semantics the code relies on:

- `json.dfy` (module `Json`) has the JSON value type, `dict.get` with a
  default, and truthiness.
- `text.dfy` (module `Text`) has `str.capitalize`, `str(int)`, and the
  splitting facts behind the identifier proofs.

A Python exception that a malformed document can trigger becomes the
`Raises` case of `Json.Outcome`. One example is `.get` on something that is
not a dict. Python's `None` is `JNull`, and a `None` session is `null`.

Points where the code's behaviour is easy to misread, which the model follows:

- `is_on` applies `bool(...)` to the water level and never compares it with
  `"true"`, so `waterLevel: "false"` reads as on
  (`Sensor.WaterLevelReadsTruthiness`).
- `native_value` returns `None` for a missing key, not 0, false or "".
  `is_on` returns `False` then only because `bool(None)` is false.
- The entity constructors index `SENSOR_TYPES` and would raise on an
  attribute id that is not in it, so the lookups require an id that is in
  the table.
- `stop` leaves an externally supplied session in place and never clears
  `_internal_session`.

## Model

| member | source | states |
|---|---|---|
| `Json.Truthy` | custom_components/eight_sleep_local/sensor.py:204 | `bool(v)` is false exactly for `None`, `False`, `0`, `""`, `[]` and `{}` |
| `Json.Get` | custom_components/eight_sleep_local/local_eight_sleep.py:165 | `d.get(k, default)`: succeeds exactly on a dict; gives the stored value when the key is present and the default when it is absent; otherwise raises AttributeError |
| `Json.GetIn` | custom_components/eight_sleep_local/local_eight_sleep.py:180-181 | `d.get(side, {}).get(k, default)`: a missing side reads as `{}` and yields the default; raises exactly when the document or the side value is not a dict |
| `Client.Pushed` | custom_components/eight_sleep_local/local_eight_sleep.py:116-121 | recording a document gives length `min(old + 1, 10)`, the new document at index 0, and old entry `i` at index `i + 1`; only the oldest entry is dropped when full |
| `Client.PushAllNewestFirst` | custom_components/eight_sleep_local/local_eight_sleep.py:116-121 | after any sequence of recorded documents, the history is the newest ten of them and of what it held before, newest first |
| `Client.HistoryAfterFetches` | custom_components/eight_sleep_local/local_eight_sleep.py:116-121 | from an empty history, `n` successful fetches leave `min(n, 10)` entries, the last fetched first |
| `Client.ThreeFetchesNewestFirst` | custom_components/eight_sleep_local/local_eight_sleep.py:116-121 | fetching s1, s2, s3 in that order yields the history `[s3, s2, s1]` |
| `Client.LocalEightSleep.constructor` | custom_components/eight_sleep_local/local_eight_sleep.py:39-43 | a new client keeps the given host, port and session, does not own the session, and has an empty history |
| `Client.LocalEightSleep.Start` | custom_components/eight_sleep_local/local_eight_sleep.py:80-83 | with no session it creates a fresh open one and takes ownership; a supplied session and the ownership flag are left alone; always returns true |
| `Client.LocalEightSleep.Stop` | custom_components/eight_sleep_local/local_eight_sleep.py:89-94 | closes and drops the session only when owned and present, otherwise changes nothing; afterwards an owned session is gone, so a second stop is a no-op |
| `Client.LocalEightSleep.UpdateDeviceData` | custom_components/eight_sleep_local/local_eight_sleep.py:104-114 | requires a session; a 200 response records its body as `handle_device_json` does; any other status or a transport error leaves the history unchanged |
| `Client.LocalEightSleep.HandleDeviceJson` | custom_components/eight_sleep_local/local_eight_sleep.py:116-121 | insert at the front, then truncate to ten; the new history is `Pushed(old, d)` and never longer than ten |
| `Client.LocalEightSleep.UpdateAll` | custom_components/eight_sleep_local/local_eight_sleep.py:104-121 | any run of refreshes leaves the history as if exactly the 200 bodies had been recorded in order: the newest ten of them and of the old history, newest first |
| `Client.LocalEightSleep.DeviceData` | custom_components/eight_sleep_local/local_eight_sleep.py:123-130 | the newest document, or `{}` while the history is empty (so `{}` for a new client) |
| `Client.LocalEightSleep.DeviceDataHistory` | custom_components/eight_sleep_local/local_eight_sleep.py:132-137 | the history itself, newest first, at most ten entries |
| `Client.LocalEightSleep.RootField` | custom_components/eight_sleep_local/local_eight_sleep.py:160-173 | a top-level key of the newest document: its value if present, the default if absent or before any fetch; raises if that document is not a dict |
| `Client.LocalEightSleep.SideField` | custom_components/eight_sleep_local/local_eight_sleep.py:175-226 | a key of a side object: its value if present; the default if the key, the side or any document is missing; raises exactly when the document, or the side value, is not a dict |
| `Client.LocalEightSleep.IsPriming` | custom_components/eight_sleep_local/local_eight_sleep.py:160-165 | `isPriming`, false when absent |
| `Client.LocalEightSleep.WaterLevel` | custom_components/eight_sleep_local/local_eight_sleep.py:167-173 | raw `waterLevel`, the string "false" when absent, not coerced |
| `Client.LocalEightSleep.LeftCurrentTempF` | custom_components/eight_sleep_local/local_eight_sleep.py:175-181 | `left.currentTemperatureF`, None when the side or key is absent |
| `Client.LocalEightSleep.LeftTargetTempF` | custom_components/eight_sleep_local/local_eight_sleep.py:183-186 | `left.targetTemperatureF`, None when absent |
| `Client.LocalEightSleep.LeftSecondsRemaining` | custom_components/eight_sleep_local/local_eight_sleep.py:188-191 | `left.secondsRemaining`, None when absent |
| `Client.LocalEightSleep.LeftIsAlarmVibrating` | custom_components/eight_sleep_local/local_eight_sleep.py:193-196 | `left.isAlarmVibrating`, false when absent |
| `Client.LocalEightSleep.LeftIsOn` | custom_components/eight_sleep_local/local_eight_sleep.py:198-201 | `left.isOn`, false when absent |
| `Client.LocalEightSleep.RightCurrentTempF` | custom_components/eight_sleep_local/local_eight_sleep.py:203-206 | `right.currentTemperatureF`, None when absent |
| `Client.LocalEightSleep.RightTargetTempF` | custom_components/eight_sleep_local/local_eight_sleep.py:208-211 | `right.targetTemperatureF`, None when absent |
| `Client.LocalEightSleep.RightSecondsRemaining` | custom_components/eight_sleep_local/local_eight_sleep.py:213-216 | `right.secondsRemaining`, None when absent |
| `Client.LocalEightSleep.RightIsAlarmVibrating` | custom_components/eight_sleep_local/local_eight_sleep.py:218-221 | `right.isAlarmVibrating`, false when absent |
| `Client.LocalEightSleep.RightIsOn` | custom_components/eight_sleep_local/local_eight_sleep.py:223-226 | `right.isOn`, false when absent |
| `Client.LocalEightSleep.SensorLabel` | custom_components/eight_sleep_local/local_eight_sleep.py:228-233 | `sensorLabel`, "" when absent |
| `Client.LocalEightSleep.Settings` | custom_components/eight_sleep_local/local_eight_sleep.py:235-240 | `settings`, `{}` when absent |
| `ConfigFlow.AsEntryData` | custom_components/eight_sleep_local/config_flow.py:37-42 | the entry data holds exactly the host and port that were submitted |
| `ConfigFlow.StepUser` | custom_components/eight_sleep_local/config_flow.py:20-54 | no input shows the form with no errors; an empty host gives `host_required` whatever the port; otherwise a port outside 1..65535 gives `invalid_port`; an entry titled "Eight Sleep Local" holds the input unchanged |
| `ConfigFlow.AcceptedIffValid` | custom_components/eight_sleep_local/config_flow.py:33-42 | an entry is created if and only if the host is non-empty and `0 < port < 65536`, and it then holds the input |
| `ConfigFlow.RejectionHasOneError` | custom_components/eight_sleep_local/config_flow.py:22-36 | a rejected submission carries exactly one error, under "base", and it is `host_required` or `invalid_port` |
| `Sensor.CreateEntity` | custom_components/eight_sleep_local/sensor.py:91-95 | an entity is a binary sensor exactly when its table entry is marked binary, and keeps its side and attribute |
| `Sensor.EntitiesFor` | custom_components/eight_sleep_local/sensor.py:97-111 | the per-side comprehension never yields more entities than attributes listed |
| `Sensor.EntitiesForMembers` | custom_components/eight_sleep_local/sensor.py:97-111 | every entity made has the given side, an attribute from the list, and a table entry |
| `Sensor.EntitiesForAllKnown` | custom_components/eight_sleep_local/sensor.py:97-111 | when all listed attributes are in the table, the entities are exactly one per listed attribute, created in list order |
| `Sensor.BedSideSetup` | custom_components/eight_sleep_local/sensor.py:24-106 | on a bed side, the three temperature/timer attributes become value sensors and the alarm and on flags become binary sensors, in list order |
| `Sensor.HubSetup` | custom_components/eight_sleep_local/sensor.py:57-111 | the hub gets binary sensors for priming and water level |
| `Sensor.SetupEntities` | custom_components/eight_sleep_local/sensor.py:97-113 | setup adds the left entities, then the right ones, then the hub's |
| `Sensor.SetupEntityCounts` | custom_components/eight_sleep_local/sensor.py:73-113 | the setup list has twelve entities: three value and two binary sensors per bed side, and two binary sensors for the hub |
| `Sensor.UniqueId` | custom_components/eight_sleep_local/sensor.py:147 | the unique id starts with `eight_sleep_` and is as long as the prefix, side, separator and attribute id together |
| `Sensor.UniqueIdInjective` | custom_components/eight_sleep_local/sensor.py:147 | for sides without an underscore, equal unique ids mean equal side and attribute id |
| `Sensor.SetupUniqueIdsDistinct` | custom_components/eight_sleep_local/sensor.py:189 | the twelve entities set up have pairwise different unique ids |
| `Sensor.EntityName` | custom_components/eight_sleep_local/sensor.py:146 | the name is "Eight Sleep ", then the capitalised side, a space and the table's friendly name, with nothing else in between |
| `Sensor.SideDisplayNames` | custom_components/eight_sleep_local/sensor.py:188 | the sides display as "Left", "Right" and "Hub" |
| `Sensor.DeviceIdentifier` | custom_components/eight_sleep_local/sensor.py:170 | the device identifier starts with `eight_sleep_` |
| `Sensor.DeviceIdentifierInjective` | custom_components/eight_sleep_local/sensor.py:211 | for sides without an underscore, equal device identifiers mean equal side, host and port, whatever the host contains |
| `Sensor.OrEmpty` | custom_components/eight_sleep_local/sensor.py:155 | `data or {}`: a falsy document (None included) is replaced by `{}` |
| `Sensor.NativeValue` | custom_components/eight_sleep_local/sensor.py:153-163 | left/right read `data[side][json_key]` and hub reads `data[json_key]`, None when absent; any other side gives None; no data behaves as `{}`; raises exactly when a known side meets a non-dict document or side value |
| `Sensor.TruthOf` | custom_components/eight_sleep_local/sensor.py:204 | `bool(...)` of an evaluated value, passing an exception through |
| `Sensor.IsOn` | custom_components/eight_sleep_local/sensor.py:194-204 | for left, right and hub it is the truthiness of what `native_value` resolves; for any other side it raises UnboundLocalError |
| `Sensor.WaterLevelReadsTruthiness` | custom_components/eight_sleep_local/sensor.py:199-204 | the water-level sensor is on for every non-empty string, "false" included |
| `Sensor.NoDataReadsDefaults` | custom_components/eight_sleep_local/sensor.py:155-163 | with None or `{}` as data, every value is None and every binary sensor is off |
| `Sensor.SampleLeftReadings` | custom_components/eight_sleep_local/sensor.py:153-204 | on a sample document the left current temperature reads 83 as sent, and the left on flag reads on |
| `Sensor.SampleRightReadings` | custom_components/eight_sleep_local/sensor.py:153-204 | on a sample document whose right side is `{}`, the right temperature is None and the right on flag reads off |
| `Sensor.SampleHubReadings` | custom_components/eight_sleep_local/sensor.py:153-204 | on a sample document the hub reads not priming for `False` and water level on for `"true"` |
| `Sensor.EntryHost` | custom_components/eight_sleep_local/sensor.py:80 | the entry's host, or "localhost" when it has none |
| `Sensor.EntryPort` | custom_components/eight_sleep_local/sensor.py:81 | the entry's port, or 8080 when it has none |
| `Sensor.FlowEntryConfiguresClient` | custom_components/eight_sleep_local/sensor.py:80-81 | an entry created by the config flow connects the client to exactly the host and port entered |
| `Sensor.SetupEntry` | custom_components/eight_sleep_local/sensor.py:77-113 | setup creates a client on the entry's host and port that owns a fresh open session; after the first refresh, the coordinator's data is the client's newest document; the entities are the twelve of `SetupEntities` |
| `Text.Capitalize` | custom_components/eight_sleep_local/sensor.py:146 | `str.capitalize` on ASCII: same length, first character upper-cased, the rest lower-cased |
| `Text.IntString` | custom_components/eight_sleep_local/sensor.py:170 | the port as an f-string renders it: decimal digits, with a leading '-' exactly for negatives |
| `Text.IntStringRoundTrip` | custom_components/eight_sleep_local/sensor.py:170 | reading the rendered port back gives the port |

## Left out

- The aiohttp session is the class `Client.Session`, which only records that it was closed. The GET request, `resp.json()` and the 10-second timeout are represented by the input `Client.Fetch`. A non-JSON content type makes `resp.json()` raise a `ClientError`, which is caught and leaves the history unchanged; that is one of the non-200/`NetError` cases. A body with a JSON content type that fails to parse raises an exception the code does not catch; that case is not modelled.
- Every client method is a coroutine, and the model treats each call as atomic. Interleavings, such as a `stop()` that runs while `update_device_data` awaits the GET, are not modelled.
- `device_data` and `device_data_history` return the live dict and list, and `insert(0, data)` changes that list in place before the slice replaces it. The model returns values, so a caller holding the old list and seeing it change (aliasing) is not captured.
- `Sensor.FlowEntryConfiguresClient`, `Sensor.SetupEntry`: these assume the config flow's `CONF_HOST` and `CONF_PORT` are the keys `"host"` and `"port"` that the sensor setup reads. The `.const` module defining them is not part of this model.
- `Client.LocalEightSleep.UpdateDeviceData`: the `assert` on the session is a `requires`. Using a session that someone else already closed is not modelled.
- The constructor's defaults (`localhost`, 8080) are `Client.DefaultHost` and `Client.DefaultPort`; the constructor takes both explicitly.
- The constructor's `check_data` path (`asyncio.run` during construction), the `atexit` hook and `at_exit` are event-loop and process-exit plumbing.
- Logging is not modelled.
- JSON numbers are integers only, and floats are not modelled.
- `Text.Capitalize` handles ASCII letters only; Python's Unicode case mapping is not modelled.
- `EightSleepDataUpdateCoordinator`, its 5-second schedule and error re-raise, and `async_add_entities` belong to Home Assistant. `SetupEntry` performs the first refresh itself, as the coordinator's update does.
- The `device_info` fields other than the identifier are not modelled. Neither are the unit and device class set on entities.
- The `voluptuous` schema is not modelled. It guarantees that both fields are present and that the port is an integer, which `ConfigFlow.UserInput` assumes. The form and entry objects are the tagged `ConfigFlow.FlowResult`.
- `__init__.py` only stores the entry data and forwards to the platforms. `localEight.device`, which `sensor.py` imports the client from, is not part of this model; the client modelled is `local_eight_sleep.py`.
- `Sensor.NativeValue`, `Sensor.IsOn`, `Sensor.CreateEntity`, `Sensor.EntityName`: these require the attribute id to be in `SENSOR_TYPES`. The entity constructors index the table and raise `KeyError` otherwise, and setup only passes listed ids.
