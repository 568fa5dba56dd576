# Watering system controller: a Dafny model

This project models the control core of an automated irrigation controller. The controller holds a
24-hour watering schedule. At the top of each hour it turns a water pump on or off, and the pump
transitions are debounced. It raises an alert when the pump's state and the measured water flow
disagree. It also keeps a bounded, newest-first history of moisture readings for the web page.

The modules follow the pieces of `watering-system.cpp`:

- `Schedule` (`schedule.dfy`): the `WateringSchedule` object. It is a class over a 24-element
  `array<Slot>` with its constructor, `Set`, `IsOnTime`, `IsOffTime`, `RenderJson` and the
  `PUT /schedule` apply loop (`Apply`). It also holds the top-of-the-hour test `ItIsHour` and the
  JSON value the schedule is rendered to. A decoder (`DecodeSchedule`, 1 read as true) is the
  partner of the rendering.
- `Pump` (`pump.dfy`): the `Devices` object's pump state machine, as a class with the two flags,
  the pump output and a ghost trace of side effects (pump write, console message, log event). The
  class's methods are proved against a pure transition function `Step`. Lemmas about `Step` and
  `Run` (a sequence of requests) state debouncing, the flag invariant and "one event per real
  transition".
- `Runners` (`runners.dfy`): what one pass of each polling loop decides. `Decide` and `Tick` cover
  the scheduler loop's body. `Anomaly` and `CheckFlow` cover the flow monitor's alert condition.
- `Moisture` (`moisture.dfy`): the `MoistureData` object. It is a class over a `seq<Item>` field
  with `Add` (push front, drop back beyond 20) and `RenderText` (the rows, in order, one per line).
- `Decimal` (`decimal.dfy`): the decimal text that `to_string` and stream output produce for
  integers. It is used for the JSON hour keys and for the readings in the table rows.
- `Wrappers` (`wrappers.dfy`): `Option`.

Three facts about the code shape the model:

- The device starts with both flags false. This is an "unknown" state in which the flow monitor
  never alerts and the first request of either kind takes effect.
- The scheduler does not remember which hour boundary it has already handled. Every pass inside the
  (0 s, 5 s) window calls `turn_on` or `turn_off` again. That the pump still switches at most once
  per hour comes from the debounce in `turn_on`/`turn_off`. `Runners.OneTransitionPerHour` proves it.
- The alert "cooldown" is only a `sleep(300)` in the monitor loop, not state, so no cooldown
  state is modelled.

## Model

| member | source | states |
|---|---|---|
| `Schedule.WateringSchedule.constructor` | watering-system/cpp/src/watering-system.cpp:98-106 | a fresh schedule has all 24 slots with `on` and `off` both false |
| `Schedule.WateringSchedule.Set` | watering-system/cpp/src/watering-system.cpp:109-112 | for an hour in 0..23, that slot becomes `(on, off)` and every other slot is unchanged; a read of that hour afterwards returns exactly `(on, off)` |
| `Schedule.WateringSchedule.IsOnTime` | watering-system/cpp/src/watering-system.cpp:138-140 | the `on` flag of the slot for the current hour; `Set` states what it returns after a write, and `Runners.Decide`/`Runners.Tick` state how the scheduler uses it |
| `Schedule.WateringSchedule.IsOffTime` | watering-system/cpp/src/watering-system.cpp:143-145 | the `off` flag of the slot for the current hour; `Set` states what it returns after a write, and `Runners.Decide`/`Runners.Tick` state how the scheduler uses it |
| `Schedule.ItIsHour` | watering-system/cpp/src/watering-system.cpp:124-135 | with integer seconds since the top of the hour, the window test holds iff the minute is 0 and the second is 1 to 4; at second 0 it is false |
| `Schedule.WateringSchedule.RenderJson` | watering-system/cpp/src/watering-system.cpp:148-157 | the rendering is one `data` object keyed exactly by "0".."23", each `{on: 1/0, off: 1/0}`; decoding it recovers the schedule |
| `Schedule.DecodeScheduleJson` | watering-system/cpp/src/watering-system.cpp:148-157 | for every 24-slot schedule, reading the rendering back with 1 as true returns exactly that schedule |
| `Schedule.SlotJsonRoundTrip` | watering-system/cpp/src/watering-system.cpp:152-153 | one slot's `{on, off}` numbers decode back to the slot |
| `Schedule.DataFieldsAt` | watering-system/cpp/src/watering-system.cpp:150-154 | after the first n hours are written, hour k < n is found under its own decimal key with its own slot, so no later hour overwrites it |
| `Schedule.DataFieldsKeys` | watering-system/cpp/src/watering-system.cpp:150-154 | after the first n hours are written, the object's keys are exactly the decimal texts of 0..n-1 |
| `Schedule.WateringSchedule.Apply` | watering-system/cpp/src/watering-system.cpp:440-443 | applying 24 `(on, off)` pairs leaves slot i equal to pair i for every i |
| `Decimal.NatToString` | watering-system/cpp/src/watering-system.cpp:151 | the decimal text of a number is non-empty, all digits, with no leading zero except for 0 itself |
| `Decimal.ParseNatToString` | watering-system/cpp/src/watering-system.cpp:151 | reading the decimal text back gives the number |
| `Decimal.NatToStringInjective` | watering-system/cpp/src/watering-system.cpp:151 | different hours get different JSON keys |
| `Decimal.IntToString` | watering-system/cpp/src/watering-system.cpp:176 | a reading's printed text starts with '-' exactly when the reading is negative |
| `Decimal.IntToStringRoundTrip` | watering-system/cpp/src/watering-system.cpp:176 | reading the printed text back gives the reading |
| `Pump.Step` | watering-system/cpp/src/watering-system.cpp:308-325 | one request keeps the flags coherent (never both set, pump level agreeing), and when it takes effect exactly one flag is set afterwards |
| `Pump.Devices.TurnedOn` | watering-system/cpp/src/watering-system.cpp:298-300 | on a coherent device, reporting "on" means the off flag is clear and the pump was last written 1 |
| `Pump.Devices.TurnedOff` | watering-system/cpp/src/watering-system.cpp:303-305 | on a coherent device, reporting "off" means the on flag is clear and the pump was last written 0 |
| `Pump.Devices.constructor` | watering-system/cpp/src/watering-system.cpp:256-261 | the device starts with both flags false, the pump low and no side effects |
| `Pump.Devices.WritePump` | watering-system/cpp/src/watering-system.cpp:310 | a pump write sets the output level and records one pump-write effect, leaving the flags alone |
| `Pump.Devices.Say` | watering-system/cpp/src/watering-system.cpp:328-330 | a console message records one message effect and changes no state |
| `Pump.Devices.Log` | watering-system/cpp/src/watering-system.cpp:234-247 | a log call records one log event and changes no state |
| `Pump.Devices.TurnOn` | watering-system/cpp/src/watering-system.cpp:308-315 | if already on, nothing changes and nothing is emitted; otherwise the pump is written 1, `turnedOn` is set, `turnedOff` cleared, and "on" is printed and logged once; coherence is preserved |
| `Pump.Devices.TurnOff` | watering-system/cpp/src/watering-system.cpp:318-325 | symmetric to `TurnOn`: pump written 0, `turnedOff` set, "off" printed and logged once, nothing when already off |
| `Pump.RunIsChanges` | watering-system/cpp/src/watering-system.cpp:308-325 | the effects of any request sequence are exactly one transition's effects per request that is not a repeat of the previous one, and the device ends in the last request's state |
| `Pump.RunLogsChanges` | watering-system/cpp/src/watering-system.cpp:313-324 | the log holds one "on"/"off" event per real transition, in order, and none for repeated requests |
| `Pump.RunStaysCoherent` | watering-system/cpp/src/watering-system.cpp:298-325 | `turned_on()` and `turned_off()` are never both true, and after any request exactly one is |
| `Pump.RepeatedRequest` | watering-system/cpp/src/watering-system.cpp:308-325 | the same request made n >= 1 times in a row has the same effect and the same end state as making it once |
| `Pump.FirstRequestTakesEffect` | watering-system/cpp/src/watering-system.cpp:257-258 | from the initial state with both flags false, the first `turn_on` or `turn_off` takes effect and logs one event |
| `Runners.Decide` | watering-system/cpp/src/watering-system.cpp:368-373 | outside the window no action; inside it the slot's `on` asks for on, otherwise its `off` asks for off; with both set `on` wins and off is never asked for |
| `Runners.Tick` | watering-system/cpp/src/watering-system.cpp:362-374 | one scheduler pass changes the device exactly as the decided action's transition does, and nothing when the decision is no action |
| `Runners.OneTransitionPerHour` | watering-system/cpp/src/watering-system.cpp:361-378 | any number of passes whose in-window times share one hour cause at most one transition: the hour slot's request, carried out once if any pass fell in the window |
| `Runners.Anomaly` | watering-system/cpp/src/watering-system.cpp:351 | with neither flag set the alert never holds; with exactly one flag set it holds iff "flow > 0" disagrees with "turned on" |
| `Runners.CheckFlow` | watering-system/cpp/src/watering-system.cpp:350-351 | the monitor's test returns the anomaly condition for the device's current state and changes nothing |
| `Runners.AnomalyAfterRequests` | watering-system/cpp/src/watering-system.cpp:351 | before any request there is never an alert; after requests, an alert holds iff the measured flow disagrees with the last request |
| `Moisture.Pushed` | watering-system/cpp/src/watering-system.cpp:194-198 | the new reading is first; below capacity the rest is the old history, at capacity the old last item is dropped; the size is min(old size + 1, 20) |
| `Moisture.MoistureData.constructor` | watering-system/cpp/src/watering-system.cpp:189-191 | the history starts empty |
| `Moisture.MoistureData.Add` | watering-system/cpp/src/watering-system.cpp:194-198 | the history becomes the pushed history and never exceeds 20 items |
| `Moisture.HistoryIsNewestFirst` | watering-system/cpp/src/watering-system.cpp:194-198 | after n readings from empty, the history holds the last min(n, 20) readings, newest first |
| `Moisture.Render` | watering-system/cpp/src/watering-system.cpp:172-179 | a row is `<tr><td>`, the timestamp, `</td><td>`, the reading's decimal text, `</td></tr>` |
| `Moisture.RenderReadingRoundTrip` | watering-system/cpp/src/watering-system.cpp:176 | the reading cell of a row parses back to exactly the reading |
| `Moisture.RowsAppend` | watering-system/cpp/src/watering-system.cpp:204-206 | the rendered text of two consecutive runs of items is the concatenation of their texts |
| `Moisture.MoistureData.RenderText` | watering-system/cpp/src/watering-system.cpp:201-209 | the text is every item's row followed by a newline, in history order |
| `Moisture.RowsLineCount` | watering-system/cpp/src/watering-system.cpp:204-206 | with timestamps free of newlines, the text has exactly one line per reading |

## Left out

- Threads, polling loops and sleeps (`runner`, `runner2`, `runner3`, `std::thread`) are left out. Each loop's body is modelled as one pass. Interleavings between loops and HTTP handlers are not modelled.
- The alert's side effects (the "watering system alert" log and the SMS through the Twilio REST API) and the 300-second pause are left out. Only the alert condition is modelled.
- The wall clock (`time`, `localtime`, `mktime`, `difftime`, `strftime`) is left out. The scheduler receives a `LocalTime` (hour, minute, second) and computes the seconds since the top of the hour in integers. Daylight-saving shifts and the shared `localtime` buffer are not modelled. Moisture timestamps are opaque strings.
- Hardware drivers (`init`, `cleanup`, `readMoisture`, `readFlow`, the GPIO pin) are left out. Sensor values are integer inputs. The pump is an integer output level, taken to be 0 from the start because `init` drives it low before any loop runs.
- The remote log's MQTT/datastore publishing and timestamping are left out. A log call is one recorded `LogEvent`.
- HTTP routing is left out: the web framework, parsing the `PUT /schedule` body, the 400 answer for an unparsable body and the message printed when the body does not have 24 entries. `Apply` receives the 24 `(on, off)` pairs already read from keys "0".."23". What the framework does with a missing key or a non-boolean value is not modelled.
- The GET rendering nests the hours under a `data` key and writes numbers 1/0. The PUT handler reads the hours at the top level as booleans. The decoder partner of `RenderJson` reads the GET shape. Whether a client's PUT body round-trips is outside the model.
- Substituting the history text into the HTML page template, the static stylesheet route, the signal handler and `main` are left out.
- The unused fields `WateringSchedule.turnedOn`/`turnedOff`, `MoistureData.lastReading` and `Devices.moistureReading` are omitted. The helper `countdown` appears only inside `ItIsHour`.
- A failed pump write is not modelled. The source ignores the GPIO write's result, so there is no error path to follow.
