# HVAC automation core: decision rule, telemetry handler, user commands

This project models the control core of a small IoT air-conditioning service. The model covers four parts:

- **Decision rule** (`Algorithm`). `g36Control` is a first-match chain of five rules in the style of ASHRAE Guideline 36. It takes indoor temperature and humidity, outdoor temperature and two optional setpoints, and returns `{mode, targetTemperature, reason}`. The model also contains a second definition of the same rules: an ordered table of guard/decision pairs evaluated first-match-wins. A lemma proves the two definitions agree on every input.
- **Telemetry gateway** (`Telemetry`). It models the JavaScript values a parsed payload may hold, `validateSensorPayload`, the readings a valid payload carries, and the device id taken from an MQTT topic (`topic.split("/")[2]`). Splitting and joining topics are proved to undo each other.
- **Automation state machine** (`Mqtt`). It handles one inbound message on `home/sensors/<mac>/up`. It stores the indoor readings. When automation is on and power is ON, it evaluates the rule and updates `mode`/`power`. It then appends one outbound command and one audit-log entry.
- **User command handlers** (`Server`). These are add-device, toggle-automation, update-temp, update-humidity, set-power and set-mode. Each one requires a session user.

The device records, the user records, the outbox and the audit log live together in the `Store.Store` class, which stands in for the database collections and the MQTT client. Each handler is a method that changes the store step by step, as the source does. Its `ensures` ties the new state to a declarative specification function on `Store.State` values: `Mqtt.OnMessage` for messages and `Server.Apply` for requests. The lemmas about those functions state what the system promises: which effects happen, what stays unchanged, idempotence, and that the store stays consistent.

Temperatures and humidities are `real`. Every comparison and every ±1 in the source is exact, so nothing depends on float rounding.

## Behaviour as written

- Automation runs only when `automation_mode` is on **and** `power` is `"ON"` (mqtt.js:60). So an "OFF" decision can only ever meet a device that is ON.
- The branch that switches power back ON for an active mode (mqtt.js:109-112) is therefore unreachable. `Mqtt.HandleMessage` keeps the branch and asserts that it is never taken. `Mqtt.NeverPowersOn` proves that automation never turns a device on.
- Every non-"OFF" decision writes a SET_MODE log entry and sends a SET_AC command, even when the mode did not change (mqtt.js:114-140). It is not limited to actual mode changes. `Mqtt.RepeatActiveResends` shows that a repeated message sends the command again.
- User handlers write no audit entry (server.js:5 does not import `ActionLog`).
- set-power publishes the command before saving (server.js:196-205). A power value other than "ON"/"OFF" is published, then rejected by the schema's enum validation on save, so the device record is not changed and the reply is a server error.
- update-humidity clamps the setpoint after any action, including an unknown one (server.js:178-179).
- The later of two messages does not always win. An automation "OFF" decision sets `power` to OFF, and mqtt.js:60 evaluates only devices that are ON. So no later message is evaluated for that device until a user turns it back on, whatever that message would decide. `Mqtt.OffDecisionSilencesLaterMessages` states this in general. `Mqtt.ComfortThenCoolStaysOff` gives an instance: at setpoints 26/60, a comfort reading turns the device OFF, and a later reading that on its own decides COOL leaves it OFF.

## Model

| member | source | states |
|---|---|---|
| Models.ParsePower | database/models.js:20 | a power string is storable exactly when it is "ON" or "OFF"; the parsed value's name is the string |
| Models.ParseMode | database/models.js:21 | a mode string is storable exactly when it is one of DRY, COOL, FAN, HEAT |
| Models.PowerNameRoundTrip | database/models.js:20 | every power value's name parses back to it |
| Models.ModeNameRoundTrip | database/models.js:21 | every mode's name parses back to it, and no mode is named "OFF" |
| Models.NewDeviceDefaults | database/models.js:13-22 | a new device has target 25 °C / 60 %RH, no current readings, automation off, power OFF, mode COOL |
| Models.ActionLogDescriptionDefault | database/models.js:27-33 | a log entry without a description stores "", otherwise the given text |
| Algorithm.G36Control | algorithm.js:19-79 | target is null exactly for FAN and comfort-OFF; any target equals T_heat or T_heat - 1; OFF exactly for the lockout and comfort reasons |
| Algorithm.DerivedSetpoints | algorithm.js:1-27 | absent setpoints default to 26 °C and 60 %RH; T_heat = T_set - 1 and T_cool = T_set + 1 |
| Algorithm.HumidityPriority | algorithm.js:29-36 | RH_room > RH_set if and only if the result is DRY, and then the target is T_heat - 1 whatever the temperatures |
| Algorithm.Economizer | algorithm.js:38-45 | not humid, T_room > T_cool and T_outdoor <= 26 (26 included) gives FAN with a null target |
| Algorithm.MechanicalCooling | algorithm.js:47-54 | not humid, T_room > T_cool and T_outdoor > 26 gives COOL with target T_heat |
| Algorithm.Heating | algorithm.js:56-71 | not humid and T_room < T_heat gives HEAT below 35 °C outdoors, else OFF with target T_heat and the lockout reason |
| Algorithm.ComfortBand | algorithm.js:73-78 | not humid and T_heat <= T_room <= T_cool gives OFF with a null target and the comfort reason |
| Algorithm.Examples | algorithm.js:19-79 | the worked example (20, 65, 30, 26/60 gives DRY at 24) and the economizer, lockout and comfort boundary cases |
| Algorithm.FirstMatch | algorithm.js:29-78 | the result is absent exactly when no guard holds; otherwise it is the decision of a holding rule with no earlier holding rule |
| Algorithm.RuleChainIsTotal | algorithm.js:73-78 | the rule table always yields a decision (the last rule is unconditional) |
| Algorithm.G36ControlIsFirstMatch | algorithm.js:19-79 | for every input, `g36Control` equals first-match evaluation of the six-rule table in source order |
| Telemetry.ReadingsOf | mqtt.js:19-31 | readings exist exactly when `validateSensorPayload` holds, and each equals the payload's numeric field |
| Telemetry.PayloadRoundTrip | mqtt.js:40-47 | a payload built from readings validates and yields those readings back |
| Telemetry.EveryFieldRequired | mqtt.js:19-31 | removing any of the four fields, humidity2 included, rejects the payload |
| Telemetry.EveryFieldNumeric | mqtt.js:22-29 | a non-number or NaN in any of the four fields rejects the payload |
| Telemetry.Split | mqtt.js:37 | `split` yields at least one piece, one more than the number of separators, and no piece contains a separator |
| Telemetry.JoinSplit | mqtt.js:37 | joining the pieces of a split gives back the original string |
| Telemetry.SplitJoin | mqtt.js:37 | splitting a join of separator-free pieces gives back the pieces |
| Telemetry.DeviceIdOf | mqtt.js:37 | the device id exists exactly when the topic has at least two '/', and contains no '/' |
| Telemetry.DeviceIdOfUpTopic | mqtt.js:11 | a MAC address matched by `home/sensors/+/up` is recovered from its telemetry topic |
| Telemetry.DeviceIdOfDownTopic | mqtt.js:91 | the device id of a command topic `home/sensors/<mac>/down` is that MAC address |
| Store.Store.constructor | database/models.js:4-8 | a fresh store has no devices, the given accounts, no traffic and no log, and is consistent |
| Mqtt.HandleMessage | mqtt.js:33-153 | the handler's step-by-step updates produce exactly the state `OnMessage` specifies (the power-on branch proved dead) |
| Mqtt.RejectedIsNoOp | mqtt.js:35-57 | an unparseable or invalid payload, or an unknown device, leaves the whole state unchanged |
| Mqtt.Frame | mqtt.js:33-153 | only the addressed device changes, accounts and device keys stay, outbox and log only grow, and they grow by the same count, at most one |
| Mqtt.ReadingsRecorded | mqtt.js:52-57 | an accepted message sets current_temp := temperature1 and current_rh := humidity1, whatever the automation state; setpoints are untouched |
| Mqtt.NotEvaluatedOnlyRecords | mqtt.js:59-60 | with automation off or power OFF, storing the readings is the only effect |
| Mqtt.ModeFollowsActiveDecision | mqtt.js:70-77 | the stored mode changes only to the mode of a non-"OFF" decision of an evaluated device |
| Mqtt.OffDecisionEffects | mqtt.js:80-106 | an "OFF" decision turns power OFF, sends one SET_POWER/OFF to the down topic and logs one AUTOMATION/SET_POWER entry with the reason, nothing else |
| Mqtt.ActiveDecisionEffects | mqtt.js:107-147 | a non-"OFF" decision sets the mode, keeps power ON, sends one SET_AC with mode, reason and the target only if non-null, and logs one AUTOMATION/SET_MODE entry |
| Mqtt.StateReflectsDecision | mqtt.js:60-147 | after an evaluated message, power and mode agree with that message's decision |
| Mqtt.NeverPowersOn | mqtt.js:109-112 | a device that is OFF stays OFF under any message, and a message for it sends and logs nothing |
| Mqtt.OffDecisionSilencesLaterMessages | mqtt.js:60-106 | after a message whose decision is "OFF", any later message leaves the device OFF and sends and logs nothing |
| Mqtt.ComfortThenCoolStaysOff | mqtt.js:60-106 | at setpoints 26/60 a comfort reading decides OFF, a later hot reading would decide COOL, and the device still ends OFF |
| Mqtt.RepeatAfterOffIsNoOp | mqtt.js:60-106 | after a message has turned a device OFF, the same message again changes nothing |
| Mqtt.RepeatActiveResends | mqtt.js:114-140 | a repeated message with an active decision leaves the devices as they are but resends the command and logs again |
| Mqtt.PreservesConsistent | mqtt.js:33-153 | every message keeps the store consistent |
| Server.ClampRh | server.js:177-179 | the clamped humidity lies in [0, 100], is unchanged inside it and goes to the nearest bound outside it |
| Server.AddDevice | server.js:100-124 | the handler meets `Apply` and `Reply` for add-device |
| Server.ToggleAutomation | server.js:126-141 | the handler meets `Apply` and `Reply` for toggle-automation |
| Server.UpdateTemp | server.js:143-162 | the handler meets `Apply` and `Reply` for update-temp |
| Server.UpdateHumidity | server.js:164-186 | the handler meets `Apply` and `Reply` for update-humidity |
| Server.SetPower | server.js:188-211 | the handler meets `Apply` and `Reply` for set-power, including the publish-then-rejected save |
| Server.SetMode | server.js:213-240 | the handler meets `Apply` and `Reply` for set-mode |
| Server.SessionRequired | server.js:101-103 | without a session userId every handler answers 401 and leaves the state unchanged |
| Server.NoLogAndLocal | server.js:5 | no handler appends an audit entry or deletes a device, none changes a device other than the one named, and only add-device changes accounts |
| Server.Publications | server.js:100-186 | add-device, toggle and the setpoint handlers publish nothing; no handler publishes more than one command |
| Server.UnknownDeviceIsNoOp | server.js:132-136 | for every handler but add-device, an unknown device leaves the state unchanged |
| Server.AddDeviceRegisters | server.js:107-118 | add-device creates a default device only if absent and lists it with the user, changing no other account |
| Server.AddDeviceIdempotent | server.js:109-118 | add-device twice has the same effect as once |
| Server.ToggleNegates | server.js:132-136 | toggling automation on a known device negates its `automation_mode` and changes nothing else |
| Server.ToggleTwiceRestores | server.js:132-136 | toggling automation twice restores the original state |
| Server.UpdateTempShifts | server.js:150-155 | warmer adds 1, colder subtracts 1, anything else leaves the setpoint; no other field changes and there is no bound |
| Server.UpdateHumidityBounded | server.js:171-179 | "increase" and "decrease" move the humidity setpoint by one inside the range, any other action only clamps it, and it always ends in [0, 100] |
| Server.SetPowerEffects | server.js:195-205 | set-power publishes exactly one SET_POWER with the given value, and stores it only when it is "ON" or "OFF" |
| Server.SetModeEffects | server.js:220-234 | set-mode changes only for the four modes, and publishes SET_MODE exactly when the device is ON |
| Server.PreservesConsistent | server.js:100-240 | every handler keeps the store consistent: listed devices exist, no user lists a device twice, humidity setpoints stay in [0, 100] |

## Left out

- Express routing, EJS rendering, sessions, bcrypt, and the login, sign-up, logout and dashboard routes (server.js:1-98, 242-244) are web plumbing and foreign crypto. A session is only an optional user id. Accounts enter the model through the `Store` constructor, each with an empty device list, as sign-up creates them.
- Mongoose persistence and the database connection (database/connect.js is not part of this model). The collections are in-memory maps. Each message or request is one atomic step, so a failed intermediate `save()` cannot leave a partial update.
- The MQTT connection, the subscription and the transport. The outbox is a sequence of structured commands, not JSON strings, and `JSON.stringify` is not modelled. A message arrives already parsed, or marked unparseable.
- Concurrency: interleaving between `await`s and per-device serialisation. For messages handled one after another, `Mqtt.StateReflectsDecision` states that after an evaluated message the state reflects that message's decision; a message that follows an automation power-off is not evaluated (`Mqtt.OffDecisionSilencesLaterMessages`).
- IEEE floats. Numbers are finite reals or NaN. `JSON.parse` can produce `Infinity` (for example from `1e999`), which passes `validateSensorPayload` in the source; the model cannot express it.
- The text of a number in a SET_MODE log description: JavaScript's number-to-string conversion is a parameter `fmt` of the handler.
- `new Date()`: the log timestamp is a parameter of the handler.
- Form fields that are missing altogether (`undefined`). The model takes every field as a string; add-device's falsy check on `macAddress` becomes a check for the empty string.
- `Telemetry.Field`: a property lookup on an array or string yields `undefined`. This is exact for the four non-index keys the source reads, but does not model index keys.
- `console.log` output, and the catch blocks that only log.
- The device simulator (iot-device-simulator.js): random data, timers and network I/O. `Telemetry.Payload` models the shape of what it publishes.
