/**
 * The persisted record shapes (database/models.js): devices, users and
 * audit-log entries, with their enumerations and defaults.
 */
module Models {
  import opened Wrappers

  /** A device is keyed by its MAC address, the document's `_id`. */
  type DeviceId = string
  type UserId = string
  /** `new Date()` at the moment of logging, supplied by the caller. */
  type Timestamp = int

  /** `power` is a String restricted to the enum ["ON", "OFF"]. */
  datatype Power = On | Off

  /** `mode` is a String restricted to ["DRY", "COOL", "FAN", "HEAT"]; "OFF" is not storable. */
  datatype Mode = Dry | Cool | Fan | Heat

  /** `actor` of a log entry: ["AUTOMATION", "USER"]. */
  datatype Actor = AutomationActor | UserActor

  /** `actionType` of a log entry: ["SET_POWER", "SET_MODE"]. */
  datatype ActionType = SetPowerAction | SetModeAction

  function PowerName(p: Power): string {
    match p
    case On => "ON"
    case Off => "OFF"
  }

  function ModeName(m: Mode): string {
    match m
    case Dry => "DRY"
    case Cool => "COOL"
    case Fan => "FAN"
    case Heat => "HEAT"
  }

  /** The enum validator of the `power` path: only the exact names are accepted. */
  function ParsePower(s: string): (r: Option<Power>)
    ensures r.Some? <==> s == "ON" || s == "OFF"
    ensures r.Some? ==> PowerName(r.value) == s
  {
    if s == "ON" then Some(On)
    else if s == "OFF" then Some(Off)
    else None
  }

  /** The enum of the `mode` path, also the guard list of the set-mode handler. */
  function ParseMode(s: string): (r: Option<Mode>)
    ensures r.Some? <==> s == "DRY" || s == "COOL" || s == "FAN" || s == "HEAT"
    ensures r.Some? ==> ModeName(r.value) == s
  {
    if s == "DRY" then Some(Dry)
    else if s == "COOL" then Some(Cool)
    else if s == "FAN" then Some(Fan)
    else if s == "HEAT" then Some(Heat)
    else None
  }

  lemma PowerNameRoundTrip(p: Power)
    ensures ParsePower(PowerName(p)) == Some(p)
  {
  }

  lemma ModeNameRoundTrip(m: Mode)
    ensures ParseMode(ModeName(m)) == Some(m)
    ensures ModeName(m) != "OFF"
  {
  }

  /** A device document; `current_temp` and `current_rh` have no default and start unset. */
  datatype Device = Device(
    targetTemp: real,
    targetRh: real,
    currentTemp: Option<real>,
    currentRh: Option<real>,
    automationMode: bool,
    power: Power,
    mode: Mode)

  const DefaultTargetTemp: real := 25.0
  const DefaultTargetRh: real := 60.0

  /** `new Device({ _id })`: every field not given takes its schema default. */
  function NewDevice(): Device {
    Device(DefaultTargetTemp, DefaultTargetRh, None, None, false, Off, Cool)
  }

  lemma NewDeviceDefaults()
    ensures NewDevice().targetTemp == 25.0 && NewDevice().targetRh == 60.0
    ensures NewDevice().currentTemp.None? && NewDevice().currentRh.None?
    ensures !NewDevice().automationMode && NewDevice().power == Off && NewDevice().mode == Cool
  {
  }

  /** A user account; `device_ids` lists the MAC addresses the user has added. */
  datatype User = User(username: string, passwordHash: string, deviceIds: seq<DeviceId>)

  /** An audit-log entry; timestamp and device address are required. */
  datatype ActionLog = ActionLog(
    actor: Actor,
    actionType: ActionType,
    description: string,
    timestamp: Timestamp,
    deviceMacAddress: DeviceId)

  const DefaultDescription: string := ""

  /** `new ActionLog({...})` where `description` may be omitted. */
  function NewActionLog(actor: Actor, actionType: ActionType, description: Option<string>,
                        timestamp: Timestamp, mac: DeviceId): ActionLog
  {
    ActionLog(actor, actionType, description.GetOr(DefaultDescription), timestamp, mac)
  }

  lemma ActionLogDescriptionDefault(actor: Actor, actionType: ActionType, timestamp: Timestamp, mac: DeviceId, text: string)
    ensures NewActionLog(actor, actionType, None, timestamp, mac).description == ""
    ensures NewActionLog(actor, actionType, Some(text), timestamp, mac).description == text
  {
  }
}
