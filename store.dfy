/**
 * The state shared by the telemetry handler and the web handlers: the device
 * and user collections, the outbound MQTT traffic and the audit log.
 */
module Store {
  import opened Wrappers
  import opened Models

  /** The JSON command objects published on a `down` topic. */
  datatype Command =
    | SetPowerCmd(power: string)                                     // { action: "SET_POWER", power }
    | SetModeCmd(mode: Mode)                                         // { action: "SET_MODE", mode }
    | SetAcCmd(mode: Mode, reason: string, targetTemp: Option<real>) // { action: "SET_AC", power: "ON", mode, reason, target_temp? }

  /** One `client.publish(topic, payload)`. */
  datatype Outbound = Outbound(topic: string, command: Command)

  datatype State = State(
    devices: map<DeviceId, Device>,
    users: map<UserId, User>,
    outbox: seq<Outbound>,
    log: seq<ActionLog>)

  predicate NoDuplicates(ids: seq<DeviceId>) {
    forall i, j :: 0 <= i < j < |ids| ==> ids[i] != ids[j]
  }

  /**
   * What every handler keeps: a user's devices are registered and listed once,
   * and every humidity setpoint lies in [0, 100].
   */
  ghost predicate Consistent(s: State) {
    && (forall u, k :: u in s.users && 0 <= k < |s.users[u].deviceIds| ==> s.users[u].deviceIds[k] in s.devices)
    && (forall u :: u in s.users ==> NoDuplicates(s.users[u].deviceIds))
    && (forall id :: id in s.devices ==> 0.0 <= s.devices[id].targetRh <= 100.0)
  }

  /** The in-memory stand-in for the database collections and the MQTT client. */
  class Store {
    var devices: map<DeviceId, Device>
    var users: map<UserId, User>
    var outbox: seq<Outbound>
    var log: seq<ActionLog>

    function Snapshot(): State
      reads this
    {
      State(devices, users, outbox, log)
    }

    /** Accounts come from sign-up, where each starts with no devices. */
    constructor (accounts: map<UserId, User>)
      requires forall u :: u in accounts ==> accounts[u].deviceIds == []
      ensures Snapshot() == State(map[], accounts, [], [])
      ensures Consistent(Snapshot())
    {
      devices := map[];
      users := accounts;
      outbox := [];
      log := [];
    }
  }
}
