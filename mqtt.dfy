/**
 * The telemetry -> automation state machine (the `message` handler of
 * mqtt.js). Each message is one atomic step on the shared state.
 */
module Mqtt {
  import opened Wrappers
  import opened Models
  import opened Algorithm
  import opened Telemetry
  import opened Store

  /** The evaluation guard: automation on AND power ON. */
  predicate Evaluates(d: Device) {
    d.automationMode && d.power == On
  }

  /** The decision for a device's setpoints and a snapshot. */
  function DecisionFor(d: Device, r: Readings): Decision {
    G36Control(Inputs(r.temperature1, r.humidity1, r.temperature2, Some(d.targetTemp), Some(d.targetRh)))
  }

  function PowerOffDescription(c: Decision): string {
    "AC turned OFF - " + c.reason
  }

  /** `fmt` is JavaScript's number-to-string conversion. */
  function ModeDescription(c: Decision, fmt: real -> string): string
    requires c.mode.Active?
  {
    var target := match c.targetTemperature
      case Some(t) => fmt(t)
      case None => "N/A";
    "Mode set to " + ModeName(c.mode.mode) + ", target temp: " + target + "°C - " + c.reason
  }

  /** What an evaluated decision does: the device's new record, one command and one log entry. */
  datatype Effect = Effect(device: Device, command: Outbound, entry: ActionLog)

  /** An "OFF" decision powers the device off; any other decision sets its mode (power stays ON). */
  function Automate(mac: DeviceId, d: Device, c: Decision, now: Timestamp, fmt: real -> string): Effect {
    match c.mode
    case ModeOff =>
      Effect(d.(power := Off),
             Outbound(DownTopic(mac), SetPowerCmd("OFF")),
             ActionLog(AutomationActor, SetPowerAction, PowerOffDescription(c), now, mac))
    case Active(m) =>
      Effect(d.(mode := m, power := On),
             Outbound(DownTopic(mac), SetAcCmd(m, c.reason, c.targetTemperature)),
             ActionLog(AutomationActor, SetModeAction, ModeDescription(c, fmt), now, mac))
  }

  /** The device record with the snapshot's indoor readings stored. */
  function Observed(d: Device, r: Readings): Device {
    d.(currentTemp := Some(r.temperature1), currentRh := Some(r.humidity1))
  }

  /** The state after one inbound message on `topic`. */
  function OnMessage(s: State, topic: string, message: Message, now: Timestamp, fmt: real -> string): State {
    if message.Unparseable? then s
    else
      match (ReadingsOf(message.data), DeviceIdOf(topic))
      case (Some(r), Some(mac)) =>
        if mac !in s.devices then s
        else
          var d := Observed(s.devices[mac], r);
          if !Evaluates(d) then s.(devices := s.devices[mac := d])
          else
            var e := Automate(mac, d, DecisionFor(d, r), now, fmt);
            s.(devices := s.devices[mac := e.device], outbox := s.outbox + [e.command], log := s.log + [e.entry])
      case _ => s
  }

  /** The handler, step by step as the source writes it. */
  method HandleMessage(st: Store, topic: string, message: Message, now: Timestamp, fmt: real -> string)
    modifies st
    ensures st.Snapshot() == OnMessage(old(st.Snapshot()), topic, message, now, fmt)
  {
    if message.Unparseable? {
      return;  // JSON.parse threw; the error is caught
    }
    var data := message.data;
    var macAddress := DeviceIdOf(topic);
    if !ValidateSensorPayload(data) {
      return;
    }
    if macAddress.None? || macAddress.value !in st.devices {
      return;  // findById finds nothing
    }
    var mac := macAddress.value;
    var device := st.devices[mac];
    var tRoom := Field(data, "temperature1").n.value;
    var rhRoom := Field(data, "humidity1").n.value;
    var tOutdoor := Field(data, "temperature2").n.value;

    // current readings are saved whatever the automation state
    device := device.(currentTemp := Some(tRoom), currentRh := Some(rhRoom));
    st.devices := st.devices[mac := device];

    if !(device.automationMode && device.power == On) {
      return;
    }
    var c := G36Control(Inputs(tRoom, rhRoom, tOutdoor, Some(device.targetTemp), Some(device.targetRh)));

    if c.mode != ModeOff && c.mode.mode != device.mode {
      device := device.(mode := c.mode.mode);
      st.devices := st.devices[mac := device];
    }

    if c.mode == ModeOff {
      if device.power == On {
        device := device.(power := Off);
        st.devices := st.devices[mac := device];
        st.outbox := st.outbox + [Outbound(DownTopic(mac), SetPowerCmd("OFF"))];
        st.log := st.log + [ActionLog(AutomationActor, SetPowerAction, PowerOffDescription(c), now, mac)];
      }
    } else {
      // The guard above required power ON and nothing since has changed it,
      // so the power-on branch below is never taken.
      assert device.power == On;
      if device.power != On {
        device := device.(power := On);
      }
      st.devices := st.devices[mac := device];
      var command := SetAcCmd(c.mode.mode, c.reason, None);
      if c.targetTemperature.Some? {
        command := command.(targetTemp := c.targetTemperature);
      }
      st.outbox := st.outbox + [Outbound(DownTopic(mac), command)];
      st.log := st.log + [ActionLog(AutomationActor, SetModeAction, ModeDescription(c, fmt), now, mac)];
    }
  }

  // ---------------------------------------------------------------------
  // Properties of one message

  /** The snapshot and device a message resolves to, when it is accepted. */
  predicate Accepted(s: State, topic: string, message: Message, mac: DeviceId) {
    && message.Parsed?
    && ValidateSensorPayload(message.data)
    && DeviceIdOf(topic) == Some(mac)
    && mac in s.devices
  }

  /** An unparseable or invalid payload, or an unknown device, changes nothing. */
  lemma RejectedIsNoOp(s: State, topic: string, message: Message, now: Timestamp, fmt: real -> string)
    requires forall mac :: !Accepted(s, topic, message, mac)
    ensures OnMessage(s, topic, message, now, fmt) == s
  {
    if message.Parsed? && ValidateSensorPayload(message.data) && DeviceIdOf(topic).Some? {
      assert !Accepted(s, topic, message, DeviceIdOf(topic).value);
    }
  }

  /** Only the addressed device changes; accounts stay; the outbox and the log only grow. */
  lemma Frame(s: State, topic: string, message: Message, now: Timestamp, fmt: real -> string)
    ensures var s' := OnMessage(s, topic, message, now, fmt);
            && s'.devices.Keys == s.devices.Keys
            && s'.users == s.users
            && (forall id :: id in s.devices && Some(id) != DeviceIdOf(topic) ==> s'.devices[id] == s.devices[id])
            && s.outbox <= s'.outbox && s.log <= s'.log
            && |s'.outbox| - |s.outbox| == |s'.log| - |s.log| <= 1
  {
  }

  /** An accepted message stores the indoor readings, whether or not automation runs; setpoints never change. */
  lemma ReadingsRecorded(s: State, topic: string, message: Message, mac: DeviceId, now: Timestamp, fmt: real -> string)
    requires Accepted(s, topic, message, mac)
    ensures var d' := OnMessage(s, topic, message, now, fmt).devices[mac];
            && d'.currentTemp == Some(Field(message.data, "temperature1").n.value)
            && d'.currentRh == Some(Field(message.data, "humidity1").n.value)
            && d'.targetTemp == s.devices[mac].targetTemp
            && d'.targetRh == s.devices[mac].targetRh
            && d'.automationMode == s.devices[mac].automationMode
  {
  }

  /** With automation off or power OFF, storing the readings is the only effect. */
  lemma NotEvaluatedOnlyRecords(s: State, topic: string, message: Message, mac: DeviceId, now: Timestamp, fmt: real -> string)
    requires Accepted(s, topic, message, mac) && !Evaluates(s.devices[mac])
    ensures OnMessage(s, topic, message, now, fmt) ==
            s.(devices := s.devices[mac := Observed(s.devices[mac], ReadingsOf(message.data).value)])
  {
  }

  /**
   * The stored mode changes only to the mode of a non-"OFF" decision; at other
   * times it keeps its value, so it is never assigned "OFF".
   */
  lemma ModeFollowsActiveDecision(s: State, topic: string, message: Message, mac: DeviceId, now: Timestamp, fmt: real -> string)
    requires Accepted(s, topic, message, mac)
    ensures var d := s.devices[mac];
            var d' := OnMessage(s, topic, message, now, fmt).devices[mac];
            d'.mode != d.mode ==>
              Evaluates(d) && DecisionFor(d, ReadingsOf(message.data).value).mode == Active(d'.mode)
  {
  }

  /**
   * An "OFF" decision (lockout or comfort) on an evaluated device: power OFF,
   * one SET_POWER/OFF command to the device's `down` topic, one
   * AUTOMATION/SET_POWER entry carrying the reason, and nothing else.
   */
  lemma OffDecisionEffects(s: State, topic: string, message: Message, mac: DeviceId, now: Timestamp, fmt: real -> string)
    requires Accepted(s, topic, message, mac) && Evaluates(s.devices[mac])
    requires DecisionFor(s.devices[mac], ReadingsOf(message.data).value).mode == ModeOff
    ensures var r := ReadingsOf(message.data).value;
            var c := DecisionFor(s.devices[mac], r);
            OnMessage(s, topic, message, now, fmt) ==
            s.(devices := s.devices[mac := Observed(s.devices[mac], r).(power := Off)],
               outbox := s.outbox + [Outbound(DownTopic(mac), SetPowerCmd("OFF"))],
               log := s.log + [ActionLog(AutomationActor, SetPowerAction, "AC turned OFF - " + c.reason, now, mac)])
  {
  }

  /**
   * A non-"OFF" decision: the mode is set, power stays ON, and one SET_AC
   * command and one AUTOMATION/SET_MODE entry are written even when the
   * mode was already the decided one.
   */
  lemma ActiveDecisionEffects(s: State, topic: string, message: Message, mac: DeviceId, now: Timestamp, fmt: real -> string)
    requires Accepted(s, topic, message, mac) && Evaluates(s.devices[mac])
    requires DecisionFor(s.devices[mac], ReadingsOf(message.data).value).mode.Active?
    ensures var r := ReadingsOf(message.data).value;
            var c := DecisionFor(s.devices[mac], r);
            var s' := OnMessage(s, topic, message, now, fmt);
            && s'.devices[mac] == Observed(s.devices[mac], r).(mode := c.mode.mode)
            && s'.devices[mac].power == On
            && s'.outbox == s.outbox + [Outbound(DownTopic(mac), SetAcCmd(c.mode.mode, c.reason, c.targetTemperature))]
            && s'.log == s.log + [ActionLog(AutomationActor, SetModeAction, ModeDescription(c, fmt), now, mac)]
  {
  }

  /** The state after an evaluated message agrees with that message's decision. */
  lemma StateReflectsDecision(s: State, topic: string, message: Message, mac: DeviceId, now: Timestamp, fmt: real -> string)
    requires Accepted(s, topic, message, mac) && Evaluates(s.devices[mac])
    ensures var c := DecisionFor(s.devices[mac], ReadingsOf(message.data).value);
            var d' := OnMessage(s, topic, message, now, fmt).devices[mac];
            && (c.mode == ModeOff ==> d'.power == Off && d'.mode == s.devices[mac].mode)
            && (c.mode.Active? ==> d'.power == On && d'.mode == c.mode.mode)
  {
  }

  /**
   * Automation never turns a device ON (the power-on branch is unreachable),
   * and a message for a device that is OFF sends and logs nothing.
   */
  lemma NeverPowersOn(s: State, topic: string, message: Message, mac: DeviceId, now: Timestamp, fmt: real -> string)
    requires mac in s.devices && s.devices[mac].power == Off
    ensures var s' := OnMessage(s, topic, message, now, fmt);
            && s'.devices[mac].power == Off
            && (DeviceIdOf(topic) == Some(mac) ==> s'.outbox == s.outbox && s'.log == s.log)
  {
  }

  // ---------------------------------------------------------------------
  // Properties of repeated messages

  /** Once a message has turned a device OFF, the same message again changes nothing at all. */
  lemma RepeatAfterOffIsNoOp(s: State, topic: string, message: Message, mac: DeviceId, now: Timestamp, later: Timestamp, fmt: real -> string)
    requires Accepted(s, topic, message, mac) && Evaluates(s.devices[mac])
    requires DecisionFor(s.devices[mac], ReadingsOf(message.data).value).mode == ModeOff
    ensures var s1 := OnMessage(s, topic, message, now, fmt);
            OnMessage(s1, topic, message, later, fmt) == s1
  {
  }

  /** A repeated message with a non-"OFF" decision sends the SET_AC command and the entry again. */
  lemma RepeatActiveResends(s: State, topic: string, message: Message, mac: DeviceId, now: Timestamp, later: Timestamp, fmt: real -> string)
    requires Accepted(s, topic, message, mac) && Evaluates(s.devices[mac])
    requires DecisionFor(s.devices[mac], ReadingsOf(message.data).value).mode.Active?
    ensures var s1 := OnMessage(s, topic, message, now, fmt);
            var s2 := OnMessage(s1, topic, message, later, fmt);
            && s2.devices == s1.devices
            && s2.outbox == s1.outbox + [s1.outbox[|s1.outbox| - 1]]
            && |s2.log| == |s1.log| + 1
  {
  }

  /**
   * The later of two messages does not always win: once an "OFF" decision has
   * turned a device OFF, no later message is evaluated for it, whatever that
   * message's own decision would be.
   */
  lemma OffDecisionSilencesLaterMessages(s: State, topic: string, first: Message, second: Message, mac: DeviceId,
                                         now: Timestamp, later: Timestamp, fmt: real -> string)
    requires Accepted(s, topic, first, mac) && Evaluates(s.devices[mac])
    requires DecisionFor(s.devices[mac], ReadingsOf(first.data).value).mode == ModeOff
    ensures var s1 := OnMessage(s, topic, first, now, fmt);
            var s2 := OnMessage(s1, topic, second, later, fmt);
            && mac in s2.devices && s2.devices[mac].power == Off
            && s2.outbox == s1.outbox && s2.log == s1.log
  {
    OffDecisionEffects(s, topic, first, mac, now, fmt);
    NeverPowersOn(OnMessage(s, topic, first, now, fmt), topic, second, mac, later, fmt);
  }

  /**
   * An instance: at setpoints 26/60, a comfort reading turns the device OFF;
   * a later reading that on its own decides COOL leaves it OFF.
   */
  lemma ComfortThenCoolStaysOff(mac: DeviceId, d: Device, r1: Readings, r2: Readings,
                                 now: Timestamp, later: Timestamp, fmt: real -> string)
    requires '/' !in mac
    requires d == Device(26.0, 60.0, None, None, true, On, Cool)
    requires r1 == Readings(26.0, 50.0, 30.0, 50.0) && r2 == Readings(30.0, 50.0, 30.0, 50.0)
    ensures DecisionFor(d, r1).mode == ModeOff
    ensures DecisionFor(d, r2).mode == Active(Cool)
    ensures var s := State(map[mac := d], map[], [], []);
            var s1 := OnMessage(s, UpTopic(mac), Parsed(Payload(r1)), now, fmt);
            var s2 := OnMessage(s1, UpTopic(mac), Parsed(Payload(r2)), later, fmt);
            mac in s2.devices && s2.devices[mac].power == Off
  {
    var s := State(map[mac := d], map[], [], []);
    DeviceIdOfUpTopic(mac);
    PayloadRoundTrip(r1);
    OffDecisionSilencesLaterMessages(s, UpTopic(mac), Parsed(Payload(r1)), Parsed(Payload(r2)), mac, now, later, fmt);
  }

  /** Every handled message keeps the shared state consistent. */
  lemma PreservesConsistent(s: State, topic: string, message: Message, now: Timestamp, fmt: real -> string)
    requires Consistent(s)
    ensures Consistent(OnMessage(s, topic, message, now, fmt))
  {
  }
}
