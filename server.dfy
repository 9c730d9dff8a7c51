/**
 * The user command handlers of server.js. A request carries the session's
 * user id, if any, and the form fields; each handler is one atomic step on
 * the shared state.
 */
module Server {
  import opened Wrappers
  import opened Models
  import opened Telemetry
  import opened Store

  /** What the handler answers. */
  datatype Status =
    | Unauthorized         // 401 when the session has no userId
    | RedirectToDashboard
    | ServerError          // 500 from the catch block
    | NoResponse           // add-device without a user or a MAC address answers nothing

  datatype Request =
    | AddDeviceReq(mac: DeviceId)
    | ToggleAutomationReq(mac: DeviceId)
    | UpdateTempReq(mac: DeviceId, action: string)
    | UpdateHumidityReq(mac: DeviceId, action: string)
    | SetPowerReq(mac: DeviceId, power: string)
    | SetModeReq(mac: DeviceId, mode: string)

  function TempStep(action: string): real {
    if action == "warmer" then 1.0 else if action == "colder" then -1.0 else 0.0
  }

  function RhStep(action: string): real {
    if action == "increase" then 1.0 else if action == "decrease" then -1.0 else 0.0
  }

  /** The two bound checks after the humidity step. */
  function ClampRh(x: real): (r: real)
    ensures 0.0 <= r <= 100.0
    ensures 0.0 <= x <= 100.0 ==> r == x
    ensures x < 0.0 ==> r == 0.0
    ensures x > 100.0 ==> r == 100.0
  {
    var y := if x < 0.0 then 0.0 else x;
    if y > 100.0 then 100.0 else y
  }

  function AfterAddDevice(s: State, user: UserId, mac: DeviceId): State {
    if user !in s.users || mac == "" then s
    else
      var devices := if mac in s.devices then s.devices else s.devices[mac := NewDevice()];
      var u := s.users[user];
      var users := if mac in u.deviceIds then s.users
                   else s.users[user := u.(deviceIds := u.deviceIds + [mac])];
      s.(devices := devices, users := users)
  }

  /** A handler that rewrites one field of a known device and publishes nothing. */
  function AfterDeviceUpdate(s: State, req: Request): State
    requires req.ToggleAutomationReq? || req.UpdateTempReq? || req.UpdateHumidityReq?
  {
    if req.mac !in s.devices then s
    else
      var d := s.devices[req.mac];
      var d' := match req
        case ToggleAutomationReq(_) => d.(automationMode := !d.automationMode)
        case UpdateTempReq(_, action) => d.(targetTemp := d.targetTemp + TempStep(action))
        case UpdateHumidityReq(_, action) => d.(targetRh := ClampRh(d.targetRh + RhStep(action)));
      s.(devices := s.devices[req.mac := d'])
  }

  /** The command is published before the save; a value outside the enum is not saved. */
  function AfterSetPower(s: State, mac: DeviceId, power: string): State {
    if mac !in s.devices then s
    else
      var published := s.(outbox := s.outbox + [Outbound(DownTopic(mac), SetPowerCmd(power))]);
      match ParsePower(power)
      case None => published
      case Some(p) => published.(devices := s.devices[mac := s.devices[mac].(power := p)])
  }

  function AfterSetMode(s: State, mac: DeviceId, mode: string): State {
    match ParseMode(mode)
    case None => s
    case Some(m) =>
      if mac !in s.devices then s
      else
        var d := s.devices[mac].(mode := m);
        var outbox := if d.power == On then s.outbox + [Outbound(DownTopic(mac), SetModeCmd(m))] else s.outbox;
        s.(devices := s.devices[mac := d], outbox := outbox)
  }

  /** The state after a request; without a session nothing happens. */
  function Apply(s: State, session: Option<UserId>, req: Request): State {
    match session
    case None => s
    case Some(user) =>
      match req
      case AddDeviceReq(mac) => AfterAddDevice(s, user, mac)
      case SetPowerReq(mac, power) => AfterSetPower(s, mac, power)
      case SetModeReq(mac, mode) => AfterSetMode(s, mac, mode)
      case _ => AfterDeviceUpdate(s, req)
  }

  /** The answer to a request. */
  function Reply(s: State, session: Option<UserId>, req: Request): Status {
    if session.None? then Unauthorized
    else match req
      case AddDeviceReq(mac) =>
        if session.value in s.users && mac != "" then RedirectToDashboard else NoResponse
      case SetPowerReq(mac, power) =>
        if mac in s.devices && ParsePower(power).None? then ServerError else RedirectToDashboard
      case _ => RedirectToDashboard
  }

  // ---------------------------------------------------------------------
  // The handlers

  method AddDevice(st: Store, session: Option<UserId>, macAddress: DeviceId) returns (status: Status)
    modifies st
    ensures st.Snapshot() == Apply(old(st.Snapshot()), session, AddDeviceReq(macAddress))
    ensures status == Reply(old(st.Snapshot()), session, AddDeviceReq(macAddress))
  {
    if session.None? {
      return Unauthorized;
    }
    var userId := session.value;
    if userId !in st.users || macAddress == "" {
      return NoResponse;
    }
    var user := st.users[userId];
    if macAddress !in st.devices {
      st.devices := st.devices[macAddress := NewDevice()];
    }
    if macAddress !in user.deviceIds {
      user := user.(deviceIds := user.deviceIds + [macAddress]);
      st.users := st.users[userId := user];
    }
    return RedirectToDashboard;
  }

  method ToggleAutomation(st: Store, session: Option<UserId>, macAddress: DeviceId) returns (status: Status)
    modifies st
    ensures st.Snapshot() == Apply(old(st.Snapshot()), session, ToggleAutomationReq(macAddress))
    ensures status == Reply(old(st.Snapshot()), session, ToggleAutomationReq(macAddress))
  {
    if session.None? {
      return Unauthorized;
    }
    if macAddress in st.devices {
      var device := st.devices[macAddress];
      device := device.(automationMode := !device.automationMode);
      st.devices := st.devices[macAddress := device];
    }
    return RedirectToDashboard;
  }

  method UpdateTemp(st: Store, session: Option<UserId>, macAddress: DeviceId, action: string) returns (status: Status)
    modifies st
    ensures st.Snapshot() == Apply(old(st.Snapshot()), session, UpdateTempReq(macAddress, action))
    ensures status == Reply(old(st.Snapshot()), session, UpdateTempReq(macAddress, action))
  {
    if session.None? {
      return Unauthorized;
    }
    if macAddress in st.devices {
      var device := st.devices[macAddress];
      if action == "warmer" {
        device := device.(targetTemp := device.targetTemp + 1.0);
      } else if action == "colder" {
        device := device.(targetTemp := device.targetTemp - 1.0);
      }
      st.devices := st.devices[macAddress := device];
    }
    return RedirectToDashboard;
  }

  method UpdateHumidity(st: Store, session: Option<UserId>, macAddress: DeviceId, action: string) returns (status: Status)
    modifies st
    ensures st.Snapshot() == Apply(old(st.Snapshot()), session, UpdateHumidityReq(macAddress, action))
    ensures status == Reply(old(st.Snapshot()), session, UpdateHumidityReq(macAddress, action))
  {
    if session.None? {
      return Unauthorized;
    }
    if macAddress in st.devices {
      var device := st.devices[macAddress];
      if action == "increase" {
        device := device.(targetRh := device.targetRh + 1.0);
      } else if action == "decrease" {
        device := device.(targetRh := device.targetRh - 1.0);
      }
      if device.targetRh < 0.0 {
        device := device.(targetRh := 0.0);
      }
      if device.targetRh > 100.0 {
        device := device.(targetRh := 100.0);
      }
      st.devices := st.devices[macAddress := device];
    }
    return RedirectToDashboard;
  }

  method SetPower(st: Store, session: Option<UserId>, macAddress: DeviceId, power: string) returns (status: Status)
    modifies st
    ensures st.Snapshot() == Apply(old(st.Snapshot()), session, SetPowerReq(macAddress, power))
    ensures status == Reply(old(st.Snapshot()), session, SetPowerReq(macAddress, power))
  {
    if session.None? {
      return Unauthorized;
    }
    if macAddress in st.devices {
      var device := st.devices[macAddress];
      st.outbox := st.outbox + [Outbound(DownTopic(macAddress), SetPowerCmd(power))];
      var stored := ParsePower(power);
      if stored.None? {
        return ServerError;  // save() rejects a value outside the enum
      }
      device := device.(power := stored.value);
      st.devices := st.devices[macAddress := device];
    }
    return RedirectToDashboard;
  }

  method SetMode(st: Store, session: Option<UserId>, macAddress: DeviceId, mode: string) returns (status: Status)
    modifies st
    ensures st.Snapshot() == Apply(old(st.Snapshot()), session, SetModeReq(macAddress, mode))
    ensures status == Reply(old(st.Snapshot()), session, SetModeReq(macAddress, mode))
  {
    if session.None? {
      return Unauthorized;
    }
    var m := ParseMode(mode);
    if macAddress in st.devices && m.Some? {
      var device := st.devices[macAddress];
      device := device.(mode := m.value);
      st.devices := st.devices[macAddress := device];
      if device.power == On {
        st.outbox := st.outbox + [Outbound(DownTopic(macAddress), SetModeCmd(m.value))];
      }
    }
    return RedirectToDashboard;
  }

  // ---------------------------------------------------------------------
  // Properties

  /** Without a session every handler answers 401 and changes nothing. */
  lemma SessionRequired(s: State, req: Request)
    ensures Apply(s, None, req) == s && Reply(s, None, req) == Unauthorized
  {
  }

  /** No handler writes an audit entry or touches another device; only add-device changes accounts. */
  lemma NoLogAndLocal(s: State, session: Option<UserId>, req: Request)
    ensures var s' := Apply(s, session, req);
            && s'.log == s.log
            && s.devices.Keys <= s'.devices.Keys
            && (forall id :: id in s.devices && id != req.mac ==> s'.devices[id] == s.devices[id])
            && (!req.AddDeviceReq? ==> s'.users == s.users)
  {
  }

  /** The setpoint, toggle and add-device handlers publish nothing; the others publish at most once. */
  lemma Publications(s: State, session: Option<UserId>, req: Request)
    ensures var s' := Apply(s, session, req);
            && s.outbox <= s'.outbox && |s'.outbox| <= |s.outbox| + 1
            && (req.AddDeviceReq? || req.ToggleAutomationReq? || req.UpdateTempReq? || req.UpdateHumidityReq? ==>
                  s'.outbox == s.outbox)
  {
  }

  /** An unknown device is a no-op for every handler but add-device (set-power answers as usual). */
  lemma UnknownDeviceIsNoOp(s: State, session: Option<UserId>, req: Request)
    requires !req.AddDeviceReq? && req.mac !in s.devices
    ensures Apply(s, session, req) == s
  {
  }

  /** add-device registers the device with its defaults only if absent, and lists it for the user. */
  lemma AddDeviceRegisters(s: State, user: UserId, mac: DeviceId)
    requires user in s.users && mac != ""
    ensures var s' := Apply(s, Some(user), AddDeviceReq(mac));
            && mac in s'.devices
            && s'.devices[mac] == (if mac in s.devices then s.devices[mac] else NewDevice())
            && mac in s'.users[user].deviceIds
            && (mac in s.users[user].deviceIds ==> s'.users == s.users)
            && (forall u :: u in s.users && u != user ==> s'.users[u] == s.users[u])
  {
  }

  /** add-device twice is add-device once. */
  lemma AddDeviceIdempotent(s: State, session: Option<UserId>, mac: DeviceId)
    ensures var s1 := Apply(s, session, AddDeviceReq(mac));
            Apply(s1, session, AddDeviceReq(mac)) == s1
  {
  }

  /** toggle-automation twice restores the device. */
  /** One toggle negates `automation_mode` of the named device and changes nothing else. */
  lemma ToggleNegates(s: State, user: UserId, mac: DeviceId)
    requires mac in s.devices
    ensures Apply(s, Some(user), ToggleAutomationReq(mac)) ==
            s.(devices := s.devices[mac := s.devices[mac].(automationMode := !s.devices[mac].automationMode)])
  {
  }

  lemma ToggleTwiceRestores(s: State, session: Option<UserId>, mac: DeviceId)
    ensures Apply(Apply(s, session, ToggleAutomationReq(mac)), session, ToggleAutomationReq(mac)) == s
  {
  }

  /** "warmer" adds one degree, "colder" takes one, anything else keeps the setpoint; there is no bound. */
  lemma UpdateTempShifts(s: State, user: UserId, mac: DeviceId, action: string)
    requires mac in s.devices
    ensures var d' := Apply(s, Some(user), UpdateTempReq(mac, action)).devices[mac];
            && d' == s.devices[mac].(targetTemp := d'.targetTemp)
            && (action == "warmer" ==> d'.targetTemp == s.devices[mac].targetTemp + 1.0)
            && (action == "colder" ==> d'.targetTemp == s.devices[mac].targetTemp - 1.0)
            && (action != "warmer" && action != "colder" ==> d'.targetTemp == s.devices[mac].targetTemp)
  {
  }

  /** The humidity setpoint moves by one, is clamped after any action, and always ends in [0, 100]. */
  lemma UpdateHumidityBounded(s: State, user: UserId, mac: DeviceId, action: string)
    requires mac in s.devices
    ensures var rh := s.devices[mac].targetRh;
            var d' := Apply(s, Some(user), UpdateHumidityReq(mac, action)).devices[mac];
            && d' == s.devices[mac].(targetRh := d'.targetRh)
            && 0.0 <= d'.targetRh <= 100.0
            && (action == "increase" && 0.0 <= rh <= 99.0 ==> d'.targetRh == rh + 1.0)
            && (action == "decrease" && 1.0 <= rh <= 100.0 ==> d'.targetRh == rh - 1.0)
            && (action == "increase" && rh >= 100.0 ==> d'.targetRh == 100.0)
            && (action == "decrease" && rh <= 0.0 ==> d'.targetRh == 0.0)
            && (action != "increase" && action != "decrease" ==> d'.targetRh == ClampRh(rh))
  {
  }

  /** set-power publishes exactly one SET_POWER command and stores the power when it is "ON" or "OFF". */
  lemma SetPowerEffects(s: State, user: UserId, mac: DeviceId, power: string)
    requires mac in s.devices
    ensures var s' := Apply(s, Some(user), SetPowerReq(mac, power));
            && s'.outbox == s.outbox + [Outbound(DownTopic(mac), SetPowerCmd(power))]
            && (power == "ON" ==> s'.devices[mac] == s.devices[mac].(power := On))
            && (power == "OFF" ==> s'.devices[mac] == s.devices[mac].(power := Off))
            && (power != "ON" && power != "OFF" ==> s'.devices == s.devices)
  {
  }

  /** set-mode stores only the four modes, and publishes SET_MODE exactly when the device is ON. */
  lemma SetModeEffects(s: State, user: UserId, mac: DeviceId, mode: string)
    requires mac in s.devices
    ensures var s' := Apply(s, Some(user), SetModeReq(mac, mode));
            && (ParseMode(mode).None? ==> s' == s)
            && (ParseMode(mode).Some? ==>
                  && s'.devices[mac] == s.devices[mac].(mode := ParseMode(mode).value)
                  && (s.devices[mac].power == On <==> s'.outbox == s.outbox + [Outbound(DownTopic(mac), SetModeCmd(ParseMode(mode).value))])
                  && (s.devices[mac].power == Off <==> s'.outbox == s.outbox))
  {
  }

  /** Every handler keeps the shared state consistent. */
  lemma PreservesConsistent(s: State, session: Option<UserId>, req: Request)
    requires Consistent(s)
    ensures Consistent(Apply(s, session, req))
  {
  }
}
