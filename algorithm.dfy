/**
 * The HVAC decision rule (algorithm.js): a simplified rule chain in the
 * style of ASHRAE Guideline 36. First matching rule wins.
 */
module Algorithm {
  import opened Wrappers
  import opened Models

  // The `params` table.
  const DefaultTempSet: real := 26.0
  const DefaultRhSet: real := 60.0
  const Deadband: real := 2.0
  const EconomizerMax: real := 26.0
  const HeatEnable: real := 35.0
  const DryOffset: real := 1.0

  const HumidityReason: string := "Humidity above setpoint (G36)"
  const EconomizerReason: string := "Economizer cooling using outdoor air (G36)"
  const CoolingReason: string := "Mechanical cooling (G36)"
  const HeatingReason: string := "Heating mode (G36)"
  const LockoutReason: string := "Outdoor temperature above heating enable setpoint (Lockout)"
  const ComfortReason: string := "Within comfort deadband (G36)"

  /** The decided mode: one of the storable modes, or "OFF". */
  datatype ControlMode = Active(mode: Mode) | ModeOff

  /** The argument object of `g36Control`; the two setpoints may be null or undefined. */
  datatype Inputs = Inputs(
    tRoom: real,
    rhRoom: real,
    tOutdoor: real,
    userTempSet: Option<real>,
    userRhSet: Option<real>)

  /** `{ mode, targetTemperature, reason }`; a null target is `None`. */
  datatype Decision = Decision(mode: ControlMode, targetTemperature: Option<real>, reason: string)

  function TempSet(x: Inputs): real { x.userTempSet.GetOr(DefaultTempSet) }
  function RhSet(x: Inputs): real { x.userRhSet.GetOr(DefaultRhSet) }
  function HeatSetpoint(x: Inputs): real { TempSet(x) - Deadband / 2.0 }
  function CoolSetpoint(x: Inputs): real { TempSet(x) + Deadband / 2.0 }

  /** `g36Control`: the five rules, in order, each an early return. */
  function G36Control(x: Inputs): (c: Decision)
    // a null target exactly for free cooling and for the comfort band
    ensures c.targetTemperature.None? <==> c.mode == Active(Fan) || c.reason == ComfortReason
    // any target lies at or one degree below the heating setpoint
    ensures c.targetTemperature.Some? ==>
              c.targetTemperature.value == HeatSetpoint(x) ||
              c.targetTemperature.value == HeatSetpoint(x) - DryOffset
    // "OFF" only for the heating lockout or the comfort band
    ensures c.mode == ModeOff <==> c.reason == LockoutReason || c.reason == ComfortReason
  {
    var tHeat := HeatSetpoint(x);
    var tCool := CoolSetpoint(x);
    if x.rhRoom > RhSet(x) then
      Decision(Active(Dry), Some(tHeat - DryOffset), HumidityReason)
    else if x.tRoom > tCool && x.tOutdoor <= EconomizerMax then
      Decision(Active(Fan), None, EconomizerReason)
    else if x.tRoom > tCool then
      Decision(Active(Cool), Some(tHeat), CoolingReason)
    else if x.tRoom < tHeat then
      if x.tOutdoor < HeatEnable then
        Decision(Active(Heat), Some(tHeat), HeatingReason)
      else
        Decision(ModeOff, Some(tHeat), LockoutReason)
    else
      Decision(ModeOff, None, ComfortReason)
  }

  lemma DerivedSetpoints(x: Inputs)
    ensures x.userTempSet.None? ==> TempSet(x) == 26.0
    ensures x.userRhSet.None? ==> RhSet(x) == 60.0
    ensures HeatSetpoint(x) == TempSet(x) - 1.0 && CoolSetpoint(x) == TempSet(x) + 1.0
  {
  }

  /** Rule 1 preempts every temperature rule; equality does not trigger it. */
  lemma HumidityPriority(x: Inputs)
    ensures x.rhRoom > RhSet(x) <==> G36Control(x).mode == Active(Dry)
    ensures x.rhRoom > RhSet(x) ==>
              G36Control(x) == Decision(Active(Dry), Some(HeatSetpoint(x) - 1.0), HumidityReason)
  {
  }

  lemma Economizer(x: Inputs)
    requires x.rhRoom <= RhSet(x) && x.tRoom > CoolSetpoint(x) && x.tOutdoor <= 26.0
    ensures G36Control(x) == Decision(Active(Fan), None, EconomizerReason)
  {
  }

  lemma MechanicalCooling(x: Inputs)
    requires x.rhRoom <= RhSet(x) && x.tRoom > CoolSetpoint(x) && x.tOutdoor > 26.0
    ensures G36Control(x) == Decision(Active(Cool), Some(HeatSetpoint(x)), CoolingReason)
  {
  }

  lemma Heating(x: Inputs)
    requires x.rhRoom <= RhSet(x) && x.tRoom < HeatSetpoint(x)
    ensures x.tOutdoor < 35.0 ==> G36Control(x) == Decision(Active(Heat), Some(HeatSetpoint(x)), HeatingReason)
    ensures x.tOutdoor >= 35.0 ==> G36Control(x) == Decision(ModeOff, Some(HeatSetpoint(x)), LockoutReason)
  {
  }

  lemma ComfortBand(x: Inputs)
    requires x.rhRoom <= RhSet(x) && HeatSetpoint(x) <= x.tRoom <= CoolSetpoint(x)
    ensures G36Control(x) == Decision(ModeOff, None, ComfortReason)
  {
  }

  /** A worked example, and the cases on either side of the economizer, lockout and comfort boundaries. */
  lemma Examples()
    ensures G36Control(Inputs(20.0, 65.0, 30.0, Some(26.0), Some(60.0))) ==
            Decision(Active(Dry), Some(24.0), HumidityReason)
    ensures G36Control(Inputs(28.0, 50.0, 26.0, Some(26.0), Some(60.0))) ==
            Decision(Active(Fan), None, EconomizerReason)
    ensures G36Control(Inputs(28.0, 50.0, 26.01, Some(26.0), Some(60.0))) ==
            Decision(Active(Cool), Some(25.0), CoolingReason)
    ensures G36Control(Inputs(20.0, 50.0, 34.9, Some(26.0), Some(60.0))).mode == Active(Heat)
    ensures G36Control(Inputs(20.0, 50.0, 35.0, Some(26.0), Some(60.0))) ==
            Decision(ModeOff, Some(25.0), LockoutReason)
    ensures G36Control(Inputs(26.0, 50.0, 30.0, Some(26.0), Some(60.0))) ==
            Decision(ModeOff, None, ComfortReason)
    ensures G36Control(Inputs(26.0, 60.0, 30.0, None, None)).mode == ModeOff
  {
  }

  // ---------------------------------------------------------------------
  // An independent reading of the same rule set: an ordered table of
  // guard/decision pairs, evaluated first-match-wins.

  datatype Guard =
    | HumidityAboveSetpoint
    | EconomizerAvailable
    | RoomAboveCoolSetpoint
    | HeatingEnabled
    | RoomBelowHeatSetpoint
    | Otherwise

  predicate Holds(g: Guard, x: Inputs) {
    match g
    case HumidityAboveSetpoint => x.rhRoom > RhSet(x)
    case EconomizerAvailable => x.tRoom > CoolSetpoint(x) && x.tOutdoor <= EconomizerMax
    case RoomAboveCoolSetpoint => x.tRoom > CoolSetpoint(x)
    case HeatingEnabled => x.tRoom < HeatSetpoint(x) && x.tOutdoor < HeatEnable
    case RoomBelowHeatSetpoint => x.tRoom < HeatSetpoint(x)
    case Otherwise => true
  }

  datatype Rule = Rule(guard: Guard, decision: Decision)

  function RuleChain(x: Inputs): seq<Rule> {
    var tHeat := HeatSetpoint(x);
    [ Rule(HumidityAboveSetpoint, Decision(Active(Dry), Some(tHeat - DryOffset), HumidityReason)),
      Rule(EconomizerAvailable, Decision(Active(Fan), None, EconomizerReason)),
      Rule(RoomAboveCoolSetpoint, Decision(Active(Cool), Some(tHeat), CoolingReason)),
      Rule(HeatingEnabled, Decision(Active(Heat), Some(tHeat), HeatingReason)),
      Rule(RoomBelowHeatSetpoint, Decision(ModeOff, Some(tHeat), LockoutReason)),
      Rule(Otherwise, Decision(ModeOff, None, ComfortReason)) ]
  }

  /** The decision of the first rule whose guard holds, if any. */
  function FirstMatch(rules: seq<Rule>, x: Inputs): (r: Option<Decision>)
    ensures r.None? <==> forall i :: 0 <= i < |rules| ==> !Holds(rules[i].guard, x)
    ensures r.Some? ==>
              exists i :: 0 <= i < |rules| && Holds(rules[i].guard, x) && r.value == rules[i].decision &&
                          forall j :: 0 <= j < i ==> !Holds(rules[j].guard, x)
  {
    if |rules| == 0 then None
    else if Holds(rules[0].guard, x) then Some(rules[0].decision)
    else
      var r := FirstMatch(rules[1..], x);
      assert forall i :: 1 <= i < |rules| ==> rules[i] == rules[1..][i - 1];
      if r.Some? then
        var k :| 0 <= k < |rules[1..]| && Holds(rules[1..][k].guard, x) && r.value == rules[1..][k].decision &&
                 forall j :: 0 <= j < k ==> !Holds(rules[1..][j].guard, x);
        assert Holds(rules[k + 1].guard, x) && forall j :: 0 <= j < k + 1 ==> !Holds(rules[j].guard, x);
        r
      else r
  }

  /** The table ends in an unconditional rule, so a decision always exists. */
  lemma RuleChainIsTotal(x: Inputs)
    ensures FirstMatch(RuleChain(x), x).Some?
  {
    assert Holds(RuleChain(x)[5].guard, x);
  }

  /** `g36Control` is first-match evaluation of the table: same rules, same order. */
  lemma G36ControlIsFirstMatch(x: Inputs)
    ensures FirstMatch(RuleChain(x), x) == Some(G36Control(x))
  {
    var rules := RuleChain(x);
    RuleChainIsTotal(x);
    var k :| 0 <= k < |rules| && Holds(rules[k].guard, x) && FirstMatch(rules, x).value == rules[k].decision &&
             forall j :: 0 <= j < k ==> !Holds(rules[j].guard, x);
    if k == 0 {
    } else if k == 1 {
      assert !Holds(rules[0].guard, x);
    } else if k == 2 {
      assert !Holds(rules[0].guard, x) && !Holds(rules[1].guard, x);
    } else if k == 3 {
      assert !Holds(rules[0].guard, x) && !Holds(rules[2].guard, x);
    } else if k == 4 {
      assert !Holds(rules[0].guard, x) && !Holds(rules[2].guard, x) && !Holds(rules[3].guard, x);
    } else {
      assert !Holds(rules[0].guard, x) && !Holds(rules[2].guard, x) && !Holds(rules[4].guard, x);
    }
  }
}
