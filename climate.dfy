/** The heating entity (custom_components/myhome/climate.py): the decoding of
    thermo states and fan speeds, the HVAC modes a zone offers, and how the
    zone's mode, action, valve and fan state follow the gateway's heating
    events. Temperatures are left out. */
module Climate {
  import opened Wrappers
  import opened Strings

  datatype HvacMode = Off | Auto | Heat | Cool
  datatype HvacAction = ActionOff | Idle | Heating | Cooling
  datatype FanMode = FanAuto | FanLow | FanMedium | FanHigh | FanOff

  /** The operating modes a heating message can carry; `OtherMode` stands for
      the ones the entity ignores (protection, manual, ...). */
  datatype ClimateMode = ModeOff | ModeHeat | ModeCool | ModeAuto | OtherMode

  // ---------------------------------------------------------------------------
  // Decoders
  // ---------------------------------------------------------------------------

  /** `_decode_thermo_state`, given `int(value)` (None when the conversion
      fails): 0..5 are the named states, 6..8 a fan speed, 9 and more
      automatic fan, negatives nothing. */
  function DecodeThermoState(value: Option<int>): (r: Option<string>)
    ensures r.Some? <==> value.Some? && value.value >= 0
    ensures value == Some(0) ==> r == Some("off")
    ensures value == Some(1) ==> r == Some("on")
    ensures value == Some(2) ==> r == Some("opened")
    ensures value == Some(3) ==> r == Some("closed")
    ensures value == Some(4) ==> r == Some("stopped")
    ensures value == Some(5) ==> r == Some("fan_off")
    ensures value.Some? && 6 <= value.value <= 8 ==> r == Some("fan_speed_" + IntToString(value.value - 5))
    ensures value.Some? && value.value >= 9 ==> r == Some("fan_auto")
  {
    match value
    case None => None
    case Some(v) =>
      if v == 0 then Some("off")
      else if v == 1 then Some("on")
      else if v == 2 then Some("opened")
      else if v == 3 then Some("closed")
      else if v == 4 then Some("stopped")
      else if v == 5 then Some("fan_off")
      else if v > 5 then
        var speed := v - 5;
        if speed <= 3 then Some("fan_speed_" + IntToString(speed)) else Some("fan_auto")
      else None
  }

  /** Each of the codes 0..9 decodes to its own state: the decoder loses
      nothing below the automatic-fan codes. */
  lemma DecodeThermoStateDistinct(a: nat, b: nat)
    requires a <= 9 && b <= 9 && a != b
    ensures DecodeThermoState(Some(a)) != DecodeThermoState(Some(b))
  {
    if 6 <= a <= 8 && 6 <= b <= 8 {
      assert IntToString(a - 5) == [('0' as int + a - 5) as char];
      assert IntToString(b - 5) == [('0' as int + b - 5) as char];
      assert ("fan_speed_" + IntToString(a - 5))[10] != ("fan_speed_" + IntToString(b - 5))[10];
    } else if 6 <= a <= 8 || 6 <= b <= 8 {
      var s := if 6 <= a <= 8 then a else b;
      assert IntToString(s - 5) == [('0' as int + s - 5) as char];
      assert |"fan_speed_" + IntToString(s - 5)| == 11;
    }
  }

  /** `_fan_mode_from_speed`: off when the fan is off, nothing when its state
      is unknown (`isOn` None), else the speed 1, 2, 3 or automatic. */
  function FanModeFromSpeed(isOn: Option<bool>, speed: Option<int>): (r: Option<FanMode>)
    ensures isOn == Some(false) ==> r == Some(FanOff)
    ensures isOn.None? <==> r.None?
    ensures isOn == Some(true) ==> r.Some? && r.value != FanOff
    ensures isOn == Some(true) ==> (r == Some(FanLow) <==> speed == Some(1))
    ensures isOn == Some(true) ==> (r == Some(FanMedium) <==> speed == Some(2))
    ensures isOn == Some(true) ==> (r == Some(FanHigh) <==> speed == Some(3))
  {
    match isOn
    case Some(false) => Some(FanOff)
    case None => None
    case Some(true) =>
      if speed == Some(1) then Some(FanLow)
      else if speed == Some(2) then Some(FanMedium)
      else if speed == Some(3) then Some(FanHigh)
      else Some(FanAuto)
  }

  /** The modes a zone offers: always off; automatic when it heats or cools
      and is not the central unit; heat and cool as configured. */
  function SupportedModes(heating: bool, cooling: bool, central: bool): (r: seq<HvacMode>)
    ensures |r| >= 1 && r[0] == Off
    ensures Auto in r <==> (heating || cooling) && !central
    ensures Heat in r <==> heating
    ensures Cool in r <==> cooling
    ensures forall i, j :: 0 <= i < j < |r| ==> r[i] != r[j]
  {
    [Off] + (if (heating || cooling) && !central then [Auto] else [])
          + (if heating then [Heat] else []) + (if cooling then [Cool] else [])
  }

  /** The `valve_status` attribute. */
  function ValveStatus(position: int): (r: string)
    ensures r in {"closed", "open", "partial"}
    ensures r == "closed" <==> position == 0
    ensures r == "open" <==> position == 100
  {
    if position == 0 then "closed" else if position == 100 then "open" else "partial"
  }

  /** The HVAC mode a message mode selects and the `thermo_function` it reports. */
  function ModeOf(m: ClimateMode): Option<HvacMode>
  {
    match m
    case ModeOff => Some(Off)
    case ModeHeat => Some(Heat)
    case ModeCool => Some(Cool)
    case ModeAuto => Some(Auto)
    case OtherMode => None
  }

  function ThermoFunction(mode: HvacMode): string
  {
    match mode
    case Off => "off"
    case Auto => "generic"
    case Heat => "heating"
    case Cool => "cooling"
  }

  /** What an ACTION event carries. A field is None when the message lacks the
      attribute; `dimensions` is None when `_dimension_value` is not a list,
      and its items are `int()` of the values (None when that fails). */
  datatype ActionEvent = ActionEvent(
    fanOn: Option<Option<bool>>, fanSpeed: Option<Option<int>>,
    coolingFanOn: Option<Option<bool>>, coolingFanSpeed: Option<Option<int>>,
    dimensions: Option<seq<Option<int>>>, actuator: Option<string>,
    active: bool, heating: bool, cooling: bool)

  /** The heating messages the entity reacts to; temperatures, humidity and
      offsets are `Measurement`, which this model does not follow. */
  datatype HeatingEvent =
    | ModeEvent(mode: ClimateMode)
    | ModeTargetEvent(targetMode: ClimateMode)
    | Action(action: ActionEvent)
    | Measurement

  function Updated<T>(field: Option<T>, current: T): T
  {
    if field.Some? then field.value else current
  }

  // ---------------------------------------------------------------------------
  // The entity
  // ---------------------------------------------------------------------------

  class ClimateZone {
    const heating: bool
    const cooling: bool
    const fan: bool
    const central: bool
    var hvacModes: seq<HvacMode>
    var fanModes: seq<FanMode>
    var hvacMode: Option<HvacMode>
    var hvacAction: Option<HvacAction>
    var thermoFunction: Option<string>
    var fanMode: Option<FanMode>
    var fanOn: Option<bool>
    var fanSpeed: Option<int>
    var coolingFanOn: Option<bool>
    var coolingFanSpeed: Option<int>
    var heatingValveState: Option<string>
    var coolingValveState: Option<string>
    var actuatorsStatus: map<string, Option<string>>
    var valvePosition: Option<int>
    var valveChannel: Option<string>

    /** Off is always offered (first), and the mode shown is one the zone offers. */
    predicate ModeSupported()
      reads this
    {
      |hvacModes| > 0 && hvacModes[0] == Off && (hvacMode.Some? ==> hvacMode.value in hvacModes)
    }

    /** `__init__`: the WHERE `#0` is always the central unit; the mode list
        is built by appending to `[off]`. */
    constructor(where: string, heating: bool, cooling: bool, fan: bool, central: bool)
      ensures this.central == (where == "#0" || central)
      ensures this.heating == heating && this.cooling == cooling && this.fan == fan
      ensures hvacModes == SupportedModes(heating, cooling, where == "#0" || central)
      ensures fanModes == if fan then [FanAuto, FanLow, FanMedium, FanHigh, FanOff] else []
      ensures hvacMode.None? && hvacAction.None? && thermoFunction.None? && fanMode.None?
      ensures fanOn.None? && fanSpeed.None? && coolingFanOn.None? && coolingFanSpeed.None?
      ensures heatingValveState.None? && coolingValveState.None? && actuatorsStatus == map[]
      ensures valvePosition.None? && valveChannel.None?
      ensures ModeSupported()
    {
      this.heating := heating;
      this.cooling := cooling;
      this.fan := fan;
      this.central := where == "#0" || central;
      var modes := [Off];
      if heating || cooling {
        if !(where == "#0" || central) {
          modes := modes + [Auto];
        }
        if heating {
          modes := modes + [Heat];
        }
        if cooling {
          modes := modes + [Cool];
        }
      }
      hvacModes := modes;
      fanModes := if fan then [FanAuto, FanLow, FanMedium, FanHigh, FanOff] else [];
      hvacMode := None;
      hvacAction := None;
      thermoFunction := None;
      fanMode := None;
      fanOn := None;
      fanSpeed := None;
      coolingFanOn := None;
      coolingFanSpeed := None;
      heatingValveState := None;
      coolingValveState := None;
      actuatorsStatus := map[];
      valvePosition := None;
      valveChannel := None;
    }

    /** `handle_valve_position`: the position and channel are stored; in heat
        or cool mode the action follows whether the valve is open at all. */
    method HandleValvePosition(position: int, channel: Option<string>)
      modifies this`valvePosition, this`valveChannel, this`hvacAction
      ensures valvePosition == Some(position) && valveChannel == channel
      ensures old(hvacMode) == Some(Heat) ==> hvacAction == Some(if position > 0 then Heating else Idle)
      ensures old(hvacMode) == Some(Cool) ==> hvacAction == Some(if position > 0 then Cooling else Idle)
      ensures old(hvacMode) != Some(Heat) && old(hvacMode) != Some(Cool) ==> hvacAction == old(hvacAction)
    {
      valvePosition := Some(position);
      valveChannel := channel;
      if hvacMode == Some(Heat) {
        hvacAction := Some(if position > 0 then Heating else Idle);
      } else if hvacMode == Some(Cool) {
        hvacAction := Some(if position > 0 then Cooling else Idle);
      }
    }

    /** The shared MODE / MODE_TARGET branch: a mode the zone offers is taken
        (off always is) and an off action becomes idle; off also turns the
        action off; anything else changes nothing. */
    method ApplyMode(m: ClimateMode)
      requires ModeSupported()
      modifies this`hvacMode, this`thermoFunction, this`hvacAction
      ensures ModeSupported()
      ensures m == ModeOff ==> hvacMode == Some(Off) && thermoFunction == Some("off") && hvacAction == Some(ActionOff)
      ensures m != ModeOff && ModeOf(m).Some? && ModeOf(m).value in hvacModes ==>
                hvacMode == ModeOf(m) && thermoFunction == Some(ThermoFunction(ModeOf(m).value)) &&
                hvacAction == (if old(hvacAction) == Some(ActionOff) then Some(Idle) else old(hvacAction))
      ensures m != ModeOff && (ModeOf(m).None? || ModeOf(m).value !in hvacModes) ==>
                hvacMode == old(hvacMode) && thermoFunction == old(thermoFunction) && hvacAction == old(hvacAction)
    {
      if m == ModeAuto && Auto in hvacModes {
        hvacMode := Some(Auto);
        thermoFunction := Some("generic");
        if hvacAction == Some(ActionOff) {
          hvacAction := Some(Idle);
        }
      } else if m == ModeCool && Cool in hvacModes {
        hvacMode := Some(Cool);
        thermoFunction := Some("cooling");
        if hvacAction == Some(ActionOff) {
          hvacAction := Some(Idle);
        }
      } else if m == ModeHeat && Heat in hvacModes {
        hvacMode := Some(Heat);
        thermoFunction := Some("heating");
        if hvacAction == Some(ActionOff) {
          hvacAction := Some(Idle);
        }
      } else if m == ModeOff {
        assert hvacModes[0] == Off;
        hvacMode := Some(Off);
        thermoFunction := Some("off");
        hvacAction := Some(ActionOff);
      }
    }

    /** The fan part of an ACTION event: the four fan fields take the
        message's values where it has them; with a fan, the fan mode follows
        the main fan, or the cooling fan when the main fan's state is unknown. */
    method ApplyFan(e: ActionEvent)
      modifies this`fanOn, this`fanSpeed, this`coolingFanOn, this`coolingFanSpeed, this`fanMode
      ensures fanOn == Updated(e.fanOn, old(fanOn)) && fanSpeed == Updated(e.fanSpeed, old(fanSpeed))
      ensures coolingFanOn == Updated(e.coolingFanOn, old(coolingFanOn))
      ensures coolingFanSpeed == Updated(e.coolingFanSpeed, old(coolingFanSpeed))
      ensures !fan ==> fanMode == old(fanMode)
      ensures fan && fanOn.Some? ==> fanMode == FanModeFromSpeed(fanOn, fanSpeed)
      ensures fan && fanOn.None? && coolingFanOn.Some? ==> fanMode == FanModeFromSpeed(coolingFanOn, coolingFanSpeed)
      ensures fan && fanOn.None? && coolingFanOn.None? ==> fanMode == old(fanMode)
    {
      fanOn := Updated(e.fanOn, fanOn);
      fanSpeed := Updated(e.fanSpeed, fanSpeed);
      coolingFanOn := Updated(e.coolingFanOn, coolingFanOn);
      coolingFanSpeed := Updated(e.coolingFanSpeed, coolingFanSpeed);
      if fan {
        var mode := FanModeFromSpeed(fanOn, fanSpeed);
        if mode.None? {
          mode := FanModeFromSpeed(coolingFanOn, coolingFanSpeed);
        }
        if mode.Some? {
          fanMode := mode;
        }
      }
    }

    /** The valve part of an ACTION event: two or more values set the cooling
        (first) and heating (second) valve states; a single value sets the
        named actuator's state. */
    method ApplyDimensions(e: ActionEvent)
      modifies this`coolingValveState, this`heatingValveState, this`actuatorsStatus
      ensures e.dimensions.Some? && |e.dimensions.value| >= 2 ==>
                coolingValveState == DecodeThermoState(e.dimensions.value[0]) &&
                heatingValveState == DecodeThermoState(e.dimensions.value[1]) &&
                actuatorsStatus == old(actuatorsStatus)
      ensures e.dimensions.Some? && |e.dimensions.value| == 1 && e.actuator.Some? ==>
                actuatorsStatus == old(actuatorsStatus)[e.actuator.value := DecodeThermoState(e.dimensions.value[0])]
      ensures !(e.dimensions.Some? && |e.dimensions.value| >= 2) ==>
                coolingValveState == old(coolingValveState) && heatingValveState == old(heatingValveState)
      ensures !(e.dimensions.Some? && |e.dimensions.value| == 1 && e.actuator.Some?) ==>
                actuatorsStatus == old(actuatorsStatus)
    {
      if e.dimensions.Some? && |e.dimensions.value| >= 2 {
        coolingValveState := DecodeThermoState(e.dimensions.value[0]);
        heatingValveState := DecodeThermoState(e.dimensions.value[1]);
      } else if e.dimensions.Some? && |e.dimensions.value| == 1 {
        if e.actuator.Some? {
          actuatorsStatus := actuatorsStatus[e.actuator.value := DecodeThermoState(e.dimensions.value[0])];
        }
      }
    }

    /** The activity part of an ACTION event: an active zone heats or cools
        as it is able (a zone that does both as the message says); an
        inactive one is off in off mode and idle otherwise. */
    method ApplyActivity(e: ActionEvent)
      modifies this`thermoFunction, this`hvacAction
      ensures e.active && heating && !cooling ==> hvacAction == Some(Heating) && thermoFunction == Some("heating")
      ensures e.active && cooling && !heating ==> hvacAction == Some(Cooling) && thermoFunction == Some("cooling")
      ensures e.active && heating && cooling && e.heating ==> hvacAction == Some(Heating) && thermoFunction == Some("heating")
      ensures e.active && heating && cooling && !e.heating && e.cooling ==>
                hvacAction == Some(Cooling) && thermoFunction == Some("cooling")
      ensures e.active && ((!heating && !cooling) || (heating && cooling && !e.heating && !e.cooling)) ==>
                hvacAction == old(hvacAction) && thermoFunction == old(thermoFunction)
      ensures !e.active && hvacMode == Some(Off) ==> hvacAction == Some(ActionOff) && thermoFunction == Some("off")
      ensures !e.active && hvacMode != Some(Off) ==> hvacAction == Some(Idle) && thermoFunction == old(thermoFunction)
    {
      if e.active {
        if heating && cooling {
          if e.heating {
            thermoFunction := Some("heating");
            hvacAction := Some(Heating);
          } else if e.cooling {
            thermoFunction := Some("cooling");
            hvacAction := Some(Cooling);
          }
        } else if heating {
          thermoFunction := Some("heating");
          hvacAction := Some(Heating);
        } else if cooling {
          thermoFunction := Some("cooling");
          hvacAction := Some(Cooling);
        }
      } else if hvacMode == Some(Off) {
        thermoFunction := Some("off");
        hvacAction := Some(ActionOff);
      } else {
        hvacAction := Some(Idle);
      }
    }

    /** `handle_event` for the events this model follows. */
    method HandleEvent(m: HeatingEvent)
      requires ModeSupported()
      modifies this`hvacMode, this`thermoFunction, this`hvacAction, this`fanOn, this`fanSpeed, this`coolingFanOn,
               this`coolingFanSpeed, this`fanMode, this`coolingValveState, this`heatingValveState, this`actuatorsStatus
      ensures ModeSupported()
      ensures hvacModes == old(hvacModes) && fanModes == old(fanModes)
      ensures !m.Action? ==> fanMode == old(fanMode) && actuatorsStatus == old(actuatorsStatus) &&
                             heatingValveState == old(heatingValveState) && coolingValveState == old(coolingValveState)
      ensures m.Measurement? ==> hvacMode == old(hvacMode) && hvacAction == old(hvacAction) &&
                                 thermoFunction == old(thermoFunction)
      ensures m.Action? ==> hvacMode == old(hvacMode)
      ensures valvePosition == old(valvePosition) && valveChannel == old(valveChannel)
    {
      match m
      case ModeEvent(mode) =>
        ApplyMode(mode);
      case ModeTargetEvent(mode) =>
        ApplyMode(mode);
      case Action(e) =>
        ApplyFan(e);
        ApplyDimensions(e);
        ApplyActivity(e);
      case Measurement =>
    }
  }
}
