/** How the listening loop routes one received message
    (custom_components/myhome/gateway.py, the inner loop of `listening_loop`
    and `_handle_heating_dimension_20`). Routing is a pure function from the
    message and the registry of configured devices to the list of effects the
    loop performs, in order; the gateway class applies the effects on its own
    state (send queue, occurrence counters) and hands the rest to the caller. */
module Dispatch {
  import opened Wrappers
  import opened Strings
  import opened OwnWhere
  import opened Messages
  import opened Frames

  // ---------------------------------------------------------------------------
  // The registry: platform -> device key -> configured device
  // ---------------------------------------------------------------------------

  /** What sits under a device's `entities`: a plain integration entity, a
      climate entity (the only one with `handle_valve_position`), one of the
      two command buttons, or an object that is not an integration entity. */
  datatype EntityKind = PlainEntity | ClimateEntity | CommandButton | ForeignObject

  /** `zone` is `str(device.get("zone", ""))` of the device's configuration. */
  datatype DeviceRecord = DeviceRecord(zone: string, entities: map<string, EntityKind>)

  type Platforms = map<string, map<string, DeviceRecord>>

  const LightPlatform := "light"
  const SensorPlatform := "sensor"
  const ClimatePlatform := "climate"
  const ButtonPlatform := "button"

  predicate IsIntegrationEntity(e: EntityKind) { e != ForeignObject }

  /** Entities that get `handle_event` for a point-to-point message. */
  predicate ReceivesEvents(e: EntityKind) { e == PlainEntity || e == ClimateEntity }

  datatype Target = Target(platform: string, device: string, entity: string)

  /** The entities of device `key` that receive a point-to-point message, in
      every platform except buttons. */
  function EventTargets(platforms: Platforms, key: string): (r: set<Target>)
    ensures forall t :: t in r <==>
              t.platform in platforms && t.platform != ButtonPlatform && t.device == key &&
              key in platforms[t.platform] && t.entity in platforms[t.platform][key].entities &&
              ReceivesEvents(platforms[t.platform][key].entities[t.entity])
  {
    set p, e | p in platforms && p != ButtonPlatform && key in platforms[p] &&
               e in platforms[p][key].entities && ReceivesEvents(platforms[p][key].entities[e])
      :: Target(p, key, e)
  }

  /** The integration entities of sensor device `key`, for an energy reading. */
  function SensorTargets(platforms: Platforms, key: string): (r: set<Target>)
    requires SensorPlatform in platforms && key in platforms[SensorPlatform]
    ensures forall t :: t in r <==>
              t.platform == SensorPlatform && t.device == key &&
              t.entity in platforms[SensorPlatform][key].entities &&
              IsIntegrationEntity(platforms[SensorPlatform][key].entities[t.entity])
  {
    var entities := platforms[SensorPlatform][key].entities;
    set e | e in entities && IsIntegrationEntity(entities[e]) :: Target(SensorPlatform, key, e)
  }

  /** Climate devices configured for `zone` whose climate entity can take a
      valve position. */
  function ZoneDevices(climate: map<string, DeviceRecord>, zone: string): (r: set<string>)
    ensures forall d :: d in r <==>
              d in climate && ExtractZoneAndChannel(climate[d].zone).zone == Some(zone) &&
              ClimatePlatform in climate[d].entities && climate[d].entities[ClimatePlatform] == ClimateEntity
  {
    set d | d in climate && ExtractZoneAndChannel(climate[d].zone).zone == Some(zone) &&
            ClimatePlatform in climate[d].entities && climate[d].entities[ClimatePlatform] == ClimateEntity
  }

  // ---------------------------------------------------------------------------
  // Effects
  // ---------------------------------------------------------------------------

  datatype Motion = Open | Close | Stop

  datatype Press = ShortPress | ShortRelease | LongPress | LongRelease

  /** Home Assistant bus events the loop fires. */
  datatype Notification =
    | MessageEvent(raw: string)
    | GeneralLight(on: bool)
    | AreaLight(area: string, on: bool)
    | GroupLight(group: string, on: bool)
    | GeneralAutomation(motion: Motion)
    | AreaAutomation(area: string, motion: Motion)
    | GroupAutomation(group: string, motion: Motion)
    | CenPlusNotice(obj: int, pushButton: int, press: Option<Press>)
    | CenNotice(obj: int, pushButton: int, press: Option<Press>)

  /** Messages the loop only logs. */
  datatype Ignored = NotAMessageData | Translation | MalformedZone | ValueOutOfRange

  datatype Action =
    | Deliver(targets: set<Target>)               // handle_event on each target
    | RefreshLight(device: string)                // async_update of a light after a brightness preset
    | LookupFailed                                // the registry lookup raises KeyError
    | Fire(notification: Notification)
    | RequestStatus(command: Command)             // send_status_request
    | ValvePosition(devices: set<string>, value: nat, channel: Option<string>)
    | CountOccurrence(key: string)                // rate-limited log
    | Log(reason: Ignored)

  /** The motion reported for a broadcast automation event. */
  function MotionOf(opening: bool, closing: bool): (m: Motion)
    ensures m == Open <==> opening && !closing
    ensures m == Close <==> closing && !opening
  {
    if opening && !closing then Open else if closing && !opening then Close else Stop
  }

  /** CEN+ button phase: short press, then hold (held or still held), then release. */
  function CenPlusPress(short: bool, held: bool, stillHeld: bool, released: bool): (r: Option<Press>)
    ensures r != Some(ShortRelease)
    ensures r == None <==> !short && !held && !stillHeld && !released
    ensures short ==> r == Some(ShortPress)
    ensures !short && (held || stillHeld) ==> r == Some(LongPress)
    ensures !short && !held && !stillHeld && released ==> r == Some(LongRelease)
  {
    if short then Some(ShortPress)
    else if held || stillHeld then Some(LongPress)
    else if released then Some(LongRelease)
    else None
  }

  /** CEN button phase, checked in the order pressed, short release, held, long release. */
  function CenPress(pressed: bool, releasedShort: bool, held: bool, releasedLong: bool): (r: Option<Press>)
    ensures r == None <==> !pressed && !releasedShort && !held && !releasedLong
    ensures pressed ==> r == Some(ShortPress)
    ensures !pressed && releasedShort ==> r == Some(ShortRelease)
    ensures !pressed && !releasedShort && held ==> r == Some(LongPress)
    ensures !pressed && !releasedShort && !held && releasedLong ==> r == Some(LongRelease)
  {
    if pressed then Some(ShortPress)
    else if releasedShort then Some(ShortRelease)
    else if held then Some(LongPress)
    else if releasedLong then Some(LongRelease)
    else None
  }

  /** The zone address of a heating command with its leading `#` removed. */
  function DropLeadingHash(w: string): (r: string)
    ensures |w| > 0 && w[0] == '#' ==> w == "#" + r
    ensures !(|w| > 0 && w[0] == '#') ==> r == w
  {
    if |w| > 0 && w[0] == '#' then w[1..] else w
  }

  /** A recognised valve-position frame: forward it to the climate entities of
      its zone, unless the zone is malformed or the value exceeds 100. */
  function Dim20Actions(f: Dim20Frame, platforms: Platforms): (r: seq<Action>)
    requires IsDim20Digits(f.digits)
    ensures forall a :: a in r && a.ValvePosition? ==> a.value <= 100
  {
    var zc := ExtractZoneAndChannel(f.where);
    if zc.zone.None? then [Log(MalformedZone)]
    else if Dim20Value(f) > 100 then [Log(ValueOutOfRange)]
    else if ClimatePlatform !in platforms then []
    else [ValvePosition(ZoneDevices(platforms[ClimatePlatform], zc.zone.value), Dim20Value(f), zc.channel)]
  }

  /** The last branches: a valve-position frame, else a rate-limited count
      under the gateway message's type name or the unsupported-frame key. */
  function Fallback(raw: string, k: Kind, platforms: Platforms): seq<Action>
  {
    match ParseDim20(raw)
    case Some(f) => Dim20Actions(f, platforms)
    case None =>
      if k.GatewayMessage? then [CountOccurrence(k.typeName)] else [CountOccurrence(UnsupportedKey(raw))]
  }

  /** A point-to-point lighting, automation, dry-contact, auxiliary or heating event. */
  function PointToPoint(k: Kind, platforms: Platforms): seq<Action>
    requires k.LightingEvent? || k.AutomationEvent? || k.DryContactEvent? || k.AuxEvent? || k.HeatingEvent?
  {
    if k.LightingEvent? && k.brightnessPreset then
      if LightPlatform in platforms && k.entity in platforms[LightPlatform] &&
         LightPlatform in platforms[LightPlatform][k.entity].entities then
        (if IsIntegrationEntity(platforms[LightPlatform][k.entity].entities[LightPlatform])
         then [RefreshLight(k.entity)] else [])
      else [LookupFailed]
    else [Deliver(EventTargets(platforms, k.entity))]
  }

  /** Everything after the optional `myhome_message_event`, branch by branch. */
  function Handle(raw: string, k: Kind, platforms: Platforms): (r: seq<Action>)
    ensures k.NotAMessage? ==> r == [Log(NotAMessageData)]
    ensures k.EnergyEvent? ==> (r != [] <==> SensorPlatform in platforms && k.entity in platforms[SensorPlatform])
    ensures k.CenPlusEvent? ==>
              r == [Fire(CenPlusNotice(k.obj, k.pushButton,
                                       CenPlusPress(k.isShortPressed, k.isHeld, k.isStillHeld, k.isReleased)))]
    ensures k.CenEvent? ==>
              r == [Fire(CenNotice(k.obj, k.pushButton,
                                   CenPress(k.isPressed, k.isReleasedAfterShortPress, k.isHeld,
                                            k.isReleasedAfterLongPress)))]
    ensures k.HeatingCommand? && k.dimension == Some(14) ==>
              r == [RequestStatus(HeatingStatus(DropLeadingHash(k.where)))]
  {
    match k
    case NotAMessage => [Log(NotAMessageData)]
    case EnergyEvent(_, entity) =>
      if SensorPlatform in platforms && entity in platforms[SensorPlatform]
      then [Deliver(SensorTargets(platforms, entity))] else []
    case LightingEvent(_, _, general, area, group, on, areaName, groupName, _, translation) =>
      if translation then [Log(Translation)]
      else if general then [Fire(GeneralLight(on)), RequestStatus(LightingStatus("0"))]
      else if area then [Fire(AreaLight(areaName, on)), RequestStatus(LightingStatus(areaName))]
      else if group then [Fire(GroupLight(groupName, on))]
      else PointToPoint(k, platforms)
    case AutomationEvent(_, _, general, area, group, opening, closing, areaName, groupName, translation) =>
      if translation then [Log(Translation)]
      else if general then [Fire(GeneralAutomation(MotionOf(opening, closing)))]
      else if area then [Fire(AreaAutomation(areaName, MotionOf(opening, closing)))]
      else if group then [Fire(GroupAutomation(groupName, MotionOf(opening, closing)))]
      else PointToPoint(k, platforms)
    case DryContactEvent(_, translation) =>
      if translation then [Log(Translation)] else PointToPoint(k, platforms)
    case AuxEvent(_, translation) =>
      if translation then [Log(Translation)] else PointToPoint(k, platforms)
    case HeatingEvent(_, _, translation) =>
      if translation then [Log(Translation)] else PointToPoint(k, platforms)
    case HeatingCommand(where, dimension) =>
      if dimension == Some(14) then [RequestStatus(HeatingStatus(DropLeadingHash(where)))]
      else Fallback(raw, k, platforms)
    case CenPlusEvent(obj, button, short, held, stillHeld, released) =>
      [Fire(CenPlusNotice(obj, button, CenPlusPress(short, held, stillHeld, released)))]
    case CenEvent(obj, button, pressed, releasedShort, held, releasedLong) =>
      [Fire(CenNotice(obj, button, CenPress(pressed, releasedShort, held, releasedLong)))]
    case _ => Fallback(raw, k, platforms)
  }

  /** The effects of one received message, in order. The bus event
      `myhome_message_event` is fired first, for every message, exactly when
      event generation is enabled. */
  function Route(m: Message, platforms: Platforms, generateEvents: bool): (r: seq<Action>)
    ensures generateEvents <==> Fire(MessageEvent(m.raw)) in r
    ensures generateEvents ==> r[0] == Fire(MessageEvent(m.raw))
  {
    HandleNeverMessageEvent(m.raw, m.kind, platforms);
    (if generateEvents then [Fire(MessageEvent(m.raw))] else []) + Handle(m.raw, m.kind, platforms)
  }

  /** The status requests among a list of effects, in order. */
  function StatusRequests(actions: seq<Action>): (r: seq<Command>)
    ensures |r| <= |actions|
    ensures forall c :: c in r <==> RequestStatus(c) in actions
  {
    if |actions| == 0 then []
    else (if actions[0].RequestStatus? then [actions[0].command] else []) + StatusRequests(actions[1..])
  }

  // ---------------------------------------------------------------------------
  // Properties of routing
  // ---------------------------------------------------------------------------

  predicate IsTranslated(k: Kind)
  {
    (k.LightingEvent? || k.AutomationEvent? || k.DryContactEvent? || k.AuxEvent? || k.HeatingEvent?) &&
    k.isTranslation
  }

  lemma HandleNeverMessageEvent(raw: string, k: Kind, platforms: Platforms)
    ensures forall a :: a in Handle(raw, k, platforms) ==> !(a.Fire? && a.notification.MessageEvent?)
  {
    if FallsBack(k) {
      HandleFallsBack(raw, k, platforms);
      FallbackEffects(raw, k, platforms);
    } else if k.LightingEvent? || k.AutomationEvent? || k.DryContactEvent? || k.AuxEvent? || k.HeatingEvent? {
      if !k.isTranslation && !IsBroadcast(k) {
        PointToPointEffects(k, platforms);
      }
    }
  }

  /** The kinds that reach the last branches. */
  predicate FallsBack(k: Kind)
  {
    k.GatewayMessage? || k.OtherMessage? || (k.HeatingCommand? && k.dimension != Some(14))
  }

  lemma HandleFallsBack(raw: string, k: Kind, platforms: Platforms)
    requires FallsBack(k)
    ensures Handle(raw, k, platforms) == Fallback(raw, k, platforms)
  {
  }

  /** The last branches only forward valve positions, log or count. */
  lemma FallbackEffects(raw: string, k: Kind, platforms: Platforms)
    ensures forall a :: a in Fallback(raw, k, platforms) ==> a.ValvePosition? || a.Log? || a.CountOccurrence?
    ensures forall a :: a in Fallback(raw, k, platforms) && a.ValvePosition? ==>
              a.value <= 100 && ParseDim20(raw).Some? && ClimatePlatform in platforms &&
              forall d :: d in a.devices ==> d in platforms[ClimatePlatform]
  {
    match ParseDim20(raw) {
      case Some(f) =>
        assert Fallback(raw, k, platforms) == Dim20Actions(f, platforms);
        Dim20ActionsEffects(f, platforms);
      case None =>
        assert Fallback(raw, k, platforms) ==
               [CountOccurrence(if k.GatewayMessage? then k.typeName else UnsupportedKey(raw))];
    }
  }

  lemma Dim20ActionsEffects(f: Dim20Frame, platforms: Platforms)
    requires IsDim20Digits(f.digits)
    ensures forall a :: a in Dim20Actions(f, platforms) ==> a.ValvePosition? || a.Log?
    ensures forall a :: a in Dim20Actions(f, platforms) && a.ValvePosition? ==>
              a.value <= 100 && ClimatePlatform in platforms &&
              forall d :: d in a.devices ==> d in platforms[ClimatePlatform]
  {
  }

  lemma PointToPointEffects(k: Kind, platforms: Platforms)
    requires k.LightingEvent? || k.AutomationEvent? || k.DryContactEvent? || k.AuxEvent? || k.HeatingEvent?
    ensures forall a :: a in PointToPoint(k, platforms) ==> a.Deliver? || a.RefreshLight? || a.LookupFailed?
    ensures forall a :: a in PointToPoint(k, platforms) && a.Deliver? ==> a == Deliver(EventTargets(platforms, k.entity))
  {
  }

  /** A translated echo is only logged: no handler, bus event or request. */
  lemma TranslationIsOnlyLogged(raw: string, k: Kind, platforms: Platforms)
    requires IsTranslated(k)
    ensures Handle(raw, k, platforms) == [Log(Translation)]
  {
  }

  /** A general lighting event queries the whole system, an area event
      queries its area, and a group event queries nothing. */
  lemma BroadcastLightingQueries(raw: string, k: Kind, platforms: Platforms)
    requires k.LightingEvent? && !k.isTranslation
    ensures k.isGeneral ==> StatusRequests(Handle(raw, k, platforms)) == [LightingStatus("0")]
    ensures !k.isGeneral && k.isArea ==> StatusRequests(Handle(raw, k, platforms)) == [LightingStatus(k.area)]
    ensures !k.isGeneral && !k.isArea && k.isGroup ==> StatusRequests(Handle(raw, k, platforms)) == []
    ensures !k.isGeneral && !k.isArea && !k.isGroup ==> StatusRequests(Handle(raw, k, platforms)) == []
  {
    var h := Handle(raw, k, platforms);
    if k.isGeneral {
      assert StatusRequests(h[1..]) == [LightingStatus("0")];
    } else if k.isArea {
      assert StatusRequests(h[1..]) == [LightingStatus(k.area)];
    } else if k.isGroup {
    } else {
      assert forall a :: a in h ==> !a.RequestStatus?;
    }
  }

  predicate IsAutomationNotice(a: Action)
  {
    a.Fire? && (a.notification.GeneralAutomation? || a.notification.AreaAutomation? ||
                a.notification.GroupAutomation?)
  }

  /** An automation bus event is fired exactly for untranslated general, area
      or group automation messages. */
  lemma AutomationEventIff(raw: string, k: Kind, platforms: Platforms)
    ensures (exists a :: a in Handle(raw, k, platforms) && IsAutomationNotice(a)) <==>
            k.AutomationEvent? && !k.isTranslation && (k.isGeneral || k.isArea || k.isGroup)
  {
    var h := Handle(raw, k, platforms);
    if k.AutomationEvent? && !k.isTranslation && (k.isGeneral || k.isArea || k.isGroup) {
      assert IsAutomationNotice(h[0]);
    } else if FallsBack(k) {
      HandleFallsBack(raw, k, platforms);
      FallbackEffects(raw, k, platforms);
    } else if k.LightingEvent? || k.AutomationEvent? || k.DryContactEvent? || k.AuxEvent? || k.HeatingEvent? {
      if !k.isTranslation && !IsBroadcast(k) {
        assert h == PointToPoint(k, platforms);
        PointToPointEffects(k, platforms);
      }
    }
  }

  /** Handlers are reached only in non-button platforms, only on integration
      entities, never on a command button except through an energy reading
      (which goes to the sensor platform alone). */
  lemma DeliveryNeverReachesButtons(raw: string, k: Kind, platforms: Platforms)
    ensures forall a, t :: a in Handle(raw, k, platforms) && a.Deliver? && t in a.targets ==>
              t.platform != ButtonPlatform && t.platform in platforms &&
              t.device in platforms[t.platform] && t.entity in platforms[t.platform][t.device].entities &&
              (k.EnergyEvent? || platforms[t.platform][t.device].entities[t.entity] != CommandButton) &&
              platforms[t.platform][t.device].entities[t.entity] != ForeignObject
  {
    HandleDeliveries(raw, k, platforms);
    forall a, t | a in Handle(raw, k, platforms) && a.Deliver? && t in a.targets
      ensures t.platform != ButtonPlatform && t.platform in platforms &&
              t.device in platforms[t.platform] && t.entity in platforms[t.platform][t.device].entities &&
              (k.EnergyEvent? || platforms[t.platform][t.device].entities[t.entity] != CommandButton) &&
              platforms[t.platform][t.device].entities[t.entity] != ForeignObject
    {
      if a == Deliver(EventTargets(platforms, k.entity)) {
        assert t in EventTargets(platforms, k.entity);
      } else {
        assert t in SensorTargets(platforms, k.entity);
      }
    }
  }

  /** The kinds that name a device. */
  predicate HasEntity(k: Kind)
  {
    k.LightingEvent? || k.AutomationEvent? || k.DryContactEvent? || k.AuxEvent? || k.HeatingEvent? ||
    k.EnergyEvent?
  }

  /** The only deliveries: point-to-point events to their device's entities
      and energy readings to the sensor's. General, area and group events
      reach no handler. */
  lemma HandleDeliveries(raw: string, k: Kind, platforms: Platforms)
    ensures forall a :: a in Handle(raw, k, platforms) && a.Deliver? ==>
              HasEntity(k) &&
              (a == Deliver(EventTargets(platforms, k.entity)) ||
               (k.EnergyEvent? && SensorPlatform in platforms && k.entity in platforms[SensorPlatform] &&
                a == Deliver(SensorTargets(platforms, k.entity))))
    ensures IsBroadcast(k) ==> forall a :: a in Handle(raw, k, platforms) ==> !a.Deliver?
  {
    if FallsBack(k) {
      HandleFallsBack(raw, k, platforms);
      FallbackEffects(raw, k, platforms);
    } else if k.LightingEvent? || k.AutomationEvent? || k.DryContactEvent? || k.AuxEvent? || k.HeatingEvent? {
      if !k.isTranslation && !IsBroadcast(k) {
        assert Handle(raw, k, platforms) == PointToPoint(k, platforms);
        PointToPointEffects(k, platforms);
      }
    }
  }

  lemma FallbackNeverDelivers(raw: string, k: Kind, platforms: Platforms)
    ensures forall a :: a in Fallback(raw, k, platforms) ==> !a.Deliver?
  {
    FallbackEffects(raw, k, platforms);
  }

  /** Every entity that may receive a point-to-point event gets it. */
  lemma DeliveryIsComplete(raw: string, k: Kind, platforms: Platforms, t: Target)
    requires k.DryContactEvent? || k.AuxEvent? || k.HeatingEvent? ||
             (k.LightingEvent? && !k.isGeneral && !k.isArea && !k.isGroup && !k.brightnessPreset) ||
             (k.AutomationEvent? && !k.isGeneral && !k.isArea && !k.isGroup)
    requires !k.isTranslation
    requires t.platform in platforms && t.platform != ButtonPlatform && t.device == k.entity
    requires t.device in platforms[t.platform] && t.entity in platforms[t.platform][t.device].entities
    requires ReceivesEvents(platforms[t.platform][t.device].entities[t.entity])
    ensures exists a :: a in Handle(raw, k, platforms) && a.Deliver? && t in a.targets
  {
    assert Handle(raw, k, platforms) == [Deliver(EventTargets(platforms, k.entity))];
  }

  /** A valve position is only ever forwarded for a value of at most 100, to
      climate devices configured for the frame's zone. */
  lemma ValvePositionsAreInRange(raw: string, k: Kind, platforms: Platforms)
    ensures forall a :: a in Handle(raw, k, platforms) && a.ValvePosition? ==>
              a.value <= 100 && ParseDim20(raw).Some? && ClimatePlatform in platforms &&
              forall d :: d in a.devices ==> d in platforms[ClimatePlatform]
  {
    if FallsBack(k) {
      HandleFallsBack(raw, k, platforms);
      FallbackEffects(raw, k, platforms);
    } else if k.LightingEvent? || k.AutomationEvent? || k.DryContactEvent? || k.AuxEvent? || k.HeatingEvent? {
      if !k.isTranslation && !IsBroadcast(k) {
        PointToPointEffects(k, platforms);
      }
    }
  }

  /** A valve-position frame for zone `zone` reaches every matching climate device. */
  lemma ValvePositionForwarded(w: string, digits: string, platforms: Platforms, k: Kind)
    requires IsDim20Where(w) && IsDim20Digits(digits)
    requires k.OtherMessage? || k.GatewayMessage? || (k.HeatingCommand? && k.dimension != Some(14))
    requires ExtractZoneAndChannel(w).zone.Some? && DigitsValue(digits) <= 100
    requires ClimatePlatform in platforms
    ensures Handle(Dim20Text(w, digits), k, platforms) ==
              [ValvePosition(ZoneDevices(platforms[ClimatePlatform], ExtractZoneAndChannel(w).zone.value),
                             DigitsValue(digits), ExtractZoneAndChannel(w).channel)]
  {
    var raw := Dim20Text(w, digits);
    ParseDim20Complete(w, digits, "");
    assert raw + "" == raw;
    HandleFallsBack(raw, k, platforms);
    assert Fallback(raw, k, platforms) == Dim20Actions(Dim20Frame(w, digits), platforms);
  }

  /** A gateway message that is not a valve-position frame is counted under
      its type name; any other unrecognised message under its signature key. */
  lemma UnrecognisedAreCounted(raw: string, k: Kind, platforms: Platforms)
    requires ParseDim20(raw).None?
    requires k.GatewayMessage? || k.OtherMessage?
    ensures Handle(raw, k, platforms) ==
              [CountOccurrence(if k.GatewayMessage? then k.typeName else UnsupportedKey(raw))]
  {
  }

  /** A heating command for dimension 14 queries the zone it names, without its `#`. */
  lemma HeatingCommandQueriesZone(raw: string, zone: string, platforms: Platforms)
    ensures Handle(raw, HeatingCommand("#" + zone, Some(14)), platforms) == [RequestStatus(HeatingStatus(zone))]
    ensures Handle(raw, HeatingCommand(zone, Some(14)), platforms) ==
              [RequestStatus(HeatingStatus(if |zone| > 0 && zone[0] == '#' then zone[1..] else zone))]
  {
    assert ("#" + zone)[1..] == zone;
  }
}
