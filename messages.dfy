/** The bus messages the gateway handler consumes and the commands it builds.
    The external message library's class hierarchy becomes one tagged union;
    each variant carries exactly the flags and fields the handler reads. */
module Messages {
  import opened Wrappers

  /** Outbound commands. The discovery and dispatch code builds the status
      requests itself; anything else reaches `send` from a device or service. */
  datatype Command =
    | LightingStatus(where: string)
    | AutomationStatus(where: string)
    | HeatingStatus(where: string)
    | EnergyTotalConsumption(where: string)
    | OtherCommand(text: string)

  /** One entry of the send queue: a command with its status-request flag,
      or the shutdown sentinel (`None`) that ends one sending worker. */
  datatype QueueItem =
    | Task(command: Command, isStatusRequest: bool)
    | Shutdown

  /** The queue entries `send_status_request` puts for each command, in order. */
  function StatusTasks(cmds: seq<Command>): (r: seq<QueueItem>)
    ensures |r| == |cmds|
    ensures forall i :: 0 <= i < |cmds| ==> r[i] == Task(cmds[i], true)
  {
    if |cmds| == 0 then [] else [Task(cmds[0], true)] + StatusTasks(cmds[1..])
  }

  lemma StatusTasksAppend(a: seq<Command>, b: seq<Command>)
    ensures StatusTasks(a + b) == StatusTasks(a) + StatusTasks(b)
  {
    assert |StatusTasks(a + b)| == |StatusTasks(a) + StatusTasks(b)|;
    forall i | 0 <= i < |a + b| ensures StatusTasks(a + b)[i] == (StatusTasks(a) + StatusTasks(b))[i] {
      if i >= |a| {
        assert (a + b)[i] == b[i - |a|];
      }
    }
  }

  /** What the event session returned: `raw` is its text, `str(message)`. */
  datatype Message = Message(raw: string, kind: Kind)

  datatype Kind =
    | LightingEvent(where: string, entity: string, isGeneral: bool, isArea: bool, isGroup: bool,
                    isOn: bool, area: string, group: string, brightnessPreset: bool,
                    isTranslation: bool)
    | AutomationEvent(where: string, entity: string, isGeneral: bool, isArea: bool, isGroup: bool,
                      isOpening: bool, isClosing: bool, area: string, group: string,
                      isTranslation: bool)
    | DryContactEvent(entity: string, isTranslation: bool)
    | AuxEvent(entity: string, isTranslation: bool)
    | HeatingEvent(where: string, entity: string, isTranslation: bool)
    | EnergyEvent(whereAttr: Option<string>, entity: string)
    | HeatingCommand(where: string, dimension: Option<int>)
    | CenPlusEvent(obj: int, pushButton: int, isShortPressed: bool, isHeld: bool,
                   isStillHeld: bool, isReleased: bool)
    | CenEvent(obj: int, pushButton: int, isPressed: bool, isReleasedAfterShortPress: bool,
               isHeld: bool, isReleasedAfterLongPress: bool)
    | GatewayMessage(typeName: string)  // a gateway event or command, by its class name
    | OtherMessage                      // any other parsed message
    | NotAMessage                       // data that did not parse as a message

  /** Lighting and automation events addressed to the whole system, an area
      or a group rather than to one point. */
  predicate IsBroadcast(k: Kind)
  {
    (k.LightingEvent? && (k.isGeneral || k.isArea || k.isGroup)) ||
    (k.AutomationEvent? && (k.isGeneral || k.isArea || k.isGroup))
  }
}
