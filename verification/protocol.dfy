/**
 * The vocabulary shared by every part of the Grbl protocol state machine: the
 * device state, the two flag sets (observed information and device
 * features), the switch and actioner bit-sets, coordinates, the notifications
 * the machine raises, and the frames it hands to the transport.
 */
module Protocol {

  /** Grbl's run state, as reported first in every status report. */
  datatype StateType = Unknown | Idle | Run | Hold | Jog | Home | Alarm | Check | Door | Sleep

  /** What has been observed about the device (the `infos` bit-set). */
  datatype InfoFlag =
    | HasWorkingOffset | HasMachineCoords | HasWorkingCoords
    | HasBuffer | HasLineNumber | HasFeedRate | HasSpindleSpeed
    | HasOverride | HasActioners | HasSwitches
    | HasConfig | HasStartingBlocks
    | IsMilimeters | IsAbsolute | HasError
    | HasTLO | HasPRB | HasGC | HasGXX

  /** Device capabilities and host behaviour toggles (the `features` bit-set). */
  datatype FeatureFlag = AskStatus | Name | Version | HasVariableSpindle | HasLaserMode | HasCoolantMist

  /** Input pins reported by `Pn:`. */
  datatype SwitchFlag = ProbePin | LimitX | LimitY | LimitZ | DoorPin | ResetPin | FeedHoldPin | CycleStartPin

  /** Outputs reported by `A:`. */
  datatype ActionerFlag = Spindle | SpindleVariable | SpindleCounterClockwise | Coolant | CoolantFlood | CoolantMist

  datatype Option<T> = None | Some(value: T)

  datatype Coords = Coords(x: real, y: real, z: real)

  function Plus(a: Coords, b: Coords): Coords {
    Coords(a.x + b.x, a.y + b.y, a.z + b.z)
  }

  function Minus(a: Coords, b: Coords): Coords {
    Coords(a.x - b.x, a.y - b.y, a.z - b.z)
  }

  const Origin: Coords := Coords(0.0, 0.0, 0.0)

  /** The notifications (Qt signals) the machine raises, in the order it raises them. */
  datatype Event =
    | VersionUpdated | ResetDone | CommandExecuted
    | ErrorReported(code: int) | AlarmRaised(code: int)
    | InfoUpdated | StatusUpdated | ConfigUpdated
    | StateUpdated | CoordinatesUpdated | BuffersUpdated | LineNumberUpdated
    | RatesUpdated | SwitchesUpdated | ActionersUpdated

  /**
   * The fixed command texts of the device's command set (the CMD_* macros).
   * Their byte values belong to a header that is not part of this model; as
   * enumerators they are distinct by construction.
   */
  datatype Macro =
    | CmdReset | CmdStatusReport | CmdUnlock | CmdHome | CmdConfig | CmdInfos | CmdStartBlock
    | CmdFeedHold | CmdCycleStart | CmdDebugReport | CmdJogCancel | CmdSafetyDoor | CmdCheck
    | FeedOvrReset | FeedOvrCoarsePlus | FeedOvrCoarseMinus | FeedOvrFinePlus | FeedOvrFineMinus
    | RapidOvrReset | RapidOvrLow | RapidOvrMedium
    | SpindleOvrReset | SpindleOvrCoarsePlus | SpindleOvrCoarseMinus | SpindleOvrFinePlus
    | SpindleOvrFineMinus | SpindleOvrStop
    | CoolantFloodOvrToggle | CoolantMistOvrToggle

  /** What is handed to the transport: a fixed command or a composed line. */
  datatype Payload = Fixed(macro: Macro) | Text(text: string)

  /** One call of the transport's send: the payload and whether a newline follows it. */
  datatype Frame = Frame(payload: Payload, newLine: bool)

  /** One entry of the outbound channel: the frame and whether the transport accepted it. */
  datatype Sent = Sent(frame: Frame, delivered: bool)
}
