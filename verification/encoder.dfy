/**
 * The command encoder of `Grbl::ask`: an abstract command and an optional
 * sub-command become either one realtime byte sent without a newline or a
 * short line sent with one. An override family asked for a sub-command it
 * does not have yields no command at all.
 */
module Encoder {
  import opened Protocol

  datatype CommandType =
    | CommandReset | CommandStatus | CommandUnlock | CommandHoming | CommandConfig
    | CommandInfos | CommandStartBlock | CommandPause | CommandFeedHold | CommandCycleStart
    | CommandDebugReport | CommandJogCancel | CommandSafetyDoor | CommandCheck
    | CommandOverrideFeed | CommandOverrideRapid | CommandOverrideSpindle
    | CommandOverrideCoolantFloodToggle | CommandOverrideCoolantMistToggle

  // The sub-command enumerators (SubCommandType). Their numbering lives in a
  // header that is not part of this model; any distinct values will do.
  const SubReset: int := 0
  const SubCoarsePlus: int := 1
  const SubCoarseMinus: int := 2
  const SubFinePlus: int := 3
  const SubFineMinus: int := 4
  const SubLow: int := 5
  const SubMedium: int := 6
  const SubStop: int := 7

  /**
   * The device's realtime command class: commands acted upon as soon as the
   * byte arrives, without a line terminator. The others are line commands.
   */
  predicate IsRealtime(m: Macro) {
    !(m in {CmdUnlock, CmdHome, CmdConfig, CmdInfos, CmdStartBlock, CmdCheck})
  }

  function FeedOverride(arg: int): Option<Macro> {
    if arg == SubReset then Some(FeedOvrReset)
    else if arg == SubCoarsePlus then Some(FeedOvrCoarsePlus)
    else if arg == SubCoarseMinus then Some(FeedOvrCoarseMinus)
    else if arg == SubFinePlus then Some(FeedOvrFinePlus)
    else if arg == SubFineMinus then Some(FeedOvrFineMinus)
    else None
  }

  function RapidOverride(arg: int): Option<Macro> {
    if arg == SubReset then Some(RapidOvrReset)
    else if arg == SubLow then Some(RapidOvrLow)
    else if arg == SubMedium then Some(RapidOvrMedium)
    else None
  }

  function SpindleOverride(arg: int): Option<Macro> {
    if arg == SubReset then Some(SpindleOvrReset)
    else if arg == SubCoarsePlus then Some(SpindleOvrCoarsePlus)
    else if arg == SubCoarseMinus then Some(SpindleOvrCoarseMinus)
    else if arg == SubFinePlus then Some(SpindleOvrFinePlus)
    else if arg == SubFineMinus then Some(SpindleOvrFineMinus)
    else if arg == SubStop then Some(SpindleOvrStop)
    else None
  }

  function Realtime(m: Macro): Frame {
    Frame(Fixed(m), false)
  }

  function Line(m: Macro): Frame {
    Frame(Fixed(m), true)
  }

  function Lift(m: Option<Macro>): Option<Frame> {
    match m
    case None => None
    case Some(x) => Some(Realtime(x))
  }

  /**
   * The (command, sub-command) to frame mapping of `ask`; None is the empty
   * command. The command is empty exactly when an override family is asked
   * for a sub-command it lacks; every other command is one fixed command,
   * carrying a newline exactly when it is a line command.
   */
  function Encode(command: CommandType, arg: int): (r: Option<Frame>)
    ensures r.None? <==> !HasSubCommand(command, arg)
    ensures r.Some? ==> r.value.payload.Fixed? && (r.value.newLine <==> !IsRealtime(r.value.payload.macro))
  {
    match command
    case CommandReset => Some(Realtime(CmdReset))
    case CommandStatus => Some(Realtime(CmdStatusReport))
    case CommandUnlock => Some(Line(CmdUnlock))
    case CommandHoming => Some(Line(CmdHome))
    case CommandConfig => Some(Line(CmdConfig))
    case CommandInfos => Some(Line(CmdInfos))
    case CommandStartBlock => Some(Line(CmdStartBlock))
    case CommandPause => Some(Realtime(if arg != 0 then CmdFeedHold else CmdCycleStart))
    case CommandFeedHold => Some(Realtime(CmdFeedHold))
    case CommandCycleStart => Some(Realtime(CmdCycleStart))
    case CommandDebugReport => Some(Realtime(CmdDebugReport))
    case CommandJogCancel => Some(Realtime(CmdJogCancel))
    case CommandSafetyDoor => Some(Realtime(CmdSafetyDoor))
    case CommandCheck => Some(Line(CmdCheck))
    case CommandOverrideFeed => Lift(FeedOverride(arg))
    case CommandOverrideRapid => Lift(RapidOverride(arg))
    case CommandOverrideSpindle => Lift(SpindleOverride(arg))
    case CommandOverrideCoolantFloodToggle => Some(Realtime(CoolantFloodOvrToggle))
    case CommandOverrideCoolantMistToggle => Some(Realtime(CoolantMistOvrToggle))
  }

  /** Whether `arg` names a sub-command of the override family `command`. */
  predicate HasSubCommand(command: CommandType, arg: int) {
    match command
    case CommandOverrideFeed => arg in {SubReset, SubCoarsePlus, SubCoarseMinus, SubFinePlus, SubFineMinus}
    case CommandOverrideRapid => arg in {SubReset, SubLow, SubMedium}
    case CommandOverrideSpindle => arg in {SubReset, SubCoarsePlus, SubCoarseMinus, SubFinePlus, SubFineMinus, SubStop}
    case _ => true
  }
}
