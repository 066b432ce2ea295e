/**
 * The whole Grbl machine record as a value, and what each entry point of the
 * class does to it as a function: sending a frame, asking a command, the
 * status timer, parsing one received line, delivering `commandExecuted` to
 * the connected slots, and the two halves of the configuration exchange.
 * The class Grbl (grbl.dfy) is proved to follow these functions; the lemmas
 * in commands.dfy, dispatch_props.dfy and sequencer.dfy state what they do.
 */
module MachineModel {
  import opened Text
  import opened Protocol
  import opened Encoder
  import StatusReport
  import InfoReport
  import opened Configuration
  import opened Dispatch

  /** The two slots of the class that `commandExecuted` is connected to while an exchange is running. */
  datatype Slot = OpenSlot | WriteSlot

  /**
   * One signal/slot connection. Each connection has its own identity, so that
   * a slot disconnected and connected again is a different connection.
   */
  datatype Connection = Connection(id: nat, slot: Slot)

  /** What the configuration dialog returns: cancelled, accepted but unreadable, or accepted with settings. */
  datatype EditorOutcome = Cancelled | AcceptedInvalid | Accepted(settings: map<nat, string>)

  datatype Axis = X | Y | Z

  /**
   * The part of the record that sending commands and the configuration
   * exchange read and change: the run state and the two flag sets, the
   * switches and actioners a reset clears, the settings with the exchange's
   * function-static position and widget, the live connections of
   * `commandExecuted` with the identity the next one gets, the frames handed
   * to the transport, and the transport's answer to the n-th send.
   */
  datatype Exchange = Exchange(
    state: StateType, infos: set<InfoFlag>, features: set<FeatureFlag>,
    switches: set<SwitchFlag>, actioners: set<ActionerFlag>,
    config: map<nat, string>, index: nat, widget: Option<nat>,
    connections: seq<Connection>, nextConnection: nat,
    outbox: seq<Sent>, answers: nat -> bool)

  /**
   * Every field of a Grbl object: the exchange part above, the sub-codes and
   * codes, positions, buffers, rates and overrides, the stored offsets, the
   * identity strings, the last line received, the function-static `first`
   * of parseStatus, and the notifications raised, oldest first.
   */
  datatype MachineState = MachineState(
    ex: Exchange,
    holdCode: int, doorCode: int, errorCode: int, alarmCode: int,
    working: Coords, machine: Coords, offset: Coords, prb: Coords, tlo: real,
    blockBuffer: int, rxBuffer: int, lineNumber: int, feedRate: int, spindleSpeed: int,
    feedOverride: int, rapidOverride: int, spindleOverride: int,
    blockBufferMax: int, rxBufferMax: int, gxx: map<nat, Coords>,
    name: string, version: string, lastLine: string,
    first: bool, events: seq<Event>)

  // ---------------------------------------------------------------------------
  // Views on the parts the sub-parsers work on

  function StatusOf(m: MachineState): StatusReport.Status {
    StatusReport.Status(m.ex.state, m.holdCode, m.doorCode, m.ex.infos, m.working, m.machine, m.offset,
      m.blockBuffer, m.rxBuffer, m.lineNumber, m.feedRate, m.spindleSpeed,
      m.feedOverride, m.rapidOverride, m.spindleOverride, m.ex.switches, m.ex.actioners, m.first)
  }

  function WithStatus(m: MachineState, s: StatusReport.Status): MachineState {
    m.(ex := m.ex.(state := s.state, infos := s.infos, switches := s.switches, actioners := s.actioners),
       holdCode := s.holdCode, doorCode := s.doorCode,
       working := s.working, machine := s.machine, offset := s.offset,
       blockBuffer := s.blockBuffer, rxBuffer := s.rxBuffer, lineNumber := s.lineNumber,
       feedRate := s.feedRate, spindleSpeed := s.spindleSpeed,
       feedOverride := s.feedOverride, rapidOverride := s.rapidOverride, spindleOverride := s.spindleOverride,
       first := s.first)
  }

  function InfoOf(m: MachineState): InfoReport.Info {
    InfoReport.Info(m.ex.infos, m.ex.features, m.tlo, m.prb, m.version, m.blockBufferMax, m.rxBufferMax, m.gxx)
  }

  function WithInfo(m: MachineState, i: InfoReport.Info): MachineState {
    m.(ex := m.ex.(infos := i.infos, features := i.features), tlo := i.tlo, prb := i.prb, version := i.version,
       blockBufferMax := i.blockBufferMax, rxBufferMax := i.rxBufferMax, gxx := i.gxx)
  }

  // ---------------------------------------------------------------------------
  // Transport and connections

  /** One send: the frame is appended to the outbox with the transport's answer for its position. */
  function Send(x: Exchange, f: Frame): (Exchange, bool) {
    var ok := x.answers(|x.outbox|);
    (x.(outbox := x.outbox + [Sent(f, ok)]), ok)
  }

  /** A composed line, sent with a newline. */
  function TextLine(text: string): Frame {
    Frame(Text(text), true)
  }

  predicate Connected(cs: seq<Connection>, s: Slot) {
    exists i :: 0 <= i < |cs| && cs[i].slot == s
  }

  /** The connections to slots other than `s`, in order. */
  function Without(cs: seq<Connection>, s: Slot): (r: seq<Connection>)
    ensures forall c :: c in r <==> c in cs && c.slot != s
    ensures !Connected(r, s)
    decreases |cs|
  {
    if cs == [] then []
    else if cs[|cs| - 1].slot == s then Without(cs[..|cs| - 1], s)
    else Without(cs[..|cs| - 1], s) + [cs[|cs| - 1]]
  }

  function Connect(x: Exchange, s: Slot): Exchange {
    x.(connections := x.connections + [Connection(x.nextConnection, s)], nextConnection := x.nextConnection + 1)
  }

  function Disconnect(x: Exchange, s: Slot): Exchange {
    x.(connections := Without(x.connections, s))
  }

  // ---------------------------------------------------------------------------
  // Commands

  /** What a reset forgets before it is sent: switches, actioners and the working offset. */
  function Forget(x: Exchange, command: CommandType): (r: Exchange)
    ensures r == x.(switches := r.switches, actioners := r.actioners, infos := r.infos)
  {
    if command == CommandReset then x.(switches := {}, actioners := {}, infos := x.infos - {HasWorkingOffset})
    else x
  }

  /** `ask`: the encoded frame is sent; a command without a frame sends nothing and reports failure. */
  function AskSpec(x: Exchange, command: CommandType, arg: int): (r: (Exchange, bool))
    ensures r.0 == x.(switches := r.0.switches, actioners := r.0.actioners, infos := r.0.infos, outbox := r.0.outbox)
  {
    var x1 := Forget(x, command);
    match Encode(command, arg)
    case None => (x1, false)
    case Some(f) => Send(x1, f)
  }

  /** `timeout`: the status poll, only while asking for status is enabled. */
  function TimeoutSpec(x: Exchange): Exchange {
    if AskStatus in x.features then AskSpec(x, CommandStatus, 0).0 else x
  }

  function ZeroCommand(axis: Axis): string {
    match axis
    case X => "G10L20P1X0"
    case Y => "G10L20P1Y0"
    case Z => "G10L20P1Z0"
  }

  function ZeroAxis(c: Coords, axis: Axis): Coords {
    match axis
    case X => c.(x := 0.0)
    case Y => c.(y := 0.0)
    case Z => c.(z := 0.0)
  }

  /** `setXWorkingZero` and its siblings: the axis is zeroed only when the transport took the command. */
  function SetWorkingZeroSpec(m: MachineState, axis: Axis): MachineState {
    var (x, ok) := Send(m.ex, TextLine(ZeroCommand(axis)));
    if ok then m.(ex := x.(infos := x.infos - {HasWorkingOffset}), working := ZeroAxis(m.working, axis))
    else m.(ex := x)
  }

  // ---------------------------------------------------------------------------
  // The configuration exchange

  /** The stored keys in ascending order. */
  function Keys(x: Exchange): seq<nat> {
    SortedKeys(x.config.Keys)
  }

  /** The start of a write: the position rewound, the status poll stopped, the slot connected. */
  function BeginWrite(x: Exchange): Exchange {
    Connect(x.(index := 0, features := x.features - {AskStatus}), WriteSlot)
  }

  /** One setting sent; a send that fails disconnects the slot. */
  function SendKey(x: Exchange, key: nat): (r: Exchange)
    requires key in x.config
    ensures r == x.(connections := r.connections, outbox := r.outbox)
  {
    var (x1, ok) := Send(x, TextLine(ConfigCommand(key, x.config[key])));
    if ok then x1 else Disconnect(x1, WriteSlot)
  }

  /** Every key written: the slot disconnected and the status poll resumed. */
  function EndWrite(x: Exchange): (r: Exchange)
    ensures r == x.(connections := r.connections, features := r.features)
  {
    var x1 := Disconnect(x, WriteSlot);
    x1.(features := x1.features + {AskStatus})
  }

  /**
   * A step of `writeConfiguration` without the start: the key at the position
   * is sent and the position advanced, the laser-mode key passed over (by a
   * further step) without the capability; past the last key the exchange ends.
   */
  function WriteFrom(x: Exchange): (r: Exchange)
    ensures r == x.(index := r.index, features := r.features, connections := r.connections,
                    nextConnection := r.nextConnection, outbox := r.outbox)
    decreases |x.config| - x.index
  {
    var keys := Keys(x);
    if x.index < |keys| then
      var key := keys[x.index];
      var x1 := x.(index := x.index + 1);
      if key == LaserModeKey && HasLaserMode !in x1.features then WriteFrom(x1)
      else SendKey(x1, key)
    else EndWrite(x)
  }

  /** `writeConfiguration`: a start rewinds the position, stops the status poll and connects the slot first. */
  function WriteSpec(x: Exchange, start: bool): Exchange {
    WriteFrom(if start then BeginWrite(x) else x)
  }

  /** The first call of `openConfiguration`: settings cleared, status poll stopped, slot connected, settings asked for. */
  function BeginOpen(x: Exchange, parent: nat): Exchange {
    var x1 := Connect(x.(widget := Some(parent), config := map[], features := x.features - {AskStatus}), OpenSlot);
    AskSpec(x1, CommandConfig, 0).0
  }

  /** The end of the reading half: slot disconnected, status poll resumed, the dialog's settings written. */
  function EndOpen(x: Exchange, editor: EditorOutcome): Exchange {
    var x1 := Disconnect(x, OpenSlot);
    var x2 := x1.(features := x1.features + {AskStatus});
    match editor
    case Accepted(settings) => WriteSpec(x2.(config := settings), true)
    case _ => x2
  }

  /**
   * `openConfiguration`: outside Idle and Alarm nothing happens. Called with
   * a parent widget it starts the exchange by asking for the settings; called
   * again on an acknowledgement it asks for the starting blocks while they
   * are missing, and otherwise ends the exchange, runs the dialog and, when
   * the dialog yields settings, starts writing them.
   */
  function OpenSpec(x: Exchange, parent: Option<nat>, editor: EditorOutcome): Exchange {
    if x.state != Idle && x.state != Alarm then x
    else if parent.Some? then BeginOpen(x, parent.value)
    else if HasStartingBlocks !in x.infos then AskSpec(x, CommandStartBlock, 0).0
    else EndOpen(x, editor)
  }

  function Invoke(x: Exchange, s: Slot, editor: EditorOutcome): Exchange {
    match s
    case OpenSlot => OpenSpec(x, None, editor)
    case WriteSlot => WriteSpec(x, false)
  }

  /**
   * The emission of `commandExecuted` to the connections that existed when it
   * started, in order; a connection removed meanwhile is skipped.
   */
  function Deliver(x: Exchange, pending: seq<Connection>, editor: EditorOutcome): Exchange
    decreases |pending|
  {
    if pending == [] then x
    else
      var x1 := Deliver(x, pending[..|pending| - 1], editor);
      var c := pending[|pending| - 1];
      if c in x1.connections then Invoke(x1, c.slot, editor) else x1
  }

  /** One more pending connection: its slot runs if it is still connected. */
  lemma DeliverExtend(x: Exchange, pending: seq<Connection>, i: nat, editor: EditorOutcome)
    requires i < |pending|
    ensures var x1 := Deliver(x, pending[..i], editor);
      Deliver(x, pending[..i + 1], editor) == if pending[i] in x1.connections then Invoke(x1, pending[i].slot, editor) else x1
  {
    assert pending[..i + 1][..i] == pending[..i];
  }

  // ---------------------------------------------------------------------------
  // Received lines, one function per branch of `parse`, each ending with its notification

  /** A start-up banner: name and version (kept when missing, see BannerAsWritten), state reset, build information asked for. */
  function BannerSpec(m: MachineState, line: string): MachineState {
    var words := Split(line, ' ');
    var version := if |words| >= 2 then words[1] else m.version;
    var x := m.ex.(features := m.ex.features + {Name, Version}, state := Unknown);
    m.(ex := AskSpec(x, CommandInfos, 0).0, name := words[0], version := version,
       events := m.events + [VersionUpdated, ResetDone])
  }

  /** The code as written reads the second word of the banner without checking that it exists. */
  function BannerAsWritten(m: MachineState, line: string): MachineState
    requires |Split(line, ' ')| >= 2
  {
    var words := Split(line, ' ');
    var x := m.ex.(features := m.ex.features + {Name, Version}, state := Unknown);
    m.(ex := AskSpec(x, CommandInfos, 0).0, name := words[0], version := words[1],
       events := m.events + [VersionUpdated, ResetDone])
  }

  /** An acknowledgement: the error flag cleared, commandExecuted raised and delivered. */
  function AckSpec(m: MachineState, editor: EditorOutcome): MachineState {
    var x := m.ex.(infos := m.ex.infos - {HasError});
    m.(ex := Deliver(x, x.connections, editor), events := m.events + [CommandExecuted])
  }

  /** An acknowledgement changes the exchange and the notifications and nothing else. */
  lemma AckTouchesExchangeAndEvents(m: MachineState, editor: EditorOutcome, r: MachineState)
    requires r.ex == AckSpec(m, editor).ex && r.events == AckSpec(m, editor).events
    requires r == m.(ex := r.ex, events := r.events)
    ensures r == AckSpec(m, editor)
  {
  }

  function ErrorSpec(m: MachineState, code: int): MachineState {
    m.(errorCode := code, events := m.events + [ErrorReported(code)])
  }

  function AlarmSpec(m: MachineState, code: int): MachineState {
    m.(ex := m.ex.(state := Alarm), alarmCode := code, events := m.events + [AlarmRaised(code)])
  }

  /** An information response applied to the record, then infoUpdated. */
  function InfoSpec(m: MachineState, line: string): MachineState {
    var r := InfoReport.InfoStep(InfoOf(m), line);
    WithInfo(m, r.info).(events := m.events + r.emitted + [InfoUpdated])
  }

  /** A status report applied to the record, then statusUpdated. */
  function ReportSpec(m: MachineState, line: string): MachineState {
    var sc := StatusReport.StatusStep(StatusOf(m), line);
    WithStatus(m, sc.st).(events := m.events + sc.emitted + [StatusUpdated])
  }

  /** A setting line stored under its key, with the flag of its kind. */
  function StoreSetting(x: Exchange, line: string): Exchange {
    match ConfigEntry(line)
    case None => x
    case Some(e) => x.(config := x.config[e.key := e.value], infos := x.infos + {e.flag})
  }

  function SettingSpec(m: MachineState, line: string): MachineState {
    m.(ex := StoreSetting(m.ex, line), events := m.events + [ConfigUpdated])
  }

  /** `parse`: one received line, remembered and dispatched on its prefix. */
  function ParseSpec(m: MachineState, line: string, editor: EditorOutcome): MachineState {
    var m0 := m.(lastLine := line);
    match Classify(line)
    case BannerLine => BannerSpec(m0, line)
    case AckLine => AckSpec(m0, editor)
    case ErrorLine => ErrorSpec(m0, ParseInt(Right(line, |line| - 6)))
    case AlarmLine => AlarmSpec(m0, ParseInt(Right(line, |line| - 6)))
    case InfoLine => InfoSpec(m0, line)
    case StatusLine => ReportSpec(m0, line)
    case SettingLine => SettingSpec(m0, line)
    case _ => m0
  }

  /**
   * The record of a new object before the constructor asks for the build
   * information. The overrides start at 100 percent; every other number is 0
   * and every coordinate the origin.
   */
  function Fresh(answers: nat -> bool): MachineState {
    MachineState(
      Exchange(Unknown, {}, {AskStatus, Name}, {}, {}, map[], 0, None, [], 0, [], answers),
      0, 0, 0, 0, Origin, Origin, Origin, Origin, 0.0,
      0, 0, 0, 0, 0, 100, 100, 100, 0, 0, map[],
      "GRBL", "", "", true, [])
  }

  /** The constructor: the initial record, then the build information asked for. */
  function InitialSpec(answers: nat -> bool): MachineState {
    var m := Fresh(answers);
    m.(ex := AskSpec(m.ex, CommandInfos, 0).0)
  }
}
