/**
 * The class Grbl: the protocol state machine with its fields updated in
 * place, one method per entry point of the source class and one per branch
 * or block it handles. Each method is proved to change the object as the
 * matching function of MachineModel, StatusReport or InfoReport says, through
 * views that read fields into values: Snapshot() reads every field,
 * ExchangeView() the part the command path and the configuration exchange
 * work on, StatusView() and InfoView() the parts the two sub-parsers work on.
 */
module GrblMachine {
  import opened Text
  import opened Protocol
  import opened Encoder
  import StatusReport
  import InfoReport
  import opened Configuration
  import opened MachineModel
  import opened Dispatch

  class Grbl {
    var state: StateType
    var holdCode: int
    var doorCode: int
    var errorCode: int
    var alarmCode: int
    var infos: set<InfoFlag>
    var features: set<FeatureFlag>
    var switches: set<SwitchFlag>
    var actioners: set<ActionerFlag>
    var workingCoordinates: Coords
    var machineCoordinates: Coords
    var workingOffset: Coords
    var prbCoords: Coords
    var tloValue: real
    var blockBuffer: int
    var rxBuffer: int
    var lineNumber: int
    var feedRate: int
    var spindleSpeed: int
    var fOverride: int
    var rOverride: int
    var spindleSpeedOverride: int
    var blockBufferMax: int
    var rxBufferMax: int
    var gxxConfig: map<nat, Coords>
    var machineName: string
    var machineVersion: string
    var lastLine: string
    var config: map<nat, string>
    // The function-static locals of parseStatus, writeConfiguration and openConfiguration.
    var first: bool
    var index: nat
    var widget: Option<nat>
    // The live connections of commandExecuted, with the identity the next one gets.
    var connections: seq<Connection>
    var nextConnection: nat
    // The frames handed to the transport and the notifications raised, oldest first.
    var outbox: seq<Sent>
    var events: seq<Event>
    /** The transport's answer to the n-th send. */
    const answers: nat -> bool

    ghost function ExchangeView(): Exchange
      reads this
    {
      Exchange(state, infos, features, switches, actioners, config, index, widget,
        connections, nextConnection, outbox, answers)
    }

    /**
     * Every live connection's identity is below the one the next connection
     * gets, so a connection made anew never shares its identity with one
     * made before.
     */
    ghost predicate Valid()
      reads this`connections, this`nextConnection
    {
      forall c | c in connections :: c.id < nextConnection
    }

    ghost function Snapshot(): MachineState
      reads this
    {
      MachineState(ExchangeView(), holdCode, doorCode, errorCode, alarmCode,
        workingCoordinates, machineCoordinates, workingOffset, prbCoords, tloValue,
        blockBuffer, rxBuffer, lineNumber, feedRate, spindleSpeed, fOverride, rOverride, spindleSpeedOverride,
        blockBufferMax, rxBufferMax, gxxConfig, machineName, machineVersion, lastLine, first, events)
    }

    /** The fields a status report reads and writes. */
    ghost function StatusView(): StatusReport.Status
      reads this
    {
      StatusReport.Status(state, holdCode, doorCode, infos, workingCoordinates, machineCoordinates, workingOffset,
        blockBuffer, rxBuffer, lineNumber, feedRate, spindleSpeed, fOverride, rOverride, spindleSpeedOverride,
        switches, actioners, first)
    }

    /** The fields an information response reads and writes. */
    ghost function InfoView(): InfoReport.Info
      reads this
    {
      InfoReport.Info(infos, features, tloValue, prbCoords, machineVersion, blockBufferMax, rxBufferMax, gxxConfig)
    }

    /** The object is where the report `sc` has got to, with everything raised so far. */
    ghost predicate Mirrors(sc: StatusReport.Scan)
      reads this
    {
      StatusView() == sc.st && events == sc.emitted
    }

    /** A new machine asks for the build information at once. */
    constructor (answers: nat -> bool)
      ensures Snapshot() == InitialSpec(answers)
      ensures Valid()
    {
      state, holdCode, doorCode, errorCode, alarmCode := Unknown, 0, 0, 0, 0;
      infos, features, switches, actioners := {}, {AskStatus, Name}, {}, {};
      workingCoordinates, machineCoordinates, workingOffset, prbCoords, tloValue := Origin, Origin, Origin, Origin, 0.0;
      blockBuffer, rxBuffer, lineNumber, feedRate, spindleSpeed := 0, 0, 0, 0, 0;
      fOverride, rOverride, spindleSpeedOverride, blockBufferMax, rxBufferMax := 100, 100, 100, 0, 0;
      gxxConfig, machineName, machineVersion, lastLine, config := map[], "GRBL", "", "", map[];
      first, index, widget := true, 0, None;
      connections, nextConnection, outbox, events := [], 0, [], [];
      this.answers := answers;
      new;
      Startup();
    }

    /** The constructor's request for the build information. */
    method Startup()
      modifies this`switches, this`actioners, this`infos, this`outbox
      ensures Snapshot() == old(Snapshot()).(ex := AskSpec(old(ExchangeView()), CommandInfos, 0).0)
    {
      var _ := Ask(CommandInfos, 0);
    }

    // -------------------------------------------------------------------------
    // Transport, connections, notifications

    method SendCommand(f: Frame) returns (ok: bool)
      modifies this`outbox
      ensures (ExchangeView(), ok) == Send(old(ExchangeView()), f)
    {
      ok := answers(|outbox|);
      outbox := outbox + [Sent(f, ok)];
    }

    method ConnectSlot(s: Slot)
      requires Valid()
      modifies this`connections, this`nextConnection
      ensures ExchangeView() == Connect(old(ExchangeView()), s)
      ensures forall c | c in old(connections) :: c.id != old(nextConnection)
      ensures Valid()
    {
      connections := connections + [Connection(nextConnection, s)];
      nextConnection := nextConnection + 1;
    }

    method DisconnectSlot(s: Slot)
      requires Valid()
      modifies this`connections
      ensures ExchangeView() == Disconnect(old(ExchangeView()), s)
      ensures Valid()
    {
      connections := Without(connections, s);
    }

    /** A signal emitted. */
    method Raise(e: Event)
      modifies this`events
      ensures events == old(events) + [e]
    {
      events := events + [e];
    }

    // -------------------------------------------------------------------------
    // Commands

    method ForgetOnReset(command: CommandType)
      modifies this`switches, this`actioners, this`infos
      ensures ExchangeView() == Forget(old(ExchangeView()), command)
    {
      if command == CommandReset {
        switches := {};
        actioners := {};
        // The device forgets its working offset on reset.
        infos := infos - {HasWorkingOffset};
      }
    }

    method Ask(command: CommandType, arg: int) returns (ok: bool)
      modifies this`switches, this`actioners, this`infos, this`outbox
      ensures (ExchangeView(), ok) == AskSpec(old(ExchangeView()), command, arg)
    {
      ForgetOnReset(command);
      var f := Encode(command, arg);
      if f.None? {
        return false;
      }
      ok := SendCommand(f.value);
    }

    method Timeout()
      modifies this`switches, this`actioners, this`infos, this`outbox
      ensures ExchangeView() == TimeoutSpec(old(ExchangeView()))
    {
      if AskStatus in features {
        var _ := Ask(CommandStatus, 0);
      }
    }

    /** `setXWorkingZero`. */
    method SetXWorkingZero()
      modifies this`outbox, this`workingCoordinates, this`infos
      ensures Snapshot() == SetWorkingZeroSpec(old(Snapshot()), X)
    {
      SetWorkingZero(X);
    }

    /** `setYWorkingZero`. */
    method SetYWorkingZero()
      modifies this`outbox, this`workingCoordinates, this`infos
      ensures Snapshot() == SetWorkingZeroSpec(old(Snapshot()), Y)
    {
      SetWorkingZero(Y);
    }

    /** `setZWorkingZero`. */
    method SetZWorkingZero()
      modifies this`outbox, this`workingCoordinates, this`infos
      ensures Snapshot() == SetWorkingZeroSpec(old(Snapshot()), Z)
    {
      SetWorkingZero(Z);
    }

    /** The body the three share: the axis is zeroed only when the transport took the command. */
    method SetWorkingZero(axis: Axis)
      modifies this`outbox, this`workingCoordinates, this`infos
      ensures var m := SetWorkingZeroSpec(old(Snapshot()), axis);
        outbox == m.ex.outbox && workingCoordinates == m.working && infos == m.ex.infos
    {
      var ok := SendCommand(TextLine(ZeroCommand(axis)));
      if ok {
        workingCoordinates := ZeroAxis(workingCoordinates, axis);
        infos := infos - {HasWorkingOffset};
      }
    }

    // -------------------------------------------------------------------------
    // Received lines
    //
    // Each branch of `parse` is a method On... that states its effect on the
    // whole object, and the method that does the work, which states it field
    // by field. Every branch starts by keeping the line as the last one.

    method Parse(line: string, editor: EditorOutcome)
      requires Valid()
      modifies this
      ensures Snapshot() == ParseSpec(old(Snapshot()), line, editor)
      ensures Valid()
    {
      Remember(line);
      // The prefixes are tested in a fixed order; Classify is that chain of tests.
      match Classify(line) {
        case BannerLine => OnBanner(line);
        case AckLine => OnAck(editor);
        case ErrorLine => OnError(line);
        case AlarmLine => OnAlarm(line);
        case InfoLine => OnInfo(line);
        case StatusLine => OnStatus(line);
        case EchoLine =>
          // An executed startup block is echoed; nothing to do.
        case SettingLine => OnSetting(line);
        case UnknownLine =>
        case EmptyLine =>
      }
    }

    /** The line is kept as the last one received. */
    method Remember(line: string)
      modifies this`lastLine
      ensures Snapshot() == old(Snapshot()).(lastLine := line)
    {
      KeepLine(line);
    }

    method KeepLine(line: string)
      modifies this`lastLine
      ensures lastLine == line
    {
      lastLine := line;
    }

    method OnBanner(line: string)
      modifies this`machineName, this`machineVersion, this`features, this`events, this`state
      modifies this`switches, this`actioners, this`infos, this`outbox
      ensures Snapshot() == BannerSpec(old(Snapshot()), line)
    {
      Banner(line);
    }

    method Banner(line: string)
      modifies this`machineName, this`machineVersion, this`features, this`events, this`state
      modifies this`switches, this`actioners, this`infos, this`outbox
      ensures var m := BannerSpec(old(Snapshot()), line);
        && machineName == m.name && machineVersion == m.version
        && features == m.ex.features && state == m.ex.state && switches == m.ex.switches
        && actioners == m.ex.actioners && infos == m.ex.infos && outbox == m.ex.outbox && events == m.events
    {
      Identify(line);
      RequestInfos();
    }

    /** Name and version from the banner, and the state reset. */
    method Identify(line: string)
      modifies this`machineName, this`machineVersion, this`features, this`events, this`state
      ensures var words := Split(line, ' ');
        && machineName == words[0] && machineVersion == (if |words| >= 2 then words[1] else old(machineVersion))
        && features == old(features) + {Name, Version} && state == Unknown
        && events == old(events) + [VersionUpdated]
    {
      var blocks := Split(line, ' ');
      machineName := blocks[0];
      features := features + {Name};
      // The code as written reads the second word unconditionally (see BannerAsWritten).
      if |blocks| >= 2 {
        machineVersion := blocks[1];
      }
      features := features + {Version};
      events := events + [VersionUpdated];
      state := Unknown;
    }

    /** The build information asked for, then resetDone. */
    method RequestInfos()
      modifies this`switches, this`actioners, this`infos, this`outbox, this`events
      ensures var x := AskSpec(old(ExchangeView()), CommandInfos, 0).0;
        && switches == x.switches && actioners == x.actioners && infos == x.infos && outbox == x.outbox
        && events == old(events) + [ResetDone]
    {
      var _ := Ask(CommandInfos, 0);
      events := events + [ResetDone];
    }

    method OnAck(editor: EditorOutcome)
      requires Valid()
      modifies this`infos, this`events, this`features, this`switches, this`actioners, this`config
      modifies this`index, this`widget, this`connections, this`nextConnection, this`outbox
      ensures Snapshot() == AckSpec(old(Snapshot()), editor)
      ensures Valid()
    {
      Acknowledge(editor);
      AckTouchesExchangeAndEvents(old(Snapshot()), editor, Snapshot());
    }

    method Acknowledge(editor: EditorOutcome)
      requires Valid()
      modifies this`infos, this`events, this`features, this`switches, this`actioners, this`config
      modifies this`index, this`widget, this`connections, this`nextConnection, this`outbox
      ensures var m := AckSpec(old(Snapshot()), editor);
        ExchangeView() == m.ex && events == m.events
      ensures Valid()
    {
      infos := infos - {HasError};
      events := events + [CommandExecuted];
      EmitCommandExecuted(editor);
    }

    method OnError(line: string)
      modifies this`errorCode, this`events
      ensures Snapshot() == ErrorSpec(old(Snapshot()), ParseInt(Right(line, |line| - 6)))
    {
      ErrorLineReceived(line);
    }

    method ErrorLineReceived(line: string)
      modifies this`errorCode, this`events
      ensures var m := ErrorSpec(old(Snapshot()), ParseInt(Right(line, |line| - 6)));
        errorCode == m.errorCode && events == m.events
    {
      var block := Right(line, |line| - 6);
      errorCode := ParseInt(block);
      events := events + [ErrorReported(errorCode)];
    }

    method OnAlarm(line: string)
      modifies this`alarmCode, this`state, this`events
      ensures Snapshot() == AlarmSpec(old(Snapshot()), ParseInt(Right(line, |line| - 6)))
    {
      AlarmLineReceived(line);
    }

    method AlarmLineReceived(line: string)
      modifies this`alarmCode, this`state, this`events
      ensures var m := AlarmSpec(old(Snapshot()), ParseInt(Right(line, |line| - 6)));
        alarmCode == m.alarmCode && state == m.ex.state && events == m.events
    {
      var block := Right(line, |line| - 6);
      alarmCode := ParseInt(block);
      state := Alarm;
      events := events + [AlarmRaised(alarmCode)];
    }

    method OnInfo(line: string)
      modifies this`infos, this`features, this`tloValue, this`prbCoords, this`machineVersion
      modifies this`blockBufferMax, this`rxBufferMax, this`gxxConfig, this`events
      ensures Snapshot() == InfoSpec(old(Snapshot()), line)
    {
      InfoLineReceived(line);
    }

    method InfoLineReceived(line: string)
      modifies this`infos, this`features, this`tloValue, this`prbCoords, this`machineVersion
      modifies this`blockBufferMax, this`rxBufferMax, this`gxxConfig, this`events
      ensures var m := InfoSpec(old(Snapshot()), line);
        InfoView() == InfoOf(m) && events == m.events
    {
      ghost var r := InfoReport.InfoStep(InfoView(), line);
      ParseInfo(line, r);
      events := events + [InfoUpdated];
    }

    method OnStatus(line: string)
      modifies this`state, this`holdCode, this`doorCode, this`infos
      modifies this`workingCoordinates, this`machineCoordinates, this`workingOffset
      modifies this`blockBuffer, this`rxBuffer, this`lineNumber, this`feedRate, this`spindleSpeed
      modifies this`fOverride, this`rOverride, this`spindleSpeedOverride
      modifies this`switches, this`actioners, this`first, this`events
      ensures Snapshot() == ReportSpec(old(Snapshot()), line)
    {
      StatusLineReceived(line);
    }

    method StatusLineReceived(line: string)
      modifies this`state, this`holdCode, this`doorCode, this`infos
      modifies this`workingCoordinates, this`machineCoordinates, this`workingOffset
      modifies this`blockBuffer, this`rxBuffer, this`lineNumber, this`feedRate, this`spindleSpeed
      modifies this`fOverride, this`rOverride, this`spindleSpeedOverride
      modifies this`switches, this`actioners, this`first, this`events
      ensures var m := ReportSpec(old(Snapshot()), line);
        StatusView() == StatusOf(m) && events == m.events
    {
      ghost var sc := StatusReport.StatusStep(StatusView(), line);
      ParseStatus(line, sc);
      events := events + [StatusUpdated];
    }

    method OnSetting(line: string)
      modifies this`config, this`infos, this`events
      ensures Snapshot() == SettingSpec(old(Snapshot()), line)
    {
      SettingLineReceived(line);
    }

    method SettingLineReceived(line: string)
      modifies this`config, this`infos, this`events
      ensures var m := SettingSpec(old(Snapshot()), line);
        config == m.ex.config && infos == m.ex.infos && events == m.events
    {
      ParseConfig(line);
      events := events + [ConfigUpdated];
    }

    method ParseConfig(line: string)
      modifies this`config, this`infos
      ensures var x := StoreSetting(old(ExchangeView()), line);
        config == x.config && infos == x.infos
    {
      if StartsWith(line, "$N") {
        var vals := Split(line[2..], '=');
        if |vals| == 2 {
          var key := ParseUInt(vals[0]);
          // Unsigned addition: the key wraps around in 32 bits.
          config := config[(key + StartingBlock0) % UInt32Modulus := vals[1]];
          infos := infos + {HasStartingBlocks};
        }
      } else if StartsWith(line, "$") {
        var vals := Split(line[1..], '=');
        if |vals| == 2 {
          var key := ParseUInt(vals[0]);
          config := config[key := vals[1]];
          infos := infos + {HasConfig};
        }
      }
    }

    // -------------------------------------------------------------------------
    // Information responses

    /** `parseInfo`, proved to have the effect `r` that InfoStep gives for the line. */
    method ParseInfo(line: string, ghost r: InfoReport.InfoResult)
      requires r == InfoReport.InfoStep(InfoView(), line)
      modifies this`infos, this`features, this`tloValue, this`prbCoords, this`machineVersion
      modifies this`blockBufferMax, this`rxBufferMax, this`gxxConfig, this`events
      ensures InfoView() == r.info && events == old(events) + r.emitted
    {
      var block := Right(line, |line| - 1);
      block := Left(block, |block| - 1);
      if StartsWith(block, "TLO:") {
        ToolLengthOffset(block[4..]);
      } else if StartsWith(block, "PRB:") {
        ProbeResult(block[4..]);
      } else if StartsWith(block, "GC:") {
        ParserState(block[3..]);
      } else if StartsWith(block, "VER:") {
        BuildVersion(block[4..]);
      } else if StartsWith(block, "OPT:") {
        BuildOptions(block[4..]);
      } else if StartsWith(block, "G") {
        CoordinateOffset(block[1..]);
      }
    }

    method ToolLengthOffset(payload: string)
      modifies this`tloValue, this`infos
      ensures InfoView() == InfoReport.ToolOffsetEntry(old(InfoView()), payload).info
    {
      tloValue := ParseReal(payload);
      infos := infos + {HasTLO};
    }

    method ProbeResult(payload: string)
      modifies this`prbCoords, this`infos
      ensures InfoView() == InfoReport.ProbeEntry(old(InfoView()), payload).info
    {
      var vals := Split(payload, ',');
      if |vals| == 3 {
        prbCoords := Coords(ParseReal(vals[0]), ParseReal(vals[1]), ParseReal(vals[2]));
        infos := infos + {HasPRB};
      }
    }

    /** `GC:`: the modal words, one at a time. */
    method ParserState(payload: string)
      modifies this`infos
      ensures InfoView() == InfoReport.ParserStateEntry(old(InfoView()), payload).info
    {
      var words := Split(payload, ' ');
      var i := 0;
      while i < |words|
        invariant 0 <= i <= |words|
        invariant infos == InfoReport.GcModes(old(infos), words[..i])
      {
        var command := words[i];
        if command == "G20" { infos := infos - {IsMilimeters}; }
        if command == "G21" { infos := infos + {IsMilimeters}; }
        if command == "G90" { infos := infos - {IsAbsolute}; }
        if command == "G91" { infos := infos + {IsAbsolute}; }
        assert words[..i + 1][..i] == words[..i];
        i := i + 1;
      }
      assert words[..|words|] == words;
      infos := infos + {HasGC};
    }

    method BuildVersion(payload: string)
      modifies this`machineVersion, this`features, this`events
      ensures var r := InfoReport.VersionEntry(old(InfoView()), payload);
        InfoView() == r.info && events == old(events) + r.emitted
    {
      var vals := Split(payload, ':');
      if |vals| == 2 {
        machineVersion := vals[0];
        features := features + {Version};
        Raise(VersionUpdated);
      }
    }

    method BuildOptions(payload: string)
      modifies this`features, this`blockBufferMax, this`rxBufferMax
      ensures InfoView() == InfoReport.OptionsEntry(old(InfoView()), payload).info
    {
      var vals := Split(payload, ',');
      if |vals| == 3 {
        if 'V' in vals[0] {
          features := features + {HasVariableSpindle, HasLaserMode};
        }
        if 'M' in vals[0] {
          features := features + {HasCoolantMist};
        }
        blockBufferMax := ParseInt(vals[1]);
        rxBufferMax := ParseInt(vals[2]);
      }
    }

    method CoordinateOffset(payload: string)
      modifies this`gxxConfig, this`infos
      ensures InfoView() == InfoReport.OffsetEntry(old(InfoView()), payload).info
    {
      var parts := Split(payload, ':');
      if |parts| == 2 {
        var gCode := ParseUInt(parts[0]);
        var vals := Split(parts[1], ',');
        if |vals| == 3 {
          gxxConfig := gxxConfig[gCode := Coords(ParseReal(vals[0]), ParseReal(vals[1]), ParseReal(vals[2]))];
          infos := infos + {HasGXX};
        }
      }
    }

    // -------------------------------------------------------------------------
    // Status reports

    /** `parseStatus`, proved to have the effect `sc` that StatusStep gives for the line. */
    method ParseStatus(line: string, ghost sc: StatusReport.Scan)
      requires sc == StatusReport.StatusStep(StatusView(), line)
      modifies this`state, this`holdCode, this`doorCode, this`infos
      modifies this`workingCoordinates, this`machineCoordinates, this`workingOffset
      modifies this`blockBuffer, this`rxBuffer, this`lineNumber, this`feedRate, this`spindleSpeed
      modifies this`fOverride, this`rOverride, this`spindleSpeedOverride
      modifies this`switches, this`actioners, this`first, this`events
      ensures StatusView() == sc.st && events == old(events) + sc.emitted
    {
      ghost var start := StatusReport.After(events, StatusReport.StartScan(StatusView(), line));
      var blocks := BeginReport(line);
      var newSwitches, newActioners := ScanFields(start, blocks);
      ghost var fields := StatusReport.Fields(start, blocks[1..]);
      FinishReport(fields, newSwitches, newActioners);
      StatusReport.StatusStepAfter(old(events), old(StatusView()), line);
    }

    /** The fields after the state token, one at a time. */
    method ScanFields(ghost start: StatusReport.Scan, blocks: seq<string>)
      returns (newSwitches: set<SwitchFlag>, newActioners: set<ActionerFlag>)
      requires |blocks| >= 1
      requires Mirrors(start) && start.newSwitches == {} && start.newActioners == {}
      modifies this`workingCoordinates, this`machineCoordinates, this`workingOffset, this`infos, this`events
      modifies this`blockBuffer, this`rxBuffer, this`lineNumber, this`feedRate, this`spindleSpeed
      modifies this`fOverride, this`rOverride, this`spindleSpeedOverride, this`actioners
      ensures var r := StatusReport.Fields(start, blocks[1..]);
        Mirrors(r) && newSwitches == r.newSwitches && newActioners == r.newActioners
    {
      newSwitches, newActioners := {}, {};
      var i := 1;
      while i < |blocks|
        invariant 1 <= i <= |blocks|
        invariant Mirrors(StatusReport.Fields(start, blocks[1..i]))
        invariant newSwitches == StatusReport.Fields(start, blocks[1..i]).newSwitches
        invariant newActioners == StatusReport.Fields(start, blocks[1..i]).newActioners
      {
        ghost var before := StatusReport.Fields(start, blocks[1..i]);
        newSwitches, newActioners := ApplyField(before, blocks[i], newSwitches, newActioners);
        StatusReport.FieldsExtend(start, blocks, i);
        i := i + 1;
      }
      assert blocks[1..i] == blocks[1..];
    }

    /** The start of a report: the flags masked and the state token applied. */
    method BeginReport(line: string) returns (blocks: seq<string>)
      modifies this`state, this`holdCode, this`doorCode, this`infos, this`events
      ensures blocks == StatusReport.StatusBlocks(line)
      ensures Mirrors(StatusReport.After(old(events), StatusReport.StartScan(old(StatusView()), line)))
    {
      blocks := StatusReport.StatusBlocks(line);
      ReportStart(blocks[0]);
    }

    method ReportStart(token: string)
      modifies this`state, this`holdCode, this`doorCode, this`infos, this`events
      ensures var t := StatusReport.StateToken(token, old(state), old(holdCode), old(doorCode));
        && infos == old(infos) * StatusReport.KeptAcrossReports + {HasSwitches}
        && state == t.state && holdCode == t.holdCode && doorCode == t.doorCode
        && events == old(events) + (if t.raised then [StateUpdated] else [])
    {
      MaskFlags();
      StateFromToken(token);
    }

    /** Only the offset and machine-position flags survive from the last report; switches are always reported. */
    method MaskFlags()
      modifies this`infos
      ensures infos == old(infos) * StatusReport.KeptAcrossReports + {HasSwitches}
    {
      infos := infos * StatusReport.KeptAcrossReports;
      // A missing `Pn:` means every pin is released.
      infos := infos + {HasSwitches};
    }

    /** One field of a report, dispatched on its tag; an unknown tag is skipped. */
    method ApplyField(ghost sc: StatusReport.Scan, block: string, newSwitches: set<SwitchFlag>, newActioners: set<ActionerFlag>)
      returns (switchesAfter: set<SwitchFlag>, actionersAfter: set<ActionerFlag>)
      requires Mirrors(sc) && newSwitches == sc.newSwitches && newActioners == sc.newActioners
      modifies this`workingCoordinates, this`machineCoordinates, this`workingOffset, this`infos, this`events
      modifies this`blockBuffer, this`rxBuffer, this`lineNumber, this`feedRate, this`spindleSpeed
      modifies this`fOverride, this`rOverride, this`spindleSpeedOverride, this`actioners
      ensures var r := StatusReport.FieldStep(sc, block);
        Mirrors(r) && switchesAfter == r.newSwitches && actionersAfter == r.newActioners
    {
      switchesAfter, actionersAfter := newSwitches, newActioners;
      var payload := StatusReport.Payload(block);
      match StatusReport.TagOf(block) {
        case WPosTag => WPosStep(sc, payload);
        case MPosTag => MPosStep(sc, payload);
        case BufferTag => BfStep(sc, payload);
        case LineTag => LnStep(sc, payload);
        case RatesTag => FSStep(sc, payload);
        case FeedTag => FStep(sc, payload);
        case PinsTag => switchesAfter := newSwitches + StatusReport.SwitchesOf(payload);
        case OffsetTag => WcoStep(sc, payload);
        case OverrideTag => OvStep(sc, payload);
        case ActionTag =>
          ArmActioners(sc);
          actionersAfter := newActioners + StatusReport.ActionersOf(payload);
        case OtherTag =>
      }
    }

    /** The state token, decoded in place as parseStatus does. */
    method StateFromToken(token: string)
      modifies this`state, this`holdCode, this`doorCode, this`events
      ensures var t := StatusReport.StateToken(token, old(state), old(holdCode), old(doorCode));
        && state == t.state && holdCode == t.holdCode && doorCode == t.doorCode
        && events == old(events) + (if t.raised then [StateUpdated] else [])
    {
      var block := token;
      var newState := state;
      if block == "Idle" { newState := Idle; }
      if block == "Run" { newState := Run; }
      if StartsWith(block, "Hold:") {
        block := block[5..];
        var newHoldCode := ParseInt(block);
        // A changed hold sub-code forces an edge through Unknown.
        if newHoldCode != holdCode {
          state := Unknown;
          holdCode := newHoldCode;
        }
        newState := Hold;
      }
      if block == "Jog" { newState := Jog; }
      if block == "Home" { newState := Home; }
      if block == "Alarm" { newState := Alarm; }
      if block == "Check" { newState := Check; }
      if StartsWith(block, "Door:") {
        block := block[5..];
        doorCode := ParseInt(block);
        newState := Door;
      }
      if block == "Sleep" { newState := Sleep; }
      if state != newState {
        state := newState;
        events := events + [StateUpdated];
      }
    }

    /** The end of a report: switches re-published, actioners when armed and different, `first` cleared. */
    method FinishReport(ghost sc: StatusReport.Scan, newSwitches: set<SwitchFlag>, newActioners: set<ActionerFlag>)
      requires Mirrors(sc) && newSwitches == sc.newSwitches && newActioners == sc.newActioners
      modifies this`switches, this`actioners, this`first, this`events
      ensures var r := StatusReport.Finish(sc);
        switches == r.st.switches && actioners == r.st.actioners && first == r.st.first && events == r.emitted
    {
      switches := newSwitches;
      Raise(SwitchesUpdated);
      if HasActioners in infos && actioners != newActioners {
        actioners := newActioners;
        Raise(ActionersUpdated);
      }
      first := false;
    }

    // Each field of a report: a method that does what the source does to the
    // fields it touches, and a step that places it in the whole report.

    method WorkingPosition(ghost sc: StatusReport.Scan, payload: string)
      requires workingCoordinates == sc.st.working && machineCoordinates == sc.st.machine
      requires workingOffset == sc.st.offset && infos == sc.st.infos && first == sc.st.first && events == sc.emitted
      modifies this`workingCoordinates, this`machineCoordinates, this`infos, this`events
      ensures var r := StatusReport.WPosField(sc, payload);
        && workingCoordinates == r.st.working && machineCoordinates == r.st.machine
        && infos == r.st.infos && events == r.emitted
    {
      var vals := Split(payload, ',');
      if |vals| == 3 {
        var coords := Coords(ParseReal(vals[0]), ParseReal(vals[1]), ParseReal(vals[2]));
        var changed := workingCoordinates != coords || first;
        workingCoordinates := coords;
        infos := infos + {HasWorkingCoords};
        // The machine position is recomputed even when nothing changed, in case the offset did.
        if HasWorkingOffset in infos {
          coords := Plus(workingCoordinates, workingOffset);
          if machineCoordinates != coords || first { changed := true; }
          machineCoordinates := coords;
          infos := infos + {HasMachineCoords};
        }
        if changed || first {
          Raise(CoordinatesUpdated);
        }
      }
    }

    method WPosStep(ghost sc: StatusReport.Scan, payload: string)
      requires Mirrors(sc)
      modifies this`workingCoordinates, this`machineCoordinates, this`infos, this`events
      ensures Mirrors(StatusReport.WPosField(sc, payload))
    {
      WorkingPosition(sc, payload);
    }

    method MachinePosition(ghost sc: StatusReport.Scan, payload: string)
      requires workingCoordinates == sc.st.working && machineCoordinates == sc.st.machine
      requires workingOffset == sc.st.offset && infos == sc.st.infos && first == sc.st.first && events == sc.emitted
      modifies this`workingCoordinates, this`machineCoordinates, this`infos, this`events
      ensures var r := StatusReport.MPosField(sc, payload);
        && workingCoordinates == r.st.working && machineCoordinates == r.st.machine
        && infos == r.st.infos && events == r.emitted
    {
      var vals := Split(payload, ',');
      if |vals| == 3 {
        var coords := Coords(ParseReal(vals[0]), ParseReal(vals[1]), ParseReal(vals[2]));
        var changed := workingCoordinates != coords;
        machineCoordinates := coords;
        infos := infos + {HasMachineCoords};
        if HasWorkingOffset in infos {
          coords := Minus(machineCoordinates, workingOffset);
          if workingCoordinates != coords || first { changed := true; }
          workingCoordinates := coords;
          infos := infos + {HasWorkingCoords};
        }
        if changed || first {
          Raise(CoordinatesUpdated);
        }
      }
    }

    method MPosStep(ghost sc: StatusReport.Scan, payload: string)
      requires Mirrors(sc)
      modifies this`workingCoordinates, this`machineCoordinates, this`infos, this`events
      ensures Mirrors(StatusReport.MPosField(sc, payload))
    {
      MachinePosition(sc, payload);
    }

    method BufferState(ghost sc: StatusReport.Scan, payload: string)
      requires blockBuffer == sc.st.blockBuffer && rxBuffer == sc.st.rxBuffer
      requires infos == sc.st.infos && events == sc.emitted
      modifies this`blockBuffer, this`rxBuffer, this`infos, this`events
      ensures var r := StatusReport.BfField(sc, payload);
        && blockBuffer == r.st.blockBuffer && rxBuffer == r.st.rxBuffer
        && infos == r.st.infos && events == r.emitted
    {
      var vals := Split(payload, ',');
      if |vals| == 2 {
        infos := infos + {HasBuffer};
        var changed := false;
        var val := ParseInt(vals[0]);
        if blockBuffer != val { changed := true; }
        blockBuffer := val;
        val := ParseInt(vals[1]);
        if rxBuffer != val { changed := true; }
        rxBuffer := val;
        if changed {
          Raise(BuffersUpdated);
        }
      }
    }

    method BfStep(ghost sc: StatusReport.Scan, payload: string)
      requires Mirrors(sc)
      modifies this`blockBuffer, this`rxBuffer, this`infos, this`events
      ensures Mirrors(StatusReport.BfField(sc, payload))
    {
      BufferState(sc, payload);
    }

    method LineNumberField(ghost sc: StatusReport.Scan, payload: string)
      requires lineNumber == sc.st.lineNumber && infos == sc.st.infos && events == sc.emitted
      modifies this`lineNumber, this`infos, this`events
      ensures var r := StatusReport.LnField(sc, payload);
        lineNumber == r.st.lineNumber && infos == r.st.infos && events == r.emitted
    {
      var vals := Split(payload, ',');
      if |vals| == 1 {
        infos := infos + {HasLineNumber};
        var val := ParseInt(vals[0]);
        var changed := lineNumber != val;
        lineNumber := val;
        if changed {
          Raise(LineNumberUpdated);
        }
      }
    }

    method LnStep(ghost sc: StatusReport.Scan, payload: string)
      requires Mirrors(sc)
      modifies this`lineNumber, this`infos, this`events
      ensures Mirrors(StatusReport.LnField(sc, payload))
    {
      LineNumberField(sc, payload);
    }

    method Rates(ghost sc: StatusReport.Scan, payload: string)
      requires feedRate == sc.st.feedRate && spindleSpeed == sc.st.spindleSpeed
      requires infos == sc.st.infos && events == sc.emitted
      modifies this`feedRate, this`spindleSpeed, this`infos, this`events
      ensures var r := StatusReport.FSField(sc, payload);
        && feedRate == r.st.feedRate && spindleSpeed == r.st.spindleSpeed
        && infos == r.st.infos && events == r.emitted
    {
      var vals := Split(payload, ',');
      if |vals| == 2 {
        infos := infos + {HasFeedRate};
        var changed := false;
        var val := ParseInt(vals[0]);
        if feedRate != val { changed := true; }
        feedRate := val;
        infos := infos + {HasSpindleSpeed};
        val := ParseInt(vals[1]);
        if spindleSpeed != val { changed := true; }
        spindleSpeed := val;
        if changed {
          Raise(RatesUpdated);
        }
      }
    }

    method FSStep(ghost sc: StatusReport.Scan, payload: string)
      requires Mirrors(sc)
      modifies this`feedRate, this`spindleSpeed, this`infos, this`events
      ensures Mirrors(StatusReport.FSField(sc, payload))
    {
      Rates(sc, payload);
    }

    method FeedRateAlone(ghost sc: StatusReport.Scan, payload: string)
      requires feedRate == sc.st.feedRate && infos == sc.st.infos && events == sc.emitted
      modifies this`feedRate, this`infos, this`events
      ensures var r := StatusReport.FField(sc, payload);
        feedRate == r.st.feedRate && infos == r.st.infos && events == r.emitted
    {
      infos := infos + {HasFeedRate};
      var val := ParseInt(payload);
      var changed := feedRate != val;
      feedRate := val;
      if changed {
        Raise(RatesUpdated);
      }
    }

    method FStep(ghost sc: StatusReport.Scan, payload: string)
      requires Mirrors(sc)
      modifies this`feedRate, this`infos, this`events
      ensures Mirrors(StatusReport.FField(sc, payload))
    {
      FeedRateAlone(sc, payload);
    }

    method WorkingCoordinateOffset(ghost sc: StatusReport.Scan, payload: string)
      requires workingOffset == sc.st.offset && workingCoordinates == sc.st.working
      requires machineCoordinates == sc.st.machine && infos == sc.st.infos && events == sc.emitted
      modifies this`workingOffset, this`workingCoordinates, this`machineCoordinates, this`infos, this`events
      ensures var r := StatusReport.WcoField(sc, payload);
        && workingOffset == r.st.offset && workingCoordinates == r.st.working
        && machineCoordinates == r.st.machine && infos == r.st.infos && events == r.emitted
    {
      infos := infos + {HasWorkingOffset};
      var vals := Split(payload, ',');
      if |vals| == 3 {
        var coords := Coords(ParseReal(vals[0]), ParseReal(vals[1]), ParseReal(vals[2]));
        var changed := workingOffset != coords;
        workingOffset := coords;
        if HasMachineCoords !in infos {
          machineCoordinates := Plus(workingCoordinates, workingOffset);
          changed := true;
          infos := infos + {HasMachineCoords};
        }
        if HasWorkingCoords !in infos {
          workingCoordinates := Minus(machineCoordinates, workingOffset);
          changed := true;
          infos := infos + {HasWorkingCoords};
        }
        if changed {
          Raise(CoordinatesUpdated);
        }
      }
    }

    method WcoStep(ghost sc: StatusReport.Scan, payload: string)
      requires Mirrors(sc)
      modifies this`workingOffset, this`workingCoordinates, this`machineCoordinates, this`infos, this`events
      ensures Mirrors(StatusReport.WcoField(sc, payload))
    {
      WorkingCoordinateOffset(sc, payload);
    }

    method Overrides(ghost sc: StatusReport.Scan, payload: string)
      requires infos == sc.st.infos && fOverride == sc.st.feedOverride && rOverride == sc.st.rapidOverride
      requires spindleSpeedOverride == sc.st.spindleOverride && actioners == sc.st.actioners
      modifies this`fOverride, this`rOverride, this`spindleSpeedOverride, this`actioners, this`infos
      ensures var r := StatusReport.OvField(sc, payload);
        && fOverride == r.st.feedOverride && rOverride == r.st.rapidOverride
        && spindleSpeedOverride == r.st.spindleOverride && actioners == r.st.actioners && infos == r.st.infos
    {
      var vals := Split(payload, ',');
      if |vals| == 3 {
        infos := infos + {HasOverride};
        fOverride := ParseInt(vals[0]);
        rOverride := ParseInt(vals[1]);
        spindleSpeedOverride := ParseInt(vals[2]);
        // With `Ov:` present, any actioners follow in `A:`.
        infos := infos + {HasActioners};
        actioners := {};
      }
    }

    method OvStep(ghost sc: StatusReport.Scan, payload: string)
      requires Mirrors(sc)
      modifies this`fOverride, this`rOverride, this`spindleSpeedOverride, this`actioners, this`infos
      ensures Mirrors(StatusReport.OvField(sc, payload))
    {
      Overrides(sc, payload);
    }

    /** `A:` marks the actioners as reported; the letters themselves are collected by the caller. */
    method ArmActioners(ghost sc: StatusReport.Scan)
      requires Mirrors(sc)
      modifies this`infos
      ensures Mirrors(sc.(st := sc.st.(infos := sc.st.infos + {HasActioners})))
    {
      infos := infos + {HasActioners};
    }

    // -------------------------------------------------------------------------
    // The configuration exchange

    /** commandExecuted delivered to the connections that exist when it is raised, in order. */
    method EmitCommandExecuted(editor: EditorOutcome)
      requires Valid()
      modifies this`features, this`switches, this`actioners, this`infos, this`config
      modifies this`index, this`widget, this`connections, this`nextConnection, this`outbox
      ensures ExchangeView() == Deliver(old(ExchangeView()), old(connections), editor)
      ensures Valid()
    {
      var pending := connections;
      var i := 0;
      while i < |pending|
        invariant 0 <= i <= |pending|
        invariant ExchangeView() == Deliver(old(ExchangeView()), pending[..i], editor)
        invariant Valid()
      {
        var c := pending[i];
        DeliverExtend(old(ExchangeView()), pending, i, editor);
        if c in connections {
          match c.slot {
            case OpenSlot => OpenConfiguration(None, editor);
            case WriteSlot => WriteConfiguration(false);
          }
        }
        i := i + 1;
      }
      assert pending[..|pending|] == pending;
    }

    method OpenConfiguration(parent: Option<nat>, editor: EditorOutcome)
      requires Valid()
      modifies this`features, this`switches, this`actioners, this`infos, this`config
      modifies this`index, this`widget, this`connections, this`nextConnection, this`outbox
      ensures ExchangeView() == OpenSpec(old(ExchangeView()), parent, editor)
      ensures Valid()
    {
      if state != Idle && state != Alarm {
        // The machine must be Idle or in Alarm.
      } else if parent.Some? {
        BeginOpening(parent.value);
      } else {
        if HasStartingBlocks !in infos {
          var _ := Ask(CommandStartBlock, 0);
          return;
        }
        EndOpening(editor);
      }
    }

    /** The first call: settings cleared, status poll stopped, slot connected, settings asked for. */
    method BeginOpening(parent: nat)
      requires Valid()
      modifies this`widget, this`config, this`features, this`connections, this`nextConnection
      modifies this`switches, this`actioners, this`infos, this`outbox
      ensures ExchangeView() == BeginOpen(old(ExchangeView()), parent)
      ensures Valid()
    {
      widget := Some(parent);
      config := map[];
      features := features - {AskStatus};
      ConnectSlot(OpenSlot);
      var _ := Ask(CommandConfig, 0);
    }

    /** The call with everything read: slot disconnected, poll resumed, the dialog's settings written. */
    method EndOpening(editor: EditorOutcome)
      requires Valid()
      modifies this`features, this`config, this`index, this`connections, this`nextConnection, this`outbox
      ensures ExchangeView() == EndOpen(old(ExchangeView()), editor)
      ensures Valid()
    {
      DisconnectSlot(OpenSlot);
      features := features + {AskStatus};
      match editor {
        case Accepted(settings) =>
          config := settings;
          WriteConfiguration(true);
        case AcceptedInvalid =>
        case Cancelled =>
          features := features + {AskStatus};
      }
    }

    method WriteConfiguration(start: bool)
      requires Valid()
      modifies this`index, this`features, this`connections, this`nextConnection, this`outbox
      ensures ExchangeView() == WriteSpec(old(ExchangeView()), start)
      ensures Valid()
    {
      if start {
        BeginWriting();
      }
      WriteNextKey();
    }

    /** A start: the position rewound, the status poll stopped, the slot connected. */
    method BeginWriting()
      requires Valid()
      modifies this`index, this`features, this`connections, this`nextConnection
      ensures ExchangeView() == BeginWrite(old(ExchangeView()))
      ensures Valid()
    {
      index := 0;
      features := features - {AskStatus};
      ConnectSlot(WriteSlot);
    }

    /** `writeConfiguration` past the start: the key at the position sent, passed over, or the end reached. */
    method WriteNextKey()
      requires Valid()
      modifies this`index, this`features, this`connections, this`nextConnection, this`outbox
      ensures var x := WriteFrom(old(ExchangeView()));
        && index == x.index && features == x.features && connections == x.connections
        && nextConnection == x.nextConnection && outbox == x.outbox
      decreases |config| - index
      ensures Valid()
    {
      var keys := SortedKeys(config.Keys);
      if index < |keys| {
        var key := keys[index];
        Advance();
        // Setting laser mode on a device without it is refused by the device.
        if key == LaserModeKey && HasLaserMode !in features {
          WriteNextKey();
        } else {
          SendSetting(key);
        }
      } else {
        EndWriting();
      }
    }

    method Advance()
      modifies this`index
      ensures index == old(index) + 1
    {
      index := index + 1;
    }

    method SendSetting(key: nat)
      requires key in config && Valid()
      modifies this`connections, this`outbox
      ensures ExchangeView() == SendKey(old(ExchangeView()), key)
      ensures Valid()
    {
      var ok := SendCommand(TextLine(ConfigCommand(key, config[key])));
      if !ok {
        DisconnectSlot(WriteSlot);
      }
    }

    method EndWriting()
      requires Valid()
      modifies this`connections, this`features
      ensures ExchangeView() == EndWrite(old(ExchangeView()))
      ensures Valid()
    {
      DisconnectSlot(WriteSlot);
      features := features + {AskStatus};
    }
  }
}
