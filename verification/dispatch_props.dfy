/**
 * What one received line does to the whole machine record, branch by branch
 * of `parse`: alarms and errors, the start-up banner, acknowledgements,
 * echoed lines, settings, and the two report kinds.
 */
module ParseProperties {
  import opened Text
  import opened Protocol
  import opened Encoder
  import opened Configuration
  import opened MachineModel
  import opened Dispatch
  import InfoReport
  import StatusReport

  /** A line made of a prefix and a text has that prefix. */
  lemma PrefixOf(prefix: string, rest: string)
    ensures StartsWith(prefix + rest, prefix)
  {
    assert (prefix + rest)[..|prefix|] == prefix;
  }

  /** toInt reads back what Decimal prints, within the signed 32-bit range. */
  lemma ParseIntDecimal(n: nat)
    requires n <= MaxInt32
    ensures ParseInt(Decimal(n)) == n
  {
    DecimalValue(n);
    var d := Decimal(n);
    assert IsDigit(d[0]);
  }

  /** The code after a six-character prefix such as `error:` or `ALARM:` is read back. */
  lemma CodeAfterPrefix(prefix: string, n: nat)
    requires |prefix| == 6 && n <= MaxInt32
    ensures var line := prefix + Decimal(n); ParseInt(Right(line, |line| - 6)) == n
  {
    var line := prefix + Decimal(n);
    assert line[|line| - (|line| - 6)..] == Decimal(n);
    ParseIntDecimal(n);
  }

  /** `ALARM:<n>` puts the machine in Alarm with the code, raises the alarm and changes nothing else. */
  lemma AlarmLineRaisesAlarm(m: MachineState, n: nat, editor: EditorOutcome)
    requires n <= MaxInt32
    ensures var line := "ALARM:" + Decimal(n);
      ParseSpec(m, line, editor)
        == m.(lastLine := line, ex := m.ex.(state := Alarm), alarmCode := n, events := m.events + [AlarmRaised(n)])
  {
    var line := "ALARM:" + Decimal(n);
    PrefixOf("ALARM:", Decimal(n));
    ClassifyByPrefix(line);
    CodeAfterPrefix("ALARM:", n);
  }

  /** `error:<n>` records the code and raises it; the state and everything else are left as they were. */
  lemma ErrorLineRecordsCode(m: MachineState, n: nat, editor: EditorOutcome)
    requires n <= MaxInt32
    ensures var line := "error:" + Decimal(n);
      ParseSpec(m, line, editor)
        == m.(lastLine := line, errorCode := n, events := m.events + [ErrorReported(n)])
  {
    var line := "error:" + Decimal(n);
    PrefixOf("error:", Decimal(n));
    ClassifyByPrefix(line);
    CodeAfterPrefix("error:", n);
  }

  /** An executed start-up block echoed back (`>...`) is only remembered as the last line. */
  lemma EchoLineOnlyRemembered(m: MachineState, line: string, editor: EditorOutcome)
    requires StartsWith(line, ">")
    ensures ParseSpec(m, line, editor) == m.(lastLine := line)
  {
    ClassifyByPrefix(line);
  }

  /** A line with none of the known prefixes is only remembered as the last line. */
  lemma UnknownLineOnlyRemembered(m: MachineState, line: string, editor: EditorOutcome)
    requires !StartsWith(line, "Grbl") && !StartsWith(line, "ok") && !StartsWith(line, "error:")
    requires !StartsWith(line, "ALARM:") && !StartsWith(line, "[") && !StartsWith(line, "<")
    requires !StartsWith(line, "$")
    ensures ParseSpec(m, line, editor) == m.(lastLine := line)
  {
    ClassifyByPrefix(line);
  }

  /**
   * A banner `<name> <version>`, with or without further words: name and
   * version taken from the first two words, the state reset to Unknown, the
   * build information asked for with one line, and versionUpdated then
   * resetDone raised.
   */
  lemma BannerIdentifiesMachine(m: MachineState, name: string, version: string, rest: string, editor: EditorOutcome)
    requires StartsWith(name, "Grbl") && ' ' !in name && ' ' !in version
    requires rest == "" || rest[0] == ' '
    ensures var line := name + " " + version + rest;
      var r := ParseSpec(m, line, editor);
      && r.name == name && r.version == version && r.ex.state == Unknown
      && r.ex.features == m.ex.features + {Name, Version}
      && r.ex.outbox == m.ex.outbox + [Sent(Line(CmdInfos), m.ex.answers(|m.ex.outbox|))]
      && r.events == m.events + [VersionUpdated, ResetDone]
      && r.ex.infos == m.ex.infos && r.ex.config == m.ex.config && r.lastLine == line
  {
    var line := name + " " + version + rest;
    assert StartsWith(line, "Grbl") by {
      assert line[..4] == name[..4];
    }
    BannerLineIsBanner(m, line, editor);
    BannerWords(name, version, rest);
  }

  /** A line starting with `Grbl` is handled by the banner branch alone. */
  lemma BannerLineIsBanner(m: MachineState, line: string, editor: EditorOutcome)
    requires StartsWith(line, "Grbl")
    ensures ParseSpec(m, line, editor) == BannerSpec(m.(lastLine := line), line)
  {
    ClassifyByPrefix(line);
  }

  /** The first two words of `<name> <version>`, with or without further words. */
  lemma BannerWords(name: string, version: string, rest: string)
    requires ' ' !in name && ' ' !in version && (rest == "" || rest[0] == ' ')
    ensures var words := Split(name + " " + version + rest, ' ');
      |words| >= 2 && words[0] == name && words[1] == version
  {
    var line := name + " " + version + rest;
    assert line == name + [' '] + (version + rest);
    SplitAtFirst(name, ' ', version + rest);
    if rest == "" {
      assert version + rest == version;
      SplitWithoutSeparator(version, ' ');
    } else {
      assert version + rest == version + [' '] + rest[1..];
      SplitAtFirst(version, ' ', rest[1..]);
    }
  }

  /** A banner of one word names the machine and keeps the version known before. */
  lemma BareBannerKeepsVersion(m: MachineState, line: string, editor: EditorOutcome)
    requires StartsWith(line, "Grbl") && ' ' !in line
    ensures var r := ParseSpec(m, line, editor);
      r.name == line && r.version == m.version && r.ex.state == Unknown
  {
    SplitWithoutSeparator(line, ' ');
    ClassifyByPrefix(line);
  }

  /** As written, the banner branch reads a second word that the bare banner `Grbl` does not have. */
  lemma BareBannerOutsideAsWritten()
    ensures |Split("Grbl", ' ')| < 2
  {
    SplitWithoutSeparator("Grbl", ' ');
  }

  /** Wherever the code as written is defined, the corrected banner branch agrees with it. */
  lemma BannerAgreesWithAsWritten(m: MachineState, line: string)
    requires |Split(line, ' ')| >= 2
    ensures BannerSpec(m, line) == BannerAsWritten(m, line)
  {
  }

  /** Delivering commandExecuted never touches the run state, the info flags or the answers. */
  lemma {:induction false} DeliverKeepsStateAndFlags(x: Exchange, pending: seq<Connection>, editor: EditorOutcome)
    ensures var r := Deliver(x, pending, editor);
      r.state == x.state && r.infos == x.infos && r.answers == x.answers
    decreases |pending|
  {
    if pending != [] {
      var x1 := Deliver(x, pending[..|pending| - 1], editor);
      DeliverKeepsStateAndFlags(x, pending[..|pending| - 1], editor);
      var c := pending[|pending| - 1];
      if c in x1.connections {
        InvokeKeepsStateAndFlags(x1, c.slot, editor);
      }
    }
  }

  lemma InvokeKeepsStateAndFlags(x: Exchange, s: Slot, editor: EditorOutcome)
    ensures var r := Invoke(x, s, editor);
      r.state == x.state && r.infos == x.infos && r.answers == x.answers
  {
    match s
    case OpenSlot =>
      if x.state == Idle || x.state == Alarm {
        if HasStartingBlocks in x.infos {
          var x1 := Disconnect(x, OpenSlot);
          var x2 := x1.(features := x1.features + {AskStatus});
          match editor
          case Accepted(settings) =>
            var x3 := x2.(config := settings);
            assert WriteSpec(x3, true) == WriteFrom(BeginWrite(x3));
          case _ =>
        }
      }
    case WriteSlot =>
  }

  /** `ok` clears the error flag and raises commandExecuted; without a running exchange nothing else changes. */
  lemma AckClearsError(m: MachineState, line: string, editor: EditorOutcome)
    requires StartsWith(line, "ok")
    ensures var r := ParseSpec(m, line, editor);
      && HasError !in r.ex.infos && r.ex.infos == m.ex.infos - {HasError}
      && r.ex.state == m.ex.state
      && r.events == m.events + [CommandExecuted]
      && (m.ex.connections == [] ==> r == m.(lastLine := line, ex := m.ex.(infos := m.ex.infos - {HasError}),
                                             events := m.events + [CommandExecuted]))
  {
    ClassifyByPrefix(line);
    var x := m.ex.(infos := m.ex.infos - {HasError});
    DeliverKeepsStateAndFlags(x, x.connections, editor);
  }

  /**
   * A setting written by the configuration exchange and echoed back by the
   * device is stored under the same key with the same value: `$k=v` under
   * `k` with has-config, raising configUpdated.
   */
  lemma SettingLineStored(m: MachineState, key: nat, value: string, editor: EditorOutcome)
    requires key <= MaxUInt32 && key != StartingBlock0 && key != StartingBlock1 && '=' !in value
    ensures var line := ConfigCommand(key, value);
      ParseSpec(m, line, editor)
        == m.(lastLine := line, ex := m.ex.(config := m.ex.config[key := value], infos := m.ex.infos + {HasConfig}),
              events := m.events + [ConfigUpdated])
  {
    SettingRoundTrip(key, value);
    SettingEntryStored(m, ConfigCommand(key, value), Entry(key, value, HasConfig), editor);
  }

  /** A setting line that reads as an entry stores that entry's value under its key, with its flag. */
  lemma SettingEntryStored(m: MachineState, line: string, e: Entry, editor: EditorOutcome)
    requires StartsWith(line, "$") && ConfigEntry(line) == Some(e)
    ensures ParseSpec(m, line, editor)
      == m.(lastLine := line, ex := m.ex.(config := m.ex.config[e.key := e.value], infos := m.ex.infos + {e.flag}),
            events := m.events + [ConfigUpdated])
  {
    ClassifyByPrefix(line);
  }

  /** A setting line that is not `key=value` only raises configUpdated. */
  lemma MalformedSettingOnlyAnnounced(m: MachineState, line: string, editor: EditorOutcome)
    requires StartsWith(line, "$") && ConfigEntry(line).None?
    ensures ParseSpec(m, line, editor) == m.(lastLine := line, events := m.events + [ConfigUpdated])
  {
    ClassifyByPrefix(line);
  }

  /**
   * A status report touches only the report's fields: nothing is sent, no
   * setting, code, identity or stored offset changes, and statusUpdated is
   * the last notification raised.
   */
  lemma StatusLineTouchesOnlyTheReport(m: MachineState, line: string, editor: EditorOutcome)
    requires StartsWith(line, "<")
    ensures var r := ParseSpec(m, line, editor);
      && r.ex.outbox == m.ex.outbox && r.ex.features == m.ex.features && r.ex.config == m.ex.config
      && r.ex.connections == m.ex.connections && r.ex.index == m.ex.index && r.ex.widget == m.ex.widget
      && r.errorCode == m.errorCode && r.alarmCode == m.alarmCode && r.name == m.name && r.version == m.version
      && r.gxx == m.gxx && r.prb == m.prb && r.tlo == m.tlo
      && |r.events| > |m.events| && r.events[..|m.events|] == m.events && r.events[|r.events| - 1] == StatusUpdated
  {
    ClassifyByPrefix(line);
  }

  /** An information response sends nothing and touches no position, setting or code; infoUpdated comes last. */
  lemma InfoLineTouchesOnlyTheInfo(m: MachineState, line: string, editor: EditorOutcome)
    requires StartsWith(line, "[")
    ensures var r := ParseSpec(m, line, editor);
      && r.ex.outbox == m.ex.outbox && r.ex.state == m.ex.state && r.ex.config == m.ex.config
      && r.ex.switches == m.ex.switches && r.ex.actioners == m.ex.actioners
      && r.working == m.working && r.machine == m.machine && r.offset == m.offset
      && r.errorCode == m.errorCode && r.alarmCode == m.alarmCode && r.name == m.name
      && |r.events| > |m.events| && r.events[..|m.events|] == m.events && r.events[|r.events| - 1] == InfoUpdated
  {
    ClassifyByPrefix(line);
  }
}
