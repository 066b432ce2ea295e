/**
 * The status-report parser of `Grbl::parseStatus`, as functions on the part of
 * the machine record it reads and writes. A report `<STATE|field|...>` is cut
 * on `|`; the first piece decides the run state, each further piece is one
 * tagged field, and the end of the report publishes switches and actioners.
 * The class in grbl.dfy runs the same steps in place and is proved to agree
 * with StatusStep; the lemmas below state what a report does.
 */
module StatusReport {
  import opened Text
  import opened Protocol

  /** The fields of the machine record that a status report reads and writes. */
  datatype Status = Status(
    state: StateType, holdCode: int, doorCode: int,
    infos: set<InfoFlag>,
    working: Coords, machine: Coords, offset: Coords,
    blockBuffer: int, rxBuffer: int, lineNumber: int,
    feedRate: int, spindleSpeed: int,
    feedOverride: int, rapidOverride: int, spindleOverride: int,
    switches: set<SwitchFlag>, actioners: set<ActionerFlag>,
    first: bool)

  /**
   * The state of a report half-way through: the record, the switches and
   * actioners collected so far from `Pn:` and `A:`, and the notifications
   * raised by this report so far.
   */
  datatype Scan = Scan(st: Status, newSwitches: set<SwitchFlag>, newActioners: set<ActionerFlag>, emitted: seq<Event>)

  /** The outcome of the state token: new state, sub-codes, and whether stateUpdated is raised. */
  datatype Token = Token(state: StateType, holdCode: int, doorCode: int, raised: bool)

  /** The info flags that survive from one report to the next. */
  const KeptAcrossReports: set<InfoFlag> := {HasWorkingOffset, HasMachineCoords}

  /** The info flags that the fields of a report can set. */
  const ReportFlags: set<InfoFlag> :=
    {HasWorkingOffset, HasMachineCoords, HasWorkingCoords, HasBuffer, HasLineNumber,
     HasFeedRate, HasSpindleSpeed, HasOverride, HasActioners, HasSwitches}

  /** The `|`-separated pieces of a report, after dropping its first and last character. */
  function StatusBlocks(line: string): (r: seq<string>)
    ensures |r| >= 1
  {
    Split(Inner(line), '|')
  }

  /**
   * The state token. The piece is compared against each state name in turn;
   * after a `Hold:` or `Door:` prefix the comparisons go on with the text
   * that follows the prefix. A changed hold sub-code first drops the state to
   * Unknown, so that the final comparison sees an edge.
   */
  function StateToken(tok: string, state: StateType, holdCode: int, doorCode: int): Token {
    var ns0 := if tok == "Idle" then Idle else state;
    var ns1 := if tok == "Run" then Run else ns0;
    var isHold := StartsWith(tok, "Hold:");
    var b1 := if isHold then tok[5..] else tok;
    var h := ParseInt(b1);
    var holdChanged := isHold && h != holdCode;
    var current := if holdChanged then Unknown else state;
    var hc := if holdChanged then h else holdCode;
    var ns2 := if isHold then Hold else ns1;
    var ns3 := if b1 == "Jog" then Jog else ns2;
    var ns4 := if b1 == "Home" then Home else ns3;
    var ns5 := if b1 == "Alarm" then Alarm else ns4;
    var ns6 := if b1 == "Check" then Check else ns5;
    var isDoor := StartsWith(b1, "Door:");
    var b2 := if isDoor then b1[5..] else b1;
    var dc := if isDoor then ParseInt(b2) else doorCode;
    var ns7 := if isDoor then Door else ns6;
    var ns8 := if b2 == "Sleep" then Sleep else ns7;
    Token(ns8, hc, dc, current != ns8)
  }

  /** The pin letters of `Pn:`, read case-insensitively. */
  function SwitchesOf(pins: string): set<SwitchFlag> {
    (if ContainsFolded(pins, 'P') then {ProbePin} else {})
    + (if ContainsFolded(pins, 'X') then {LimitX} else {})
    + (if ContainsFolded(pins, 'Y') then {LimitY} else {})
    + (if ContainsFolded(pins, 'Z') then {LimitZ} else {})
    + (if ContainsFolded(pins, 'D') then {DoorPin} else {})
    + (if ContainsFolded(pins, 'R') then {ResetPin} else {})
    + (if ContainsFolded(pins, 'H') then {FeedHoldPin} else {})
    + (if ContainsFolded(pins, 'S') then {CycleStartPin} else {})
  }

  /** The action letters of `A:`: `SS` and `SC` first, else `S` and `C` one by one; `F` and `M` independently. */
  function ActionersOf(letters: string): set<ActionerFlag> {
    var spindle :=
      if ContainsPairFolded(letters, 'S', 'S') then {SpindleVariable, Spindle}
      else if ContainsPairFolded(letters, 'S', 'C') then {SpindleVariable, Spindle, SpindleCounterClockwise}
      else
        (if ContainsFolded(letters, 'S') then {Spindle} else {})
        + (if ContainsFolded(letters, 'C') then {Spindle, SpindleCounterClockwise} else {});
    spindle
    + (if ContainsFolded(letters, 'F') then {Coolant, CoolantFlood} else {})
    + (if ContainsFolded(letters, 'M') then {Coolant, CoolantMist} else {})
  }

  /** Three comma-separated numbers, or nothing when the arity is wrong. */
  function ParseCoords(text: string): Option<Coords> {
    var vals := Split(text, ',');
    if |vals| == 3 then Some(Coords(ParseReal(vals[0]), ParseReal(vals[1]), ParseReal(vals[2]))) else None
  }

  function Announce(sc: Scan, raise: bool, e: Event): seq<Event> {
    sc.emitted + (if raise then [e] else [])
  }

  /** `WPos:` sets the working position and, with a known offset, recomputes the machine position. */
  function WPosField(sc: Scan, payload: string): (r: Scan)
    ensures r.st == sc.st.(working := r.st.working, machine := r.st.machine, infos := r.st.infos)
    ensures r.newSwitches == sc.newSwitches && r.newActioners == sc.newActioners
  {
    match ParseCoords(payload)
    case None => sc
    case Some(c) =>
      var s := sc.st;
      var known := HasWorkingOffset in s.infos;
      var m := if known then Plus(c, s.offset) else s.machine;
      var changed := s.working != c || s.first || (known && (s.machine != m || s.first));
      var infos := if known then s.infos + {HasWorkingCoords} + {HasMachineCoords} else s.infos + {HasWorkingCoords};
      sc.(st := s.(working := c, machine := m, infos := infos),
          emitted := Announce(sc, changed || s.first, CoordinatesUpdated))
  }

  /**
   * `MPos:` sets the machine position and, with a known offset, recomputes the
   * working position. The change test compares the new machine position with
   * the old working position.
   */
  function MPosField(sc: Scan, payload: string): (r: Scan)
    ensures r.st == sc.st.(working := r.st.working, machine := r.st.machine, infos := r.st.infos)
    ensures r.newSwitches == sc.newSwitches && r.newActioners == sc.newActioners
  {
    match ParseCoords(payload)
    case None => sc
    case Some(c) =>
      var s := sc.st;
      var known := HasWorkingOffset in s.infos;
      var w := if known then Minus(c, s.offset) else s.working;
      var changed := s.working != c || (known && (s.working != w || s.first));
      var infos := if known then s.infos + {HasMachineCoords} + {HasWorkingCoords} else s.infos + {HasMachineCoords};
      sc.(st := s.(machine := c, working := w, infos := infos),
          emitted := Announce(sc, changed || s.first, CoordinatesUpdated))
  }

  /** `Bf:blocks,rx`. */
  function BfField(sc: Scan, payload: string): (r: Scan)
    ensures r.st == sc.st.(blockBuffer := r.st.blockBuffer, rxBuffer := r.st.rxBuffer, infos := r.st.infos)
    ensures r.newSwitches == sc.newSwitches && r.newActioners == sc.newActioners
  {
    var vals := Split(payload, ',');
    if |vals| != 2 then sc
    else
      var s := sc.st;
      var b, r := ParseInt(vals[0]), ParseInt(vals[1]);
      sc.(st := s.(infos := s.infos + {HasBuffer}, blockBuffer := b, rxBuffer := r),
          emitted := Announce(sc, s.blockBuffer != b || s.rxBuffer != r, BuffersUpdated))
  }

  /** `Ln:n`. */
  function LnField(sc: Scan, payload: string): (r: Scan)
    ensures r.st == sc.st.(lineNumber := r.st.lineNumber, infos := r.st.infos)
    ensures r.newSwitches == sc.newSwitches && r.newActioners == sc.newActioners
  {
    var vals := Split(payload, ',');
    if |vals| != 1 then sc
    else
      var s := sc.st;
      var n := ParseInt(vals[0]);
      sc.(st := s.(infos := s.infos + {HasLineNumber}, lineNumber := n),
          emitted := Announce(sc, s.lineNumber != n, LineNumberUpdated))
  }

  /** `FS:feed,speed`. */
  function FSField(sc: Scan, payload: string): (r: Scan)
    ensures r.st == sc.st.(feedRate := r.st.feedRate, spindleSpeed := r.st.spindleSpeed, infos := r.st.infos)
    ensures r.newSwitches == sc.newSwitches && r.newActioners == sc.newActioners
  {
    var vals := Split(payload, ',');
    if |vals| != 2 then sc
    else
      var s := sc.st;
      var f, v := ParseInt(vals[0]), ParseInt(vals[1]);
      sc.(st := s.(infos := s.infos + {HasFeedRate, HasSpindleSpeed}, feedRate := f, spindleSpeed := v),
          emitted := Announce(sc, s.feedRate != f || s.spindleSpeed != v, RatesUpdated))
  }

  /** `F:feed`, read whole without splitting. */
  function FField(sc: Scan, payload: string): (r: Scan)
    ensures r.st == sc.st.(feedRate := r.st.feedRate, infos := r.st.infos)
    ensures r.newSwitches == sc.newSwitches && r.newActioners == sc.newActioners
  {
    var s := sc.st;
    var f := ParseInt(payload);
    sc.(st := s.(infos := s.infos + {HasFeedRate}, feedRate := f),
        emitted := Announce(sc, s.feedRate != f, RatesUpdated))
  }

  /**
   * `WCO:x,y,z`. The offset counts as known even when the payload is malformed.
   * Whichever position has not been seen in this report is derived from the
   * other one and the new offset.
   */
  function WcoField(sc: Scan, payload: string): (r: Scan)
    ensures r.st == sc.st.(offset := r.st.offset, working := r.st.working, machine := r.st.machine, infos := r.st.infos)
    ensures r.newSwitches == sc.newSwitches && r.newActioners == sc.newActioners
  {
    var s := sc.st;
    var infos1 := s.infos + {HasWorkingOffset};
    match ParseCoords(payload)
    case None => sc.(st := s.(infos := infos1))
    case Some(c) =>
      var needMachine := HasMachineCoords !in infos1;
      var m := if needMachine then Plus(s.working, c) else s.machine;
      var infos2 := if needMachine then infos1 + {HasMachineCoords} else infos1;
      var needWorking := HasWorkingCoords !in infos2;
      var w := if needWorking then Minus(m, c) else s.working;
      var infos3 := if needWorking then infos2 + {HasWorkingCoords} else infos2;
      var changed := s.offset != c || needMachine || needWorking;
      sc.(st := s.(offset := c, machine := m, working := w, infos := infos3),
          emitted := Announce(sc, changed, CoordinatesUpdated))
  }

  /** `Ov:feed,rapid,spindle`: the overrides, and actioners reset to none ahead of a possible `A:`. */
  function OvField(sc: Scan, payload: string): (r: Scan)
    ensures r.st == sc.st.(feedOverride := r.st.feedOverride, rapidOverride := r.st.rapidOverride,
                           spindleOverride := r.st.spindleOverride, actioners := r.st.actioners, infos := r.st.infos)
    ensures r.newSwitches == sc.newSwitches && r.newActioners == sc.newActioners
    ensures r.emitted == sc.emitted
  {
    var vals := Split(payload, ',');
    if |vals| != 3 then sc
    else
      var s := sc.st;
      sc.(st := s.(infos := s.infos + {HasOverride, HasActioners},
                   feedOverride := ParseInt(vals[0]), rapidOverride := ParseInt(vals[1]),
                   spindleOverride := ParseInt(vals[2]), actioners := {}))
  }

  /** The field tags a report may carry, in the order the source tries them. */
  datatype FieldTag =
    | WPosTag | MPosTag | BufferTag | LineTag | RatesTag | FeedTag
    | PinsTag | OffsetTag | OverrideTag | ActionTag | OtherTag

  function TagText(t: FieldTag): string {
    match t
    case WPosTag => "WPos:"
    case MPosTag => "MPos:"
    case BufferTag => "Bf:"
    case LineTag => "Ln:"
    case RatesTag => "FS:"
    case FeedTag => "F:"
    case PinsTag => "Pn:"
    case OffsetTag => "WCO:"
    case OverrideTag => "Ov:"
    case ActionTag => "A:"
    case OtherTag => ""
  }

  /** The first tag, in the source's order, that a field starts with. */
  function TagOf(block: string): (t: FieldTag)
    ensures StartsWith(block, TagText(t))
  {
    if StartsWith(block, "WPos:") then WPosTag
    else if StartsWith(block, "MPos:") then MPosTag
    else if StartsWith(block, "Bf:") then BufferTag
    else if StartsWith(block, "Ln:") then LineTag
    else if StartsWith(block, "FS:") then RatesTag
    else if StartsWith(block, "F:") then FeedTag
    else if StartsWith(block, "Pn:") then PinsTag
    else if StartsWith(block, "WCO:") then OffsetTag
    else if StartsWith(block, "Ov:") then OverrideTag
    else if StartsWith(block, "A:") then ActionTag
    else
      assert block[..0] == "";
      OtherTag
  }

  /** What follows the tag of a field. */
  function Payload(block: string): string {
    block[|TagText(TagOf(block))|..]
  }

  /** One field of a report, dispatched on its tag; an unknown tag is skipped. */
  function FieldStep(sc: Scan, block: string): Scan {
    var payload := Payload(block);
    match TagOf(block)
    case WPosTag => WPosField(sc, payload)
    case MPosTag => MPosField(sc, payload)
    case BufferTag => BfField(sc, payload)
    case LineTag => LnField(sc, payload)
    case RatesTag => FSField(sc, payload)
    case FeedTag => FField(sc, payload)
    case PinsTag => sc.(newSwitches := sc.newSwitches + SwitchesOf(payload))
    case OffsetTag => WcoField(sc, payload)
    case OverrideTag => OvField(sc, payload)
    case ActionTag =>
      sc.(st := sc.st.(infos := sc.st.infos + {HasActioners}),
          newActioners := sc.newActioners + ActionersOf(payload))
    case OtherTag => sc
  }

  /** The fields of a report, applied left to right. */
  function Fields(sc: Scan, blocks: seq<string>): Scan
    decreases |blocks|
  {
    if blocks == [] then sc
    else FieldStep(Fields(sc, blocks[..|blocks| - 1]), blocks[|blocks| - 1])
  }

  /** One more field of the same report. */
  lemma FieldsExtend(sc: Scan, blocks: seq<string>, i: nat)
    requires 1 <= i < |blocks|
    ensures Fields(sc, blocks[1..i + 1]) == FieldStep(Fields(sc, blocks[1..i]), blocks[i])
  {
    assert blocks[1..i + 1][..i - 1] == blocks[1..i];
  }

  /** The end of a report: switches always re-published, actioners only when armed and different. */
  function Finish(sc: Scan): (r: Scan)
    ensures r.st == sc.st.(switches := r.st.switches, actioners := r.st.actioners, first := r.st.first)
  {
    var s := sc.st.(switches := sc.newSwitches);
    var publish := HasActioners in s.infos && s.actioners != sc.newActioners;
    sc.(st := s.(actioners := if publish then sc.newActioners else s.actioners, first := false),
        emitted := sc.emitted + [SwitchesUpdated] + (if publish then [ActionersUpdated] else []))
  }

  /** The scan a report starts from: masked info flags, the state token applied. */
  function StartScan(s: Status, line: string): Scan {
    var blocks := StatusBlocks(line);
    var t := StateToken(blocks[0], s.state, s.holdCode, s.doorCode);
    var infos := s.infos * KeptAcrossReports + {HasSwitches};
    Scan(s.(infos := infos, state := t.state, holdCode := t.holdCode, doorCode := t.doorCode),
         {}, {}, if t.raised then [StateUpdated] else [])
  }

  /** A whole status report: the new record and the notifications it raises, in order. */
  function StatusStep(s: Status, line: string): Scan {
    Finish(Fields(StartScan(s, line), StatusBlocks(line)[1..]))
  }

  /** The same scan with `log` raised before it: how the class sees a report, after everything raised earlier. */
  function After(log: seq<Event>, sc: Scan): Scan {
    sc.(emitted := log + sc.emitted)
  }

  lemma AnnounceAfter(log: seq<Event>, sc: Scan, raise: bool, e: Event)
    ensures Announce(After(log, sc), raise, e) == log + Announce(sc, raise, e)
  {
    if raise {
      assert log + sc.emitted + [e] == log + (sc.emitted + [e]);
    }
  }

  /** What a field does to the record does not depend on what was raised before it. */
  lemma FieldStepAfter(log: seq<Event>, sc: Scan, block: string)
    ensures FieldStep(After(log, sc), block) == After(log, FieldStep(sc, block))
  {
    forall raise: bool, e: Event
      ensures Announce(After(log, sc), raise, e) == log + Announce(sc, raise, e)
    {
      AnnounceAfter(log, sc, raise, e);
    }
    match TagOf(block)
    case WPosTag =>
    case MPosTag =>
    case BufferTag =>
    case LineTag =>
    case RatesTag =>
    case FeedTag =>
    case OffsetTag =>
    case _ =>
  }

  lemma {:induction false} FieldsAfter(log: seq<Event>, sc: Scan, blocks: seq<string>)
    ensures Fields(After(log, sc), blocks) == After(log, Fields(sc, blocks))
    decreases |blocks|
  {
    if blocks != [] {
      FieldsAfter(log, sc, blocks[..|blocks| - 1]);
      FieldStepAfter(log, Fields(sc, blocks[..|blocks| - 1]), blocks[|blocks| - 1]);
    }
  }

  lemma FinishAfter(log: seq<Event>, sc: Scan)
    ensures Finish(After(log, sc)) == After(log, Finish(sc))
  {
    var tail := [SwitchesUpdated] + (if HasActioners in sc.st.infos && sc.st.actioners != sc.newActioners then [ActionersUpdated] else []);
    assert log + sc.emitted + tail == log + (sc.emitted + tail);
  }

  /** A whole report, after what was raised before it. */
  lemma StatusStepAfter(log: seq<Event>, s: Status, line: string)
    ensures Finish(Fields(After(log, StartScan(s, line)), StatusBlocks(line)[1..])) == After(log, StatusStep(s, line))
  {
    var sc := StartScan(s, line);
    var blocks := StatusBlocks(line)[1..];
    FieldsAfter(log, sc, blocks);
    FinishAfter(log, Fields(sc, blocks));
  }

  // ---------------------------------------------------------------------------
  // Properties of the state token

  lemma DifferAt(s: string, prefix: string, i: nat)
    requires i < |s| && i < |prefix| && s[i] != prefix[i]
    ensures !StartsWith(s, prefix)
  {
    if |prefix| <= |s| {
      assert s[..|prefix|][i] == s[i];
    }
  }

  /** stateUpdated is raised exactly when the state or the hold sub-code changes. */
  lemma TokenEdge(tok: string, state: StateType, holdCode: int, doorCode: int)
    ensures var t := StateToken(tok, state, holdCode, doorCode);
      t.raised <==> (t.state != state || t.holdCode != holdCode)
  {
  }

  /** A token outside the lexicon changes nothing and raises nothing. */
  lemma UnknownTokenKeepsState(tok: string, state: StateType, holdCode: int, doorCode: int)
    requires tok !in {"Idle", "Run", "Jog", "Home", "Alarm", "Check", "Sleep"}
    requires !StartsWith(tok, "Hold:") && !StartsWith(tok, "Door:")
    ensures StateToken(tok, state, holdCode, doorCode) == Token(state, holdCode, doorCode, false)
  {
  }

  /** Each plain state name selects its state. */
  lemma PlainTokensSelectTheirState(state: StateType, holdCode: int, doorCode: int)
    ensures StateToken("Idle", state, holdCode, doorCode).state == Idle
    ensures StateToken("Run", state, holdCode, doorCode).state == Run
    ensures StateToken("Jog", state, holdCode, doorCode).state == Jog
    ensures StateToken("Home", state, holdCode, doorCode).state == Home
    ensures StateToken("Alarm", state, holdCode, doorCode).state == Alarm
    ensures StateToken("Check", state, holdCode, doorCode).state == Check
    ensures StateToken("Sleep", state, holdCode, doorCode).state == Sleep
  {
    DifferAt("Alarm", "Hold:", 0);
    DifferAt("Check", "Hold:", 0);
    DifferAt("Sleep", "Hold:", 0);
    DifferAt("Alarm", "Door:", 0);
    DifferAt("Check", "Door:", 0);
    DifferAt("Sleep", "Door:", 0);
  }

  lemma DigitsAreNoStateName(d: string)
    requires |d| >= 1 && AllDigits(d)
    ensures d !in {"Idle", "Run", "Jog", "Home", "Alarm", "Check", "Sleep"}
    ensures !StartsWith(d, "Door:")
  {
    assert IsDigit(d[0]);
    DifferAt(d, "Door:", 0);
  }

  /** `Hold:<n>` selects Hold and records the sub-code. */
  lemma HoldTokenRecordsCode(d: string, state: StateType, holdCode: int, doorCode: int)
    requires |d| >= 1 && AllDigits(d)
    ensures var t := StateToken("Hold:" + d, state, holdCode, doorCode);
      t.state == Hold && t.holdCode == ParseInt(d) && t.doorCode == doorCode
  {
    var tok := "Hold:" + d;
    assert tok[..5] == "Hold:" && tok[5..] == d;
    assert tok[0] == 'H';
    DigitsAreNoStateName(d);
  }

  /** A changed `Door:` sub-code is recorded but, unlike a hold sub-code, raises no edge. */
  lemma DoorSubCodeRaisesNoEdge(d: string, holdCode: int, doorCode: int)
    requires |d| >= 1 && AllDigits(d)
    ensures var t := StateToken("Door:" + d, Door, holdCode, doorCode);
      t.state == Door && t.doorCode == ParseInt(d) && t.holdCode == holdCode && !t.raised
  {
    var tok := "Door:" + d;
    assert tok[..5] == "Door:" && tok[5..] == d;
    DifferAt(tok, "Hold:", 0);
    DigitsAreNoStateName(d);
  }

  /** Feeding the same token twice raises no edge the second time. */
  lemma TokenIdempotent(tok: string, state: StateType, holdCode: int, doorCode: int)
    ensures var t := StateToken(tok, state, holdCode, doorCode);
      var t2 := StateToken(tok, t.state, t.holdCode, t.doorCode);
      t2 == Token(t.state, t.holdCode, t.doorCode, false)
  {
  }

  // ---------------------------------------------------------------------------
  // One field at a time

  /** A field written as a tag and a payload is dispatched on that tag, with that payload. */
  lemma TagOfTagged(t: FieldTag, p: string)
    requires t != OtherTag
    ensures TagOf(TagText(t) + p) == t && Payload(TagText(t) + p) == p
  {
    var b := TagText(t) + p;
    assert b[..|TagText(t)|] == TagText(t);
    match t
    case WPosTag =>
    case MPosTag =>
      DifferAt(b, "WPos:", 0);
    case BufferTag =>
      DifferAt(b, "WPos:", 0); DifferAt(b, "MPos:", 0);
    case LineTag =>
      DifferAt(b, "WPos:", 0); DifferAt(b, "MPos:", 0); DifferAt(b, "Bf:", 0);
    case RatesTag =>
      DifferAt(b, "WPos:", 0); DifferAt(b, "MPos:", 0); DifferAt(b, "Bf:", 0); DifferAt(b, "Ln:", 0);
    case FeedTag =>
      DifferAt(b, "WPos:", 0); DifferAt(b, "MPos:", 0); DifferAt(b, "Bf:", 0); DifferAt(b, "Ln:", 0);
      DifferAt(b, "FS:", 1);
    case PinsTag =>
      DifferAt(b, "WPos:", 0); DifferAt(b, "MPos:", 0); DifferAt(b, "Bf:", 0); DifferAt(b, "Ln:", 0);
      DifferAt(b, "FS:", 0); DifferAt(b, "F:", 0);
    case OffsetTag =>
      DifferAt(b, "WPos:", 1); DifferAt(b, "MPos:", 0); DifferAt(b, "Bf:", 0); DifferAt(b, "Ln:", 0);
      DifferAt(b, "FS:", 0); DifferAt(b, "F:", 0); DifferAt(b, "Pn:", 0);
    case OverrideTag =>
      DifferAt(b, "WPos:", 0); DifferAt(b, "MPos:", 0); DifferAt(b, "Bf:", 0); DifferAt(b, "Ln:", 0);
      DifferAt(b, "FS:", 0); DifferAt(b, "F:", 0); DifferAt(b, "Pn:", 0); DifferAt(b, "WCO:", 0);
    case ActionTag =>
      DifferAt(b, "WPos:", 0); DifferAt(b, "MPos:", 0); DifferAt(b, "Bf:", 0); DifferAt(b, "Ln:", 0);
      DifferAt(b, "FS:", 0); DifferAt(b, "F:", 0); DifferAt(b, "Pn:", 0); DifferAt(b, "WCO:", 0);
      DifferAt(b, "Ov:", 0);
  }

  /** Notifications a field may raise. */
  predicate FieldEvents(es: seq<Event>) {
    forall i | 0 <= i < |es| :: es[i] in {CoordinatesUpdated, BuffersUpdated, LineNumberUpdated, RatesUpdated}
  }

  /** What every field keeps: state, sub-codes, `first`, earlier notifications; which flags it may add. */
  lemma FieldStepKeeps(sc: Scan, block: string)
    ensures var r := FieldStep(sc, block);
      var t := TagOf(block);
      && r.st.state == sc.st.state && r.st.holdCode == sc.st.holdCode && r.st.doorCode == sc.st.doorCode
      && r.st.first == sc.st.first && r.st.switches == sc.st.switches
      && sc.emitted <= r.emitted && FieldEvents(r.emitted[|sc.emitted|..])
      && sc.st.infos <= r.st.infos <= sc.st.infos + ReportFlags
      && (t != PinsTag ==> r.newSwitches == sc.newSwitches)
      && (t != ActionTag ==> r.newActioners == sc.newActioners)
      && (t != OverrideTag ==> r.st.actioners == sc.st.actioners)
      && (t != OverrideTag && t != ActionTag ==> (HasActioners in r.st.infos <==> HasActioners in sc.st.infos))
  {
    var r := FieldStep(sc, block);
    match TagOf(block)
    case WPosTag =>
    case MPosTag =>
    case BufferTag =>
    case LineTag =>
    case RatesTag =>
    case FeedTag =>
    case PinsTag =>
    case OffsetTag =>
    case OverrideTag =>
    case ActionTag =>
    case OtherTag =>
  }

  /** With the offset known, `WPos:` yields machine = working + offset. */
  lemma WPosDerivesMachine(sc: Scan, p: string, c: Coords)
    requires ParseCoords(p) == Some(c)
    ensures var r := FieldStep(sc, "WPos:" + p);
      && r.st.working == c
      && (HasWorkingOffset in sc.st.infos ==> r.st.machine == Plus(c, sc.st.offset) && r.st.offset == sc.st.offset)
      && (HasWorkingOffset !in sc.st.infos ==> r.st.machine == sc.st.machine)
      && r.emitted == sc.emitted
           + (if sc.st.first || sc.st.working != c
                 || (HasWorkingOffset in sc.st.infos && sc.st.machine != Plus(c, sc.st.offset))
              then [CoordinatesUpdated] else [])
  {
    TagOfTagged(WPosTag, p);
    var r := FieldStep(sc, "WPos:" + p);
    assert r == WPosField(sc, p);
  }

  /**
   * With the offset known, `MPos:` yields working = machine - offset; without
   * it the working position is left alone. Either way the change test
   * compares the new machine position with the old working position.
   */
  lemma MPosDerivesWorking(sc: Scan, p: string, c: Coords)
    requires ParseCoords(p) == Some(c)
    ensures var r := FieldStep(sc, "MPos:" + p);
      && r.st.machine == c
      && (HasWorkingOffset in sc.st.infos ==> r.st.working == Minus(c, sc.st.offset))
      && (HasWorkingOffset !in sc.st.infos ==> r.st.working == sc.st.working)
      && r.emitted == sc.emitted
           + (if sc.st.first || sc.st.working != c
                 || (HasWorkingOffset in sc.st.infos && sc.st.working != Minus(c, sc.st.offset))
              then [CoordinatesUpdated] else [])
  {
    TagOfTagged(MPosTag, p);
    var r := FieldStep(sc, "MPos:" + p);
    assert r == MPosField(sc, p);
  }

  /** Without a known offset, an `MPos:` that differs from the working position is announced on every report. */
  lemma MPosWithoutOffsetAnnouncesForever(sc: Scan, p: string, c: Coords)
    requires ParseCoords(p) == Some(c) && HasWorkingOffset !in sc.st.infos && sc.st.working != c
    ensures var r := FieldStep(sc, "MPos:" + p);
      var r2 := FieldStep(r, "MPos:" + p);
      CoordinatesUpdated in r.emitted[|sc.emitted|..] && CoordinatesUpdated in r2.emitted[|r.emitted|..]
  {
    MPosDerivesWorking(sc, p, c);
    var r := FieldStep(sc, "MPos:" + p);
    TagOfTagged(MPosTag, p);
    assert HasWorkingOffset !in r.st.infos;
    MPosDerivesWorking(r, p, c);
  }

  /** A position field with the wrong arity is skipped. */
  lemma MalformedPositionSkipped(sc: Scan, p: string)
    requires ParseCoords(p) == None
    ensures FieldStep(sc, "WPos:" + p) == sc && FieldStep(sc, "MPos:" + p) == sc
  {
    TagOfTagged(WPosTag, p);
    TagOfTagged(MPosTag, p);
  }

  /** `WCO:` sets the offset and fills in whichever position this report has not given. */
  lemma OffsetFillsMissingPosition(sc: Scan, p: string, c: Coords)
    requires ParseCoords(p) == Some(c)
    ensures var r := FieldStep(sc, "WCO:" + p);
      var s := sc.st;
      && r.st.offset == c && HasWorkingOffset in r.st.infos
      && (HasMachineCoords !in s.infos ==> r.st.machine == Plus(s.working, c))
      && (HasMachineCoords in s.infos && HasWorkingCoords !in s.infos ==> r.st.working == Minus(s.machine, c))
      && (HasMachineCoords in s.infos && HasWorkingCoords in s.infos ==>
            r.st.working == s.working && r.st.machine == s.machine)
      && r.emitted == sc.emitted
           + (if s.offset != c || HasMachineCoords !in s.infos || HasWorkingCoords !in s.infos
              then [CoordinatesUpdated] else [])
  {
    TagOfTagged(OffsetTag, p);
    var r := FieldStep(sc, "WCO:" + p);
    assert r == WcoField(sc, p);
  }

  /** A malformed `WCO:` still marks the offset as known and changes nothing else. */
  lemma MalformedOffsetStillMarksKnown(sc: Scan, p: string)
    requires ParseCoords(p) == None
    ensures FieldStep(sc, "WCO:" + p) == sc.(st := sc.st.(infos := sc.st.infos + {HasWorkingOffset}))
  {
    TagOfTagged(OffsetTag, p);
  }

  /** `Bf:` raises buffersUpdated iff one of its two integers differs; a wrong arity skips it. */
  lemma BufferFieldGated(sc: Scan, p: string)
    ensures var r := FieldStep(sc, "Bf:" + p);
      var vals := Split(p, ',');
      if |vals| == 2 then
        var b, x := ParseInt(vals[0]), ParseInt(vals[1]);
        && r.st.blockBuffer == b && r.st.rxBuffer == x
        && r.emitted == sc.emitted + (if sc.st.blockBuffer != b || sc.st.rxBuffer != x then [BuffersUpdated] else [])
      else r == sc
  {
    TagOfTagged(BufferTag, p);
  }

  /** `Ln:` raises lineNumberUpdated iff the number differs; a wrong arity skips it. */
  lemma LineNumberFieldGated(sc: Scan, p: string)
    ensures var r := FieldStep(sc, "Ln:" + p);
      var vals := Split(p, ',');
      if |vals| == 1 then
        && r.st.lineNumber == ParseInt(vals[0])
        && r.emitted == sc.emitted + (if sc.st.lineNumber != ParseInt(vals[0]) then [LineNumberUpdated] else [])
      else r == sc
  {
    TagOfTagged(LineTag, p);
  }

  /** `FS:` raises ratesUpdated iff the feed or the speed differs; a wrong arity skips it. */
  lemma RatesFieldGated(sc: Scan, p: string)
    ensures var r := FieldStep(sc, "FS:" + p);
      var vals := Split(p, ',');
      if |vals| == 2 then
        var f, v := ParseInt(vals[0]), ParseInt(vals[1]);
        && r.st.feedRate == f && r.st.spindleSpeed == v
        && r.emitted == sc.emitted + (if sc.st.feedRate != f || sc.st.spindleSpeed != v then [RatesUpdated] else [])
      else r == sc
  {
    TagOfTagged(RatesTag, p);
  }

  // ---------------------------------------------------------------------------
  // Whole reports

  lemma FieldsOfOne(sc: Scan, a: string)
    ensures Fields(sc, [a]) == FieldStep(sc, a)
  {
    assert [a][..0] == [];
  }

  lemma FieldsOfTwo(sc: Scan, a: string, b: string)
    ensures Fields(sc, [a, b]) == FieldStep(FieldStep(sc, a), b)
  {
    assert [a, b][..1] == [a];
    FieldsOfOne(sc, a);
  }

  /** Folding over a concatenation is folding twice. */
  lemma {:induction false} FieldsAppend(sc: Scan, a: seq<string>, b: seq<string>)
    ensures Fields(sc, a + b) == Fields(Fields(sc, a), b)
    decreases |b|
  {
    if b == [] {
      assert a + b == a;
    } else {
      var ab := a + b;
      assert ab[..|ab| - 1] == a + b[..|b| - 1];
      assert ab[|ab| - 1] == b[|b| - 1];
      FieldsAppend(sc, a, b[..|b| - 1]);
    }
  }

  /** FieldStepKeeps, carried across any number of fields. */
  lemma {:induction false} FieldsKeep(sc: Scan, blocks: seq<string>)
    ensures var r := Fields(sc, blocks);
      && r.st.state == sc.st.state && r.st.holdCode == sc.st.holdCode && r.st.doorCode == sc.st.doorCode
      && r.st.first == sc.st.first
      && sc.emitted <= r.emitted && FieldEvents(r.emitted[|sc.emitted|..])
      && sc.st.infos <= r.st.infos <= sc.st.infos + ReportFlags
    decreases |blocks|
  {
    if blocks != [] {
      var prefix := blocks[..|blocks| - 1];
      var f := Fields(sc, prefix);
      var r := FieldStep(f, blocks[|blocks| - 1]);
      FieldsKeep(sc, prefix);
      FieldStepKeeps(f, blocks[|blocks| - 1]);
      assert r.emitted[|sc.emitted|..] == f.emitted[|sc.emitted|..] + r.emitted[|f.emitted|..];
    }
  }

  /** The notifications of a report: the edge, the fields', switches, then possibly actioners. */
  lemma StatusStepEvents(s: Status, line: string)
    ensures var start := StartScan(s, line);
      var f := Fields(start, StatusBlocks(line)[1..]);
      var r := StatusStep(s, line);
      && r.st.state == f.st.state && r.st.holdCode == f.st.holdCode && r.st.doorCode == f.st.doorCode
      && r.st.infos == f.st.infos && start.emitted <= f.emitted
      && r.emitted == start.emitted + f.emitted[|start.emitted|..] + [SwitchesUpdated]
                      + (if HasActioners in f.st.infos && f.st.actioners != f.newActioners then [ActionersUpdated] else [])
      && FieldEvents(f.emitted[|start.emitted|..])
  {
    var start := StartScan(s, line);
    FieldsKeep(start, StatusBlocks(line)[1..]);
    var f := Fields(start, StatusBlocks(line)[1..]);
    assert f.emitted == start.emitted + f.emitted[|start.emitted|..];
  }

  /** stateUpdated is raised by a report exactly when its state or its hold sub-code changes. */
  lemma StateEdgeExactlyOnChange(s: Status, line: string)
    ensures var r := StatusStep(s, line);
      var t := StateToken(StatusBlocks(line)[0], s.state, s.holdCode, s.doorCode);
      && r.st.state == t.state && r.st.holdCode == t.holdCode && r.st.doorCode == t.doorCode
      && (StateUpdated in r.emitted <==> (r.st.state != s.state || r.st.holdCode != s.holdCode))
  {
    var blocks := StatusBlocks(line);
    TokenEdge(blocks[0], s.state, s.holdCode, s.doorCode);
    var start := StartScan(s, line);
    FieldsKeep(start, blocks[1..]);
    StatusStepEvents(s, line);
    var f := Fields(start, blocks[1..]);
    var mid := f.emitted[|start.emitted|..];
    assert StateUpdated !in mid;
  }

  /** `<Hold:0|...>` followed by `<Hold:1|...>` raises stateUpdated on the second report. */
  lemma HoldSubCodeChangeIsAnEdge(s: Status, line1: string, line2: string)
    requires StatusBlocks(line1)[0] == "Hold:0" && StatusBlocks(line2)[0] == "Hold:1"
    ensures StateUpdated in StatusStep(StatusStep(s, line1).st, line2).emitted
  {
    var r1 := StatusStep(s, line1);
    assert "Hold:0" == "Hold:" + "0" && "Hold:1" == "Hold:" + "1";
    assert DigitsValue("0") == DigitsValue("0"[..0]) * 10 + 0;
    assert DigitsValue("1") == DigitsValue("1"[..0]) * 10 + 1;
    assert ParseInt("0") == 0 && ParseInt("1") == 1;
    HoldTokenRecordsCode("0", s.state, s.holdCode, s.doorCode);
    StateEdgeExactlyOnChange(s, line1);
    HoldTokenRecordsCode("1", r1.st.state, r1.st.holdCode, r1.st.doorCode);
    StateEdgeExactlyOnChange(r1.st, line2);
  }

  /** A report whose state token repeats the previous one raises no stateUpdated. */
  lemma RepeatedTokenIsQuiet(s: Status, line1: string, line2: string)
    requires StatusBlocks(line1)[0] == StatusBlocks(line2)[0]
    ensures StateUpdated !in StatusStep(StatusStep(s, line1).st, line2).emitted
  {
    var r1 := StatusStep(s, line1);
    var tok := StatusBlocks(line1)[0];
    StateEdgeExactlyOnChange(s, line1);
    TokenIdempotent(tok, s.state, s.holdCode, s.doorCode);
    StateEdgeExactlyOnChange(r1.st, line2);
  }

  /** A report that starts with no state name leaves the state alone and raises no edge. */
  lemma UnknownReportKeepsState(s: Status, line: string)
    requires StatusBlocks(line)[0] !in {"Idle", "Run", "Jog", "Home", "Alarm", "Check", "Sleep"}
    requires !StartsWith(StatusBlocks(line)[0], "Hold:") && !StartsWith(StatusBlocks(line)[0], "Door:")
    ensures var r := StatusStep(s, line);
      r.st.state == s.state && StateUpdated !in r.emitted
  {
    UnknownTokenKeepsState(StatusBlocks(line)[0], s.state, s.holdCode, s.doorCode);
    StateEdgeExactlyOnChange(s, line);
  }

  /** The union of the pins of every `Pn:` field. */
  ghost function PinsOf(blocks: seq<string>): set<SwitchFlag>
    decreases |blocks|
  {
    if blocks == [] then {}
    else
      var last := blocks[|blocks| - 1];
      PinsOf(blocks[..|blocks| - 1]) + (if TagOf(last) == PinsTag then SwitchesOf(Payload(last)) else {})
  }

  lemma {:induction false} FieldsCollectPins(sc: Scan, blocks: seq<string>)
    ensures Fields(sc, blocks).newSwitches == sc.newSwitches + PinsOf(blocks)
    decreases |blocks|
  {
    if blocks != [] {
      var prefix := blocks[..|blocks| - 1];
      FieldsCollectPins(sc, prefix);
      FieldStepKeeps(Fields(sc, prefix), blocks[|blocks| - 1]);
    }
  }

  lemma {:induction false} NoPinsWithoutPinFields(blocks: seq<string>)
    requires forall b | b in blocks :: TagOf(b) != PinsTag
    ensures PinsOf(blocks) == {}
    decreases |blocks|
  {
    if blocks != [] {
      assert blocks[|blocks| - 1] in blocks;
      assert forall b | b in blocks[..|blocks| - 1] :: b in blocks;
      NoPinsWithoutPinFields(blocks[..|blocks| - 1]);
    }
  }

  /**
   * Every report rebuilds the switches from its `Pn:` fields alone and always
   * raises switchesUpdated; a report without `Pn:` releases every switch.
   */
  lemma SwitchesRebuiltEachReport(s: Status, line: string)
    ensures var r := StatusStep(s, line);
      && r.st.switches == PinsOf(StatusBlocks(line)[1..])
      && SwitchesUpdated in r.emitted
      && ((forall b | b in StatusBlocks(line)[1..] :: TagOf(b) != PinsTag) ==> r.st.switches == {})
  {
    var blocks := StatusBlocks(line)[1..];
    FieldsCollectPins(StartScan(s, line), blocks);
    StatusStepEvents(s, line);
    if forall b | b in blocks :: TagOf(b) != PinsTag {
      NoPinsWithoutPinFields(blocks);
    }
  }

  /** `Pn:PXD` reads as probe, X limit and door. */
  lemma ProbeLimitDoorPins()
    ensures SwitchesOf("PXD") == {ProbePin, LimitX, DoorPin}
  {
    var pins := "PXD";
    assert ToUpper(pins[0]) == 'P' && ToUpper(pins[1]) == 'X' && ToUpper(pins[2]) == 'D';
    assert forall c | c in {'Y', 'Z', 'R', 'H', 'S'} :: !ContainsFolded(pins, c);
  }

  /** Without `Ov:` or `A:` among the fields, the actioners stay as they were. */
  lemma {:induction false} FieldsKeepActioners(sc: Scan, blocks: seq<string>)
    requires forall b | b in blocks :: TagOf(b) != OverrideTag && TagOf(b) != ActionTag
    ensures var r := Fields(sc, blocks);
      && r.st.actioners == sc.st.actioners && r.newActioners == sc.newActioners
      && (HasActioners in r.st.infos <==> HasActioners in sc.st.infos)
    decreases |blocks|
  {
    if blocks != [] {
      var prefix := blocks[..|blocks| - 1];
      assert blocks[|blocks| - 1] in blocks;
      assert forall b | b in prefix :: b in blocks;
      FieldsKeepActioners(sc, prefix);
      FieldStepKeeps(Fields(sc, prefix), blocks[|blocks| - 1]);
    }
  }

  /** Actioners change, and are announced, only in a report that carries `Ov:` or `A:`. */
  lemma ActionersNeedOverrideOrActionField(s: Status, line: string)
    requires forall b | b in StatusBlocks(line)[1..] :: TagOf(b) != OverrideTag && TagOf(b) != ActionTag
    ensures var r := StatusStep(s, line);
      r.st.actioners == s.actioners && ActionersUpdated !in r.emitted
  {
    var start := StartScan(s, line);
    var blocks := StatusBlocks(line)[1..];
    FieldsKeepActioners(start, blocks);
    StatusStepEvents(s, line);
    var f := Fields(start, blocks);
    var mid := f.emitted[|start.emitted|..];
    assert ActionersUpdated !in mid;
    assert HasActioners !in start.st.infos;
  }

  /**
   * An `Ov:` report without `A:` clears the actioners silently: a spindle or
   * coolant that has just been switched off is never announced.
   */
  lemma OverrideReportClearsActionersSilently(s: Status, line: string, p: string)
    requires StatusBlocks(line)[1..] == ["Ov:" + p] && |Split(p, ',')| == 3
    ensures var r := StatusStep(s, line);
      r.st.actioners == {} && ActionersUpdated !in r.emitted
  {
    var start := StartScan(s, line);
    TagOfTagged(OverrideTag, p);
    FieldsOfOne(start, "Ov:" + p);
    var f := Fields(start, StatusBlocks(line)[1..]);
    assert f == OvField(start, p);
    assert f.emitted == start.emitted;
    assert ActionersUpdated !in start.emitted;
  }

  /** An `Ov:` report whose `A:` repeats the actioners announces them again although nothing changed. */
  lemma OverrideReportRepublishesActioners(s: Status, line: string, p: string, a: string)
    requires StatusBlocks(line)[1..] == ["Ov:" + p, "A:" + a] && |Split(p, ',')| == 3
    requires ActionersOf(a) == s.actioners && s.actioners != {}
    ensures var r := StatusStep(s, line);
      r.st.actioners == s.actioners && ActionersUpdated in r.emitted
  {
    var start := StartScan(s, line);
    assert start.st.actioners == s.actioners;
    FieldsOfTwo(start, "Ov:" + p, "A:" + a);
    OverrideThenActions(start, p, a);
  }

  lemma OverrideThenActions(start: Scan, p: string, a: string)
    requires |Split(p, ',')| == 3
    requires ActionersOf(a) == start.st.actioners && start.st.actioners != {} && start.newActioners == {}
    ensures var r := Finish(FieldStep(FieldStep(start, "Ov:" + p), "A:" + a));
      r.st.actioners == start.st.actioners && ActionersUpdated in r.emitted
  {
    FieldStepOverride(start, p);
    var b := FieldStep(start, "Ov:" + p);
    FieldStepAction(b, a);
  }

  lemma FieldStepOverride(sc: Scan, p: string)
    requires |Split(p, ',')| == 3
    ensures var r := FieldStep(sc, "Ov:" + p);
      r.st.actioners == {} && HasActioners in r.st.infos && r.newActioners == sc.newActioners && r.emitted == sc.emitted
  {
    TagOfTagged(OverrideTag, p);
  }

  lemma FieldStepAction(sc: Scan, a: string)
    ensures FieldStep(sc, "A:" + a)
      == sc.(st := sc.st.(infos := sc.st.infos + {HasActioners}), newActioners := sc.newActioners + ActionersOf(a))
  {
    TagOfTagged(ActionTag, a);
  }

  /**
   * After a report only the flags a report can set remain: configuration,
   * starting blocks, units, distance mode, error, TLO, PRB and G-code state
   * flags gathered from other responses are forgotten.
   */
  lemma ReportForgetsOtherFlags(s: Status, line: string)
    ensures StatusStep(s, line).st.infos <= ReportFlags
  {
    var start := StartScan(s, line);
    var f := Fields(start, StatusBlocks(line)[1..]);
    assert start.st.infos <= ReportFlags by {
      assert start.st.infos <= KeptAcrossReports + {HasSwitches};
    }
    FieldsKeep(start, StatusBlocks(line)[1..]);
    assert f.st.infos <= ReportFlags;
    StatusStepEvents(s, line);
  }

  /** On the very first report, any well-formed position field announces the coordinates. */
  lemma FirstReportAnnouncesCoordinates(s: Status, line: string, i: nat, t: FieldTag, p: string)
    requires s.first && (t == WPosTag || t == MPosTag)
    requires 1 <= i < |StatusBlocks(line)| && StatusBlocks(line)[i] == TagText(t) + p && ParseCoords(p).Some?
    ensures CoordinatesUpdated in StatusStep(s, line).emitted
  {
    FirstFieldsAnnounce(StartScan(s, line), StatusBlocks(line)[1..], i - 1, t, p);
    FieldEventReachesEnd(s, line, CoordinatesUpdated);
  }

  /** The scan-level half of FirstReportAnnouncesCoordinates. */
  lemma FirstFieldsAnnounce(start: Scan, blocks: seq<string>, k: nat, t: FieldTag, p: string)
    requires start.st.first && (t == WPosTag || t == MPosTag) && ParseCoords(p).Some?
    requires k < |blocks| && blocks[k] == TagText(t) + p
    ensures CoordinatesUpdated in Fields(start, blocks).emitted
  {
    FieldsAt(start, blocks, k);
    var before := Fields(start, blocks[..k]);
    FieldsKeep(start, blocks[..k]);
    FirstPositionAnnounces(before, t, p);
    FieldsKeep(FieldStep(before, blocks[k]), blocks[k + 1..]);
  }

  /** The fields of a report, split around the one at position `k`. */
  lemma FieldsAt(sc: Scan, blocks: seq<string>, k: nat)
    requires k < |blocks|
    ensures Fields(sc, blocks) == Fields(FieldStep(Fields(sc, blocks[..k]), blocks[k]), blocks[k + 1..])
  {
    assert blocks == blocks[..k] + [blocks[k]] + blocks[k + 1..];
    FieldsAppend(sc, blocks[..k] + [blocks[k]], blocks[k + 1..]);
    FieldsAppend(sc, blocks[..k], [blocks[k]]);
    FieldsOfOne(Fields(sc, blocks[..k]), blocks[k]);
  }

  /** A well-formed position field read while the record is still first announces the coordinates. */
  lemma FirstPositionAnnounces(sc: Scan, t: FieldTag, p: string)
    requires sc.st.first && (t == WPosTag || t == MPosTag) && ParseCoords(p).Some?
    ensures CoordinatesUpdated in FieldStep(sc, TagText(t) + p).emitted
  {
    TagOfTagged(t, p);
  }

  /** A notification raised by any field of a report is among the report's notifications. */
  lemma FieldEventReachesEnd(s: Status, line: string, e: Event)
    requires e in Fields(StartScan(s, line), StatusBlocks(line)[1..]).emitted
    ensures e in StatusStep(s, line).emitted
  {
    var f := Fields(StartScan(s, line), StatusBlocks(line)[1..]);
    assert StatusStep(s, line).emitted == f.emitted + Finish(f).emitted[|f.emitted|..];
  }

  /** A `<STATE|WPos:...|FS:...>` report: what it stores and when it announces coordinates and rates. */
  lemma PositionAndRatesReport(s: Status, line: string, p: string, q: string)
    requires StatusBlocks(line)[1..] == ["WPos:" + p, "FS:" + q]
    requires ParseCoords(p).Some? && |Split(q, ',')| == 2
    ensures var r := StatusStep(s, line);
      var c := ParseCoords(p).value;
      var f, v := ParseInt(Split(q, ',')[0]), ParseInt(Split(q, ',')[1]);
      var known := HasWorkingOffset in s.infos;
      && r.st.working == c && !r.st.first && r.st.offset == s.offset
      && (HasWorkingOffset in r.st.infos <==> known)
      && (known ==> r.st.machine == Plus(c, s.offset))
      && r.st.feedRate == f && r.st.spindleSpeed == v
      && (CoordinatesUpdated in r.emitted <==> s.first || s.working != c || (known && s.machine != Plus(c, s.offset)))
      && (RatesUpdated in r.emitted <==> s.feedRate != f || s.spindleSpeed != v)
  {
    var start := StartScan(s, line);
    assert start.st == s.(infos := start.st.infos, state := start.st.state, holdCode := start.st.holdCode,
                          doorCode := start.st.doorCode);
    assert HasWorkingOffset in start.st.infos <==> HasWorkingOffset in s.infos;
    assert CoordinatesUpdated !in start.emitted && RatesUpdated !in start.emitted;
    FieldsOfTwo(start, "WPos:" + p, "FS:" + q);
    FieldStepIs(start, WPosTag, p);
    FieldStepIs(WPosField(start, p), RatesTag, q);
    PositionThenRates(start, p, q);
  }

  /** A position or rates field is handled by its own field function. */
  lemma FieldStepIs(sc: Scan, t: FieldTag, p: string)
    requires t == WPosTag || t == RatesTag
    ensures t == WPosTag ==> FieldStep(sc, TagText(t) + p) == WPosField(sc, p)
    ensures t == RatesTag ==> FieldStep(sc, TagText(t) + p) == FSField(sc, p)
  {
    TagOfTagged(t, p);
  }

  /** The scan-level half of PositionAndRatesReport: a `WPos:` field, then an `FS:` field, then the end. */
  lemma PositionThenRates(start: Scan, p: string, q: string)
    requires ParseCoords(p).Some? && |Split(q, ',')| == 2
    requires CoordinatesUpdated !in start.emitted && RatesUpdated !in start.emitted
    ensures var r := Finish(FSField(WPosField(start, p), q));
      var s := start.st;
      var c := ParseCoords(p).value;
      var f, v := ParseInt(Split(q, ',')[0]), ParseInt(Split(q, ',')[1]);
      var known := HasWorkingOffset in s.infos;
      && r.st.working == c && !r.st.first && r.st.offset == s.offset
      && (HasWorkingOffset in r.st.infos <==> known)
      && (known ==> r.st.machine == Plus(c, s.offset))
      && r.st.feedRate == f && r.st.spindleSpeed == v
      && (CoordinatesUpdated in r.emitted <==> s.first || s.working != c || (known && s.machine != Plus(c, s.offset)))
      && (RatesUpdated in r.emitted <==> s.feedRate != f || s.spindleSpeed != v)
  {
    var s := start.st;
    var c := ParseCoords(p).value;
    var vals := Split(q, ',');
    var a := WPosField(start, p);
    var b := FSField(a, q);
    var known := HasWorkingOffset in s.infos;
    var coords := s.first || s.working != c || (known && s.machine != Plus(c, s.offset));
    var rates := s.feedRate != ParseInt(vals[0]) || s.spindleSpeed != ParseInt(vals[1]);
    var e1 := if coords then [CoordinatesUpdated] else [];
    var e2 := if rates then [RatesUpdated] else [];
    assert a.emitted == start.emitted + e1;
    assert b.emitted == start.emitted + e1 + e2;
    FinishEvents(b, start.emitted, e1, e2);
  }

  /** The end of a report adds only switchesUpdated and possibly actionersUpdated after what the fields raised. */
  lemma FinishEvents(b: Scan, e0: seq<Event>, e1: seq<Event>, e2: seq<Event>)
    requires b.emitted == e0 + e1 + e2
    requires CoordinatesUpdated !in e0 && RatesUpdated !in e0
    requires e1 == [] || e1 == [CoordinatesUpdated]
    requires e2 == [] || e2 == [RatesUpdated]
    ensures var r := Finish(b);
      && (CoordinatesUpdated in r.emitted <==> e1 != [])
      && (RatesUpdated in r.emitted <==> e2 != [])
  {
    var r := Finish(b);
    var e3 := if HasActioners in b.st.infos && b.st.actioners != b.newActioners then [ActionersUpdated] else [];
    assert r.emitted == e0 + e1 + e2 + [SwitchesUpdated] + e3;
  }

  /**
   * Feeding the same `<STATE|WPos:...|FS:...>` report twice: the second
   * delivery announces neither the state, the coordinates nor the rates, while
   * both deliveries announce the switches.
   */
  lemma RepeatedReportIsQuiet(s: Status, line: string, p: string, q: string)
    requires StatusBlocks(line)[1..] == ["WPos:" + p, "FS:" + q]
    requires ParseCoords(p).Some? && |Split(q, ',')| == 2
    ensures var r1 := StatusStep(s, line);
      var r2 := StatusStep(r1.st, line);
      && SwitchesUpdated in r1.emitted && SwitchesUpdated in r2.emitted
      && StateUpdated !in r2.emitted && CoordinatesUpdated !in r2.emitted && RatesUpdated !in r2.emitted
  {
    var r1 := StatusStep(s, line);
    PositionAndRatesReport(s, line, p, q);
    PositionAndRatesReport(r1.st, line, p, q);
    SwitchesRebuiltEachReport(s, line);
    SwitchesRebuiltEachReport(r1.st, line);
    RepeatedTokenIsQuiet(s, line, line);
  }
}
