/**
 * The `[...]` responses handled by `Grbl::parseInfo`: tool length offset,
 * probe result, parser state, build version, build options and the stored
 * coordinate offsets, as functions on the part of the machine record they
 * touch. The class in grbl.dfy runs the same steps and is proved to agree
 * with InfoStep.
 */
module InfoReport {
  import opened Text
  import opened Protocol
  import StatusReport

  /** The fields of the machine record that an info response reads and writes. */
  datatype Info = Info(
    infos: set<InfoFlag>, features: set<FeatureFlag>,
    tlo: real, prb: Coords, version: string,
    blockBufferMax: int, rxBufferMax: int,
    gxx: map<nat, Coords>)

  datatype InfoResult = InfoResult(info: Info, emitted: seq<Event>)

  /** One word of a `GC:` response: only the units and distance-mode words touch the flags. */
  function GcWord(infos: set<InfoFlag>, word: string): set<InfoFlag> {
    var a := if word == "G20" then infos - {IsMilimeters} else infos;
    var b := if word == "G21" then a + {IsMilimeters} else a;
    var c := if word == "G90" then b - {IsAbsolute} else b;
    if word == "G91" then c + {IsAbsolute} else c
  }

  /** The words of a `GC:` response, applied left to right. */
  function GcModes(infos: set<InfoFlag>, words: seq<string>): set<InfoFlag>
    decreases |words|
  {
    if words == [] then infos
    else GcWord(GcModes(infos, words[..|words| - 1]), words[|words| - 1])
  }

  /** The options that `OPT:` turns on; the letters are matched case-sensitively. */
  function OptionFeatures(opts: string): set<FeatureFlag> {
    (if 'V' in opts then {HasVariableSpindle, HasLaserMode} else {})
    + (if 'M' in opts then {HasCoolantMist} else {})
  }

  /** `TLO:value`: the tool length offset. */
  function ToolOffsetEntry(i: Info, payload: string): InfoResult {
    InfoResult(i.(tlo := ParseReal(payload), infos := i.infos + {HasTLO}), [])
  }

  /** `PRB:x,y,z:ok`, read as three comma-separated numbers: the last probe position. */
  function ProbeEntry(i: Info, payload: string): InfoResult {
    match StatusReport.ParseCoords(payload)
    case None => InfoResult(i, [])
    case Some(c) => InfoResult(i.(prb := c, infos := i.infos + {HasPRB}), [])
  }

  /** `GC:words`: the parser state. */
  function ParserStateEntry(i: Info, payload: string): InfoResult {
    InfoResult(i.(infos := GcModes(i.infos, Split(payload, ' ')) + {HasGC}), [])
  }

  /** `VER:version:name`: the build version. */
  function VersionEntry(i: Info, payload: string): InfoResult {
    var vals := Split(payload, ':');
    if |vals| == 2 then
      InfoResult(i.(version := vals[0], features := i.features + {Version}), [VersionUpdated])
    else InfoResult(i, [])
  }

  /** `OPT:letters,blocks,rx`: the build options and the buffer sizes. */
  function OptionsEntry(i: Info, payload: string): InfoResult {
    var vals := Split(payload, ',');
    if |vals| == 3 then
      InfoResult(i.(features := i.features + OptionFeatures(vals[0]),
                    blockBufferMax := ParseInt(vals[1]), rxBufferMax := ParseInt(vals[2])), [])
    else InfoResult(i, [])
  }

  /** `G<n>:x,y,z` after the leading `G`: one stored coordinate offset. */
  function OffsetEntry(i: Info, payload: string): InfoResult {
    var parts := Split(payload, ':');
    if |parts| != 2 then InfoResult(i, [])
    else
      match StatusReport.ParseCoords(parts[1])
      case None => InfoResult(i, [])
      case Some(c) => InfoResult(i.(gxx := i.gxx[ParseUInt(parts[0]) := c], infos := i.infos + {HasGXX}), [])
  }

  /** A whole `[...]` response, by the first prefix that matches: the new record and the notifications it raises. */
  function InfoStep(i: Info, line: string): InfoResult {
    var body := Inner(line);
    if StartsWith(body, "TLO:") then ToolOffsetEntry(i, body[4..])
    else if StartsWith(body, "PRB:") then ProbeEntry(i, body[4..])
    else if StartsWith(body, "GC:") then ParserStateEntry(i, body[3..])
    else if StartsWith(body, "VER:") then VersionEntry(i, body[4..])
    else if StartsWith(body, "OPT:") then OptionsEntry(i, body[4..])
    else if StartsWith(body, "G") then OffsetEntry(i, body[1..])
    else InfoResult(i, [])
  }

  // ---------------------------------------------------------------------------
  // Parser state

  /** The last word of `words` that is `a` or `b`, if any. */
  function LastOf(words: seq<string>, a: string, b: string): Option<string>
    decreases |words|
  {
    if words == [] then None
    else if words[|words| - 1] == a || words[|words| - 1] == b then Some(words[|words| - 1])
    else LastOf(words[..|words| - 1], a, b)
  }

  /**
   * In a `GC:` response the last units word decides millimetres, the last
   * distance word decides the distance flag (set by G91), a response without
   * such a word leaves the flag as it was, and no other flag is touched.
   */
  lemma {:induction false} GcModesLastWordWins(infos: set<InfoFlag>, words: seq<string>)
    ensures var r := GcModes(infos, words);
      && (IsMilimeters in r <==>
            LastOf(words, "G20", "G21") == Some("G21") || (LastOf(words, "G20", "G21") == None && IsMilimeters in infos))
      && (IsAbsolute in r <==>
            LastOf(words, "G90", "G91") == Some("G91") || (LastOf(words, "G90", "G91") == None && IsAbsolute in infos))
      && r - {IsMilimeters, IsAbsolute} == infos - {IsMilimeters, IsAbsolute}
    decreases |words|
  {
    if words != [] {
      GcModesLastWordWins(infos, words[..|words| - 1]);
    }
  }

  /** `GC:G21 G91` leaves both millimetres and the distance flag set, whatever came before. */
  lemma MillimetresIncrementalFlags(infos: set<InfoFlag>)
    ensures GcModes(infos, ["G21", "G91"]) * {IsMilimeters, IsAbsolute} == {IsMilimeters, IsAbsolute}
  {
    var words := ["G21", "G91"];
    assert words[..1] == ["G21"] && words[..1][..0] == [];
  }

  /** A `[GC:...]` response: the mode flags follow its words, and nothing else but HasGC changes. */
  lemma ParserStateReport(i: Info, line: string, g: string)
    requires Inner(line) == "GC:" + g
    ensures var r := InfoStep(i, line);
      var words := Split(g, ' ');
      && r.emitted == []
      && r.info == i.(infos := r.info.infos)
      && (IsMilimeters in r.info.infos <==>
            LastOf(words, "G20", "G21") == Some("G21") || (LastOf(words, "G20", "G21") == None && IsMilimeters in i.infos))
      && (IsAbsolute in r.info.infos <==>
            LastOf(words, "G90", "G91") == Some("G91") || (LastOf(words, "G90", "G91") == None && IsAbsolute in i.infos))
      && r.info.infos - {IsMilimeters, IsAbsolute} == i.infos - {IsMilimeters, IsAbsolute} + {HasGC}
  {
    var body := Inner(line);
    assert body[..3] == "GC:" && body[3..] == g;
    StatusReport.DifferAt(body, "TLO:", 0);
    StatusReport.DifferAt(body, "PRB:", 0);
    GcModesLastWordWins(i.infos, Split(g, ' '));
  }

  // ---------------------------------------------------------------------------
  // Version, options, offsets

  /** `[VER:v:name]` stores the version text before the second colon and announces it. */
  lemma VersionReport(i: Info, line: string, v: string, name: string)
    requires Inner(line) == "VER:" + v + ":" + name && ':' !in v && ':' !in name
    ensures InfoStep(i, line) == InfoResult(i.(version := v, features := i.features + {Version}), [VersionUpdated])
  {
    var body := Inner(line);
    var payload := v + [':'] + name;
    assert body == "VER:" + payload;
    assert body[..4] == "VER:" && body[4..] == payload;
    StatusReport.DifferAt(body, "TLO:", 0);
    StatusReport.DifferAt(body, "PRB:", 0);
    StatusReport.DifferAt(body, "GC:", 0);
    SplitAtFirst(v, ':', name);
    SplitWithoutSeparator(name, ':');
  }

  /** A `VER:` response without exactly two colon-separated parts is ignored. */
  lemma VersionWrongArityIgnored(i: Info, line: string, payload: string)
    requires Inner(line) == "VER:" + payload && |Split(payload, ':')| != 2
    ensures InfoStep(i, line) == InfoResult(i, [])
  {
    var body := Inner(line);
    assert body[..4] == "VER:" && body[4..] == payload;
    StatusReport.DifferAt(body, "TLO:", 0);
    StatusReport.DifferAt(body, "PRB:", 0);
    StatusReport.DifferAt(body, "GC:", 0);
  }

  /**
   * `[OPT:letters,blocks,rx]` turns on variable spindle and laser mode for `V`,
   * mist coolant for `M`, and stores the two buffer sizes; any other arity is
   * ignored. Features are never turned off.
   */
  lemma OptionsReport(i: Info, line: string, payload: string)
    requires Inner(line) == "OPT:" + payload
    ensures var r := InfoStep(i, line);
      var vals := Split(payload, ',');
      && r.emitted == []
      && (|vals| == 3 ==>
            && r.info.features == i.features + OptionFeatures(vals[0])
            && (HasVariableSpindle in r.info.features <==> HasVariableSpindle in i.features || 'V' in vals[0])
            && (HasLaserMode in r.info.features <==> HasLaserMode in i.features || 'V' in vals[0])
            && (HasCoolantMist in r.info.features <==> HasCoolantMist in i.features || 'M' in vals[0])
            && r.info.blockBufferMax == ParseInt(vals[1]) && r.info.rxBufferMax == ParseInt(vals[2])
            && r.info == i.(features := r.info.features, blockBufferMax := r.info.blockBufferMax,
                            rxBufferMax := r.info.rxBufferMax))
      && (|vals| != 3 ==> r.info == i)
  {
    var body := Inner(line);
    assert body[..4] == "OPT:" && body[4..] == payload;
    StatusReport.DifferAt(body, "TLO:", 0);
    StatusReport.DifferAt(body, "PRB:", 0);
    StatusReport.DifferAt(body, "GC:", 0);
    StatusReport.DifferAt(body, "VER:", 0);
  }

  /** A response `G` followed by a digit is an offset entry. */
  lemma OffsetEntryDispatch(i: Info, line: string, rest: string)
    requires Inner(line) == "G" + rest && |rest| > 0 && IsDigit(rest[0])
    ensures InfoStep(i, line) == OffsetEntry(i, rest)
  {
    var body := Inner(line);
    assert body[..1] == "G" && body[1..] == rest && body[1] == rest[0];
    StatusReport.DifferAt(body, "TLO:", 0);
    StatusReport.DifferAt(body, "PRB:", 0);
    StatusReport.DifferAt(body, "GC:", 1);
    StatusReport.DifferAt(body, "VER:", 0);
    StatusReport.DifferAt(body, "OPT:", 0);
  }

  /** `[G<n>:x,y,z]` stores the offset under key n and leaves every other key alone. */
  lemma OffsetEntryStored(i: Info, line: string, n: nat, p: string, c: Coords)
    requires n <= MaxUInt32 && ':' !in p && StatusReport.ParseCoords(p) == Some(c)
    requires Inner(line) == "G" + Decimal(n) + ":" + p
    ensures var r := InfoStep(i, line);
      && r.emitted == []
      && r.info == i.(gxx := i.gxx[n := c], infos := i.infos + {HasGXX})
      && (forall k | k in i.gxx && k != n :: k in r.info.gxx && r.info.gxx[k] == i.gxx[k])
  {
    var d := Decimal(n);
    var rest := d + [':'] + p;
    assert Inner(line) == "G" + rest;
    assert IsDigit(d[0]) && rest[0] == d[0];
    OffsetEntryDispatch(i, line, rest);
    OffsetPayloadStored(i, n, p, c);
  }

  /** The payload `<n>:x,y,z` of an offset response stores the offset under n. */
  lemma OffsetPayloadStored(i: Info, n: nat, p: string, c: Coords)
    requires n <= MaxUInt32 && ':' !in p && StatusReport.ParseCoords(p) == Some(c)
    ensures OffsetEntry(i, Decimal(n) + [':'] + p) == InfoResult(i.(gxx := i.gxx[n := c], infos := i.infos + {HasGXX}), [])
  {
    var d := Decimal(n);
    assert ':' !in d;
    SplitAtFirst(d, ':', p);
    SplitWithoutSeparator(p, ':');
    ParseUIntDecimal(n);
    assert Split(d + [':'] + p, ':') == [d, p];
  }

  /** `[TLO:v]` stores the tool length offset. */
  lemma ToolOffsetReport(i: Info, line: string, v: string)
    requires Inner(line) == "TLO:" + v
    ensures InfoStep(i, line) == InfoResult(i.(tlo := ParseReal(v), infos := i.infos + {HasTLO}), [])
  {
    var body := Inner(line);
    assert body[..4] == "TLO:" && body[4..] == v;
  }

  /** `[PRB:x,y,z]` stores the probe position when the payload has three comma-separated parts, and is ignored otherwise. */
  lemma ProbeReport(i: Info, line: string, p: string)
    requires Inner(line) == "PRB:" + p
    ensures var r := InfoStep(i, line);
      && r.emitted == []
      && (StatusReport.ParseCoords(p).Some? ==>
            r.info == i.(prb := StatusReport.ParseCoords(p).value, infos := i.infos + {HasPRB}))
      && (StatusReport.ParseCoords(p).None? ==> r.info == i)
  {
    var body := Inner(line);
    assert body[..4] == "PRB:" && body[4..] == p;
    StatusReport.DifferAt(body, "TLO:", 0);
  }

  /** A response with none of the known prefixes changes nothing. */
  lemma UnrecognisedInfoIgnored(i: Info, line: string)
    requires |Inner(line)| == 0 || Inner(line)[0] !in {'T', 'P', 'G', 'V', 'O'}
    ensures InfoStep(i, line) == InfoResult(i, [])
  {
    var body := Inner(line);
    if |body| > 0 {
      StatusReport.DifferAt(body, "TLO:", 0);
      StatusReport.DifferAt(body, "PRB:", 0);
      StatusReport.DifferAt(body, "GC:", 0);
      StatusReport.DifferAt(body, "VER:", 0);
      StatusReport.DifferAt(body, "OPT:", 0);
      StatusReport.DifferAt(body, "G", 0);
    }
  }

  /**
   * No info response turns a feature off or clears a flag other than the two
   * mode flags; only `VER:` raises a notification.
   */
  lemma InfoOnlyAdds(i: Info, line: string)
    ensures var r := InfoStep(i, line);
      && i.features <= r.info.features
      && i.infos - {IsMilimeters, IsAbsolute} <= r.info.infos
      && (r.emitted == [] || r.emitted == [VersionUpdated])
  {
    var body := Inner(line);
    if !StartsWith(body, "TLO:") && !StartsWith(body, "PRB:") && StartsWith(body, "GC:") {
      GcModesLastWordWins(i.infos, Split(body[3..], ' '));
    }
  }
}
