# Grbl protocol state machine, modelled in Dafny

This project models the `Grbl` class of CNControl (`grbl.cpp`). That class is
the host side of the Grbl CNC controller's serial protocol. It has five parts:

- **Line dispatcher (`parse`).** Each received line is classified by prefix:
  banner `Grbl`, `ok`, `error:`, `ALARM:`, `[`, `<`, `>`, `$`.
- **Status parser (`parseStatus`).** It reads `<STATE|WPos:..|MPos:..|Bf:..|Ln:..|FS:..|F:..|Pn:..|WCO:..|Ov:..|A:..>`
  into the machine record, raising a notification when a value changes.
- **Information and settings parsers (`parseInfo`, `parseConfig`).** `[TLO:..]`,
  `[PRB:..]`, `[GC:..]`, `[VER:..]`, `[OPT:..]`, `[G<n>:..]`, `$k=v` and `$Nk=v`
  become flags, capabilities, offsets and the key→value settings map.
- **Command encoder (`ask`, `timeout`).** An abstract command becomes one realtime
  byte without a newline, or one line with a newline. Nothing is sent for an
  override sub-command that does not exist.
- **Configuration exchange (`openConfiguration`, `writeConfiguration`).** It is
  driven by `ok` acknowledgements through the `commandExecuted` signal. It reads
  the settings, then the starting blocks, hands them to a dialog, and writes them
  back one key per `ok`, in ascending key order.

The source is imperative, and so is the model. `grbl.dfy` holds the class `Grbl`:

- Its fields are the object's fields, plus the function-static locals `first`,
  `index` and `widget`.
- The outbound channel is an append-only `outbox`. The transport's success or
  failure for the n-th send is the oracle `answers(n)`.
- Notifications are an append-only `events` log.
- The live signal/slot connections of `commandExecuted` are a sequence of
  connections, each with its own identity. The class invariant `Valid` keeps
  every live identity below the one the next connection gets, so a slot
  disconnected and connected again during one emission is a new connection
  and is not run again by that emission.

Every method is proved to change the object exactly as a function on values
says. The functions live in `MachineModel` (whole record, commands, exchange),
`StatusReport`, `InfoReport`, `Configuration` and `Encoder`. The loops of the
source (the `|`-separated fields of a report, the words of `GC:`, the emission
of `commandExecuted`) are `while` loops whose invariants tie them to those
functions. The lemmas in `CommandProperties`, `ParseProperties`,
`ExchangeProperties`, `StatusReport`, `InfoReport` and `Configuration` then
state what the protocol promises.

Three behaviours of the code are worth noting, because the model keeps them
exactly as written:

- A failed send while writing the settings only disconnects the write slot
  (grbl.cpp:276-280). It does not set `flagAskStatus` again, so status polling
  stays off until some later exchange turns it back on.
  `ExchangeProperties.SendFailureStopsTheWrite` states this.
- The reading half of the exchange asks for the settings first (grbl.cpp:194).
  It asks for the starting blocks only on the following `ok` (grbl.cpp:207-211).
- A `$N` line's key is the first starting-block key plus the block index,
  computed in 32-bit unsigned arithmetic (grbl.cpp:1016-1018). A huge index
  therefore wraps around below that key, where it can land on a setting key.
  `Configuration.StartingBlockKeyWraps` states this.

## Model

| member | source | states |
|---|---|---|
| GrblMachine.Grbl.constructor | grbl.cpp:15-50 | A new machine is named GRBL, has the ask-status and name features, no flags or settings, no connections (so `Valid` holds), and has sent the build-information request once |
| GrblMachine.Grbl.Startup | grbl.cpp:42-43 | The start-up request changes the machine exactly as asking for the build information does |
| GrblMachine.Grbl.Parse | grbl.cpp:464-534 | The whole object after one received line is ParseSpec of the object before: the line is kept, then the first matching prefix decides the branch |
| GrblMachine.Grbl.OnBanner | grbl.cpp:470-491 | The banner branch changes the object exactly as BannerSpec says |
| GrblMachine.Grbl.Banner | grbl.cpp:470-491 | Name, version, flags, state, switches, actioners, outbox and notifications after a banner are BannerSpec's, field by field |
| GrblMachine.Grbl.Identify | grbl.cpp:472-483 | The name is the first space-separated word and the version the second (kept when absent); name and version are flagged, versionUpdated raised, state Unknown |
| GrblMachine.Grbl.RequestInfos | grbl.cpp:488-490 | The build-information command is asked for, then resetDone raised |
| GrblMachine.Grbl.OnAck | grbl.cpp:492-497 | An `ok` changes the object exactly as AckSpec says |
| GrblMachine.Grbl.Acknowledge | grbl.cpp:492-497 | has-error is cleared, commandExecuted raised and delivered to the live connections |
| GrblMachine.Grbl.OnError | grbl.cpp:498-506 | An `error:` line changes the object exactly as ErrorSpec says |
| GrblMachine.Grbl.ErrorLineReceived | grbl.cpp:498-506 | The code after the six-character prefix is stored and reported; nothing else changes |
| GrblMachine.Grbl.OnAlarm | grbl.cpp:507-513 | An `ALARM:` line changes the object exactly as AlarmSpec says |
| GrblMachine.Grbl.AlarmLineReceived | grbl.cpp:507-513 | The alarm code is stored, the state becomes Alarm, and the alarm is raised |
| GrblMachine.Grbl.OnInfo | grbl.cpp:514-518 | An information line changes the object exactly as InfoSpec says |
| GrblMachine.Grbl.InfoLineReceived | grbl.cpp:514-518 | The information fields are InfoStep's result, then infoUpdated is raised |
| GrblMachine.Grbl.OnStatus | grbl.cpp:519-523 | A status line changes the object exactly as ReportSpec says |
| GrblMachine.Grbl.StatusLineReceived | grbl.cpp:519-523 | The status fields are StatusStep's result, then statusUpdated is raised |
| GrblMachine.Grbl.OnSetting | grbl.cpp:528-532 | A `$` line changes the object exactly as SettingSpec says |
| GrblMachine.Grbl.SettingLineReceived | grbl.cpp:528-532 | The line is stored as StoreSetting says, then configUpdated is raised |
| GrblMachine.Grbl.Remember | grbl.cpp:466 | Only the last line received changes |
| GrblMachine.Grbl.ParseConfig | grbl.cpp:1008-1038 | settings and flags become StoreSetting's: `$Nk=v` under k plus the first starting-block key with 32-bit wrap-around, `$k=v` under k, anything else ignored |
| GrblMachine.Grbl.ParseInfo | grbl.cpp:537-665 | The information fields and notifications after `[...]` are InfoStep's, by the first matching tag |
| GrblMachine.Grbl.ToolLengthOffset | grbl.cpp:542-548 | `TLO:` stores the offset and sets its flag, as ToolOffsetEntry says |
| GrblMachine.Grbl.ProbeResult | grbl.cpp:549-563 | `PRB:` stores three coordinates or, with another arity, nothing, as ProbeEntry says |
| GrblMachine.Grbl.ParserState | grbl.cpp:564-582 | The loop over the `GC:` words leaves exactly the flags GcModes gives, then has-GC |
| GrblMachine.Grbl.BuildVersion | grbl.cpp:583-595 | `VER:` with two parts stores the version and raises versionUpdated, as VersionEntry says |
| GrblMachine.Grbl.BuildOptions | grbl.cpp:596-639 | `OPT:` with three parts sets the capabilities of its letters and the buffer sizes, as OptionsEntry says |
| GrblMachine.Grbl.CoordinateOffset | grbl.cpp:640-664 | `G<n>:x,y,z` stores one coordinate offset under n, as OffsetEntry says |
| GrblMachine.Grbl.ParseStatus | grbl.cpp:668-1006 | The status fields and the notifications raised by one report are exactly StatusStep's |
| GrblMachine.Grbl.ScanFields | grbl.cpp:733-990 | The loop over the fields leaves the object where the left fold Fields of the field steps says |
| GrblMachine.Grbl.BeginReport | grbl.cpp:674-731 | Flags masked and state token applied, as StartScan says |
| GrblMachine.Grbl.ReportStart | grbl.cpp:674-731 | Only has-working-offset and has-machine-coords survive, has-switches is set, and the state token is decoded as StateToken says |
| GrblMachine.Grbl.MaskFlags | grbl.cpp:674-678 | The flags are masked to the two kept across reports, plus has-switches |
| GrblMachine.Grbl.StateFromToken | grbl.cpp:688-731 | state, hold and door codes and the stateUpdated edge are StateToken's |
| GrblMachine.Grbl.ApplyField | grbl.cpp:733-989 | One field changes the object as FieldStep says, dispatched on the first matching tag |
| GrblMachine.Grbl.FinishReport | grbl.cpp:992-1005 | Switches are always re-published; actioners are replaced and announced only when armed and different; first is cleared |
| GrblMachine.Grbl.WorkingPosition | grbl.cpp:739-770 | `WPos:` changes positions, flags and notifications as WPosField says |
| GrblMachine.Grbl.MachinePosition | grbl.cpp:772-803 | `MPos:` changes positions, flags and notifications as MPosField says |
| GrblMachine.Grbl.BufferState | grbl.cpp:805-823 | `Bf:` changes buffers, flags and notifications as BfField says |
| GrblMachine.Grbl.LineNumberField | grbl.cpp:825-838 | `Ln:` changes the line number, flags and notifications as LnField says |
| GrblMachine.Grbl.Rates | grbl.cpp:840-859 | `FS:` changes the rates, flags and notifications as FSField says |
| GrblMachine.Grbl.FeedRateAlone | grbl.cpp:861-870 | `F:` changes the feed rate, flags and notifications as FField says |
| GrblMachine.Grbl.WorkingCoordinateOffset | grbl.cpp:894-931 | `WCO:` changes the offset, positions, flags and notifications as WcoField says |
| GrblMachine.Grbl.Overrides | grbl.cpp:933-947 | `Ov:` changes the overrides, actioners and flags as OvField says |
| GrblMachine.Grbl.ArmActioners | grbl.cpp:949-951 | `A:` sets has-actioners |
| GrblMachine.Grbl.Ask | grbl.cpp:291-456 | The object and the result after `ask` are AskSpec's |
| GrblMachine.Grbl.ForgetOnReset | grbl.cpp:298-305 | A reset clears switches, actioners and has-working-offset; other commands change nothing |
| GrblMachine.Grbl.SendCommand | grbl.cpp:455 | The frame is appended to the outbox with the transport's answer, which is returned |
| GrblMachine.Grbl.Timeout | grbl.cpp:458-462 | The timer tick changes the object as TimeoutSpec says |
| GrblMachine.Grbl.SetXWorkingZero | grbl.cpp:1040-1047 | The object after it is SetWorkingZeroSpec for X |
| GrblMachine.Grbl.SetYWorkingZero | grbl.cpp:1049-1056 | The object after it is SetWorkingZeroSpec for Y |
| GrblMachine.Grbl.SetZWorkingZero | grbl.cpp:1058-1065 | The object after it is SetWorkingZeroSpec for Z |
| GrblMachine.Grbl.SetWorkingZero | grbl.cpp:1040-1065 | outbox, working position and flags are SetWorkingZeroSpec's |
| GrblMachine.Grbl.EmitCommandExecuted | grbl.cpp:492-497 | The loop delivers commandExecuted to the connections live when it started, in order, skipping any removed meanwhile, as Deliver says |
| GrblMachine.Grbl.OpenConfiguration | grbl.cpp:171-234 | The exchange after `openConfiguration` is OpenSpec's |
| GrblMachine.Grbl.BeginOpening | grbl.cpp:184-204 | The first call is BeginOpen: widget kept, settings cleared, polling stopped, slot connected, settings asked for |
| GrblMachine.Grbl.EndOpening | grbl.cpp:214-232 | The last call is EndOpen: slot disconnected, polling resumed, accepted settings written |
| GrblMachine.Grbl.WriteConfiguration | grbl.cpp:236-288 | The exchange after `writeConfiguration` is WriteSpec's |
| GrblMachine.Grbl.BeginWriting | grbl.cpp:240-251 | A start rewinds the position, stops polling and connects the slot |
| GrblMachine.Grbl.WriteNextKey | grbl.cpp:253-287 | The recursive step agrees with WriteFrom on position, flags, connections and outbox |
| GrblMachine.Grbl.SendSetting | grbl.cpp:264-280 | One setting line is sent; a failed send disconnects the slot |
| GrblMachine.Grbl.EndWriting | grbl.cpp:283-287 | The slot is disconnected and polling resumed |
| GrblMachine.Grbl.ConnectSlot | grbl.cpp:192 | `connect` (here and at grbl.cpp:247) appends one connection of `commandExecuted` to the slot, with an identity that no live connection has; nothing else changes, and `Valid` is kept |
| GrblMachine.Grbl.DisconnectSlot | grbl.cpp:216 | `disconnect` (here and at grbl.cpp:278 and 284) removes every connection to the slot, keeps every other one, and leaves the slot unconnected; nothing else changes, and `Valid` is kept |
| MachineModel.Without | grbl.cpp:278 | disconnect removes every connection to the slot and keeps the others |
| MachineModel.Forget | grbl.cpp:298-305 | Only switches, actioners and flags can change before a command is sent |
| MachineModel.AskSpec | grbl.cpp:291-456 | `ask` changes only the reset-cleared fields and the outbox |
| MachineModel.SendKey | grbl.cpp:264-280 | Sending one setting changes only connections and outbox |
| MachineModel.EndWrite | grbl.cpp:283-287 | The end of a write changes only connections and flags |
| MachineModel.WriteFrom | grbl.cpp:253-287 | A write step changes only the position, the features, the connections and their counter, and the outbox; the settings, flags and state never change |
| MachineModel.DeliverExtend | grbl.cpp:496 | One more pending connection runs its slot exactly when it is still connected |
| CommandProperties.AskSendsUnlessEmpty | grbl.cpp:449-455 | `ask` sends exactly when the command exists: a missing override sub-command sends nothing and fails; otherwise one frame is appended and the transport's answer returned |
| CommandProperties.AskKeepsTheRest | grbl.cpp:291-456 | Apart from a reset, `ask` changes nothing but the outbox |
| CommandProperties.ResetForgets | grbl.cpp:298-305 | A reset clears switches, actioners and has-working-offset, and is sent as one realtime byte without a newline |
| CommandProperties.TimeoutPollsOnlyWhenAsked | grbl.cpp:458-462 | The timer sends the realtime status request when ask-status is set, and nothing otherwise |
| CommandProperties.WorkingZeroOnlyWhenDelivered | grbl.cpp:1040-1065 | The zero command is always sent; the axis is zeroed and the offset forgotten exactly when the transport took it; other axes never move |
| CommandProperties.SendsInOrder | grbl.cpp:455 | After several sends the outbox gains exactly those frames, in order, each with the transport's answer for its own position; the earlier outbox and every other field are kept |
| Encoder.Encode | grbl.cpp:296-453 | No command exactly when an override family is asked for a sub-command it lacks; otherwise one fixed command, followed by a newline exactly when it is a line command rather than a realtime byte |
| Dispatch.ClassifyByPrefix | grbl.cpp:470-533 | A line is of each kind exactly when it starts with that kind's prefix; the empty line is a kind of its own |
| ParseProperties.AlarmLineRaisesAlarm | grbl.cpp:507-513 | `ALARM:<n>` sets Alarm, records n, raises the alarm, and changes nothing else |
| ParseProperties.ErrorLineRecordsCode | grbl.cpp:498-506 | `error:<n>` records and raises n and leaves the state and everything else alone |
| ParseProperties.EchoLineOnlyRemembered | grbl.cpp:524-527 | A `>` line only becomes the last line |
| ParseProperties.UnknownLineOnlyRemembered | grbl.cpp:533 | A line with no known prefix only becomes the last line |
| ParseProperties.BannerIdentifiesMachine | grbl.cpp:470-491 | `<name> <version>`, alone or followed by more words, sets name and version from the first two words, state Unknown, sends the build-information request, raises versionUpdated then resetDone |
| ParseProperties.BareBannerKeepsVersion | grbl.cpp:472-478 | The corrected banner branch: a one-word banner names the machine and keeps the version known before |
| ParseProperties.BareBannerOutsideAsWritten | grbl.cpp:478 | The bare banner `Grbl` has fewer than two words, so the code as written reads past the end |
| ParseProperties.BannerAgreesWithAsWritten | grbl.cpp:472-478 | Wherever the code as written is defined, the corrected branch gives the same result |
| ParseProperties.DeliverKeepsStateAndFlags | grbl.cpp:492-497 | Delivering commandExecuted never changes the run state, the info flags or the transport |
| ParseProperties.AckClearsError | grbl.cpp:492-497 | `ok` clears has-error, keeps the state, raises commandExecuted; with no exchange running nothing else changes |
| ParseProperties.SettingLineStored | grbl.cpp:1024-1037 | A setting written as `$k=v` and echoed back is stored under k with value v and has-config, and configUpdated raised |
| ParseProperties.SettingEntryStored | grbl.cpp:1008-1038 | A `$` line that reads as an entry stores its value under its key with its flag, and configUpdated raised |
| ParseProperties.MalformedSettingOnlyAnnounced | grbl.cpp:528-532 | A `$` line that is not `key=value` only raises configUpdated |
| ParseProperties.StatusLineTouchesOnlyTheReport | grbl.cpp:519-523 | A status report sends nothing, changes no setting, code, identity or stored offset, and raises statusUpdated last |
| ParseProperties.InfoLineTouchesOnlyTheInfo | grbl.cpp:514-518 | An information line sends nothing, changes no position, setting or code, and raises infoUpdated last |
| ExchangeProperties.OpenRefusedOutsideIdleOrAlarm | grbl.cpp:178-183 | Outside Idle and Alarm, `openConfiguration` changes and sends nothing |
| ExchangeProperties.OpenFirstCall | grbl.cpp:184-204 | The first call clears the settings, stops polling, connects the reading slot and sends the view-settings line, keeping state and flags |
| ExchangeProperties.DeliverToOnlyConnection | grbl.cpp:492-497 | With one connection, commandExecuted runs exactly its slot |
| ExchangeProperties.StartingBlocksAskedOnNextOk | grbl.cpp:205-212 | The `ok` after the settings finds the starting blocks missing, asks for them and stays connected |
| ExchangeProperties.OpenLastCall | grbl.cpp:214-232 | The last call disconnects the reading slot for good. Without settings from the dialog, polling resumes and nothing is sent. With accepted settings, those settings replace the stored ones and the first key of the plan is sent, or polling resumes when the plan is empty |
| ExchangeProperties.WriteStartsAtOnce | grbl.cpp:240-262 | A started write sends the first key of the plan with polling stopped, or ends at once when the plan is empty |
| ExchangeProperties.WriteFromAtEnd | grbl.cpp:283-287 | Past the last key a step ends the write |
| ExchangeProperties.WriteFromSends | grbl.cpp:263-274 | A key other than a refused laser-mode key is sent |
| ExchangeProperties.WriteFromSkips | grbl.cpp:258-262 | A refused laser-mode key is passed over by a further step |
| ExchangeProperties.WriteFromLands | grbl.cpp:253-287 | Past any skipped laser-mode key, a step sends the next key or ends the write |
| ExchangeProperties.WriteStepSends | grbl.cpp:253-280 | A step that finds a key sends exactly `$k=v` for it, moves past it, and keeps the settings and flags; a failed send disconnects the slot |
| ExchangeProperties.WriteStepEnds | grbl.cpp:283-287 | A step that finds no key sends nothing, disconnects the slot, resumes polling, and the plan was empty |
| ExchangeProperties.LaserKeyNeverSentWithoutCapability | grbl.cpp:257-262 | Without the laser-mode capability, the key a step sends is never the laser-mode key |
| ExchangeProperties.RunStep | grbl.cpp:253-280 | With a transport that takes every line, each acknowledged step sends the head of the plan and leaves its tail |
| ExchangeProperties.RunKeeps | grbl.cpp:253-287 | Such a run keeps flags, connections and settings and uses up the plan |
| ExchangeProperties.RunSendsPlan | grbl.cpp:253-280 | Such a run sends exactly the plan's lines, in order |
| ExchangeProperties.WholeWrite | grbl.cpp:236-288 | A whole write sends every stored setting once in ascending key order (laser mode only with the capability), then disconnects and resumes polling |
| ExchangeProperties.SendFailureStopsTheWrite | grbl.cpp:276-280 | A failed send is recorded as not delivered, the write slot is disconnected, and polling stays off |
| ExchangeProperties.AckPerformsOneWriteStep | grbl.cpp:247 | While a write runs alone, each `ok` performs exactly one write step |
| Configuration.ConfigEntry | grbl.cpp:1008-1038 | A line read as an entry starts with `$`, has a value free of `=`, a 32-bit key, and the starting-block flag exactly for `$N` |
| Configuration.StartingBlockEntry | grbl.cpp:1010-1023 | A `$N` entry has a 32-bit key and the starting-block flag |
| Configuration.SettingEntry | grbl.cpp:1024-1037 | A `$` entry has a 32-bit key and the has-config flag |
| Configuration.SettingRoundTrip | grbl.cpp:266-274 | A setting written out as `$k=v` reads back as key k, value v, has-config |
| Configuration.StartingBlockRoundTrip | grbl.cpp:268-271 | A starting block written out as `$Nk=v` reads back under the same key with the starting-block flag |
| Configuration.ConfigCommandShape | grbl.cpp:264-274 | The line sent for a key is `$`, a key part without `=`, `=`, then the value unchanged; the key part starts with `N` exactly for the two starting-block keys |
| Configuration.SettingLineReproduced | grbl.cpp:1024-1037 | A canonical `$k=v` line is stored under k and written back byte for byte |
| Configuration.StartingBlockLineReproduced | grbl.cpp:1010-1023 | `$N0=v` and `$N1=v` are stored under the starting-block keys and written back byte for byte |
| Configuration.MalformedSettingIgnored | grbl.cpp:1024-1037 | A `$` payload that is not exactly two `=`-parts is ignored |
| Configuration.StartingBlockKeyWraps | grbl.cpp:1016-1018 | A starting-block index near 2^32 wraps below the starting-block keys |
| Configuration.SortedKeys | grbl.cpp:255 | The keys are listed once each and only stored keys are listed |
| Configuration.SortedKeysOrdered | grbl.cpp:255 | The keys are listed in ascending order and every stored key is listed |
| Configuration.NextWrite | grbl.cpp:253-262 | The next key to send is at or after the position |
| Configuration.NextWriteSkipsOnlyLaser | grbl.cpp:257-262 | Only a refused laser-mode key is passed over, at most one of them, and the key found is never a refused one |
| Configuration.PlanStep | grbl.cpp:253-262 | One step sends the head of the plan and leaves its tail; at the end the plan is empty |
| Configuration.PlanContents | grbl.cpp:253-262 | The plan from a position holds exactly the keys from there on, laser mode only with the capability, ascending |
| Configuration.WholePlan | grbl.cpp:253-288 | From the start, the plan is every stored key once, ascending, laser mode only with the capability |
| InfoReport.GcModesLastWordWins | grbl.cpp:569-579 | After the `GC:` words, millimetres is set iff the last units word is G21 (or none and it was set), and the distance flag likewise for G91; other flags are untouched |
| InfoReport.MillimetresIncrementalFlags | grbl.cpp:572-576 | `G21 G91` sets both millimetres and the flag named absolute |
| InfoReport.ParserStateReport | grbl.cpp:564-582 | A `[GC:...]` line changes only the flags: the two mode flags as above, plus has-GC |
| InfoReport.VersionReport | grbl.cpp:583-595 | `[VER:v:name]` stores v, flags the version and raises versionUpdated |
| InfoReport.VersionWrongArityIgnored | grbl.cpp:586-595 | A `VER:` payload without exactly two parts changes nothing |
| InfoReport.OptionsReport | grbl.cpp:596-639 | With three parts, `V` gives variable spindle and laser mode, `M` gives mist, and the buffer sizes are stored; with another arity nothing changes |
| InfoReport.OffsetEntryDispatch | grbl.cpp:640-642 | A body `G` followed by a digit is handled as a coordinate offset |
| InfoReport.OffsetEntryStored | grbl.cpp:640-664 | `[G<n>:x,y,z]` stores the offset under n, flags has-GXX, and leaves every other key alone |
| InfoReport.OffsetPayloadStored | grbl.cpp:644-660 | The payload `<n>:x,y,z` stores the offset under n |
| InfoReport.ToolOffsetReport | grbl.cpp:542-548 | `[TLO:v]` stores the offset and flags it |
| InfoReport.ProbeReport | grbl.cpp:549-563 | `[PRB:...]` stores the probe position with three parts and changes nothing otherwise |
| InfoReport.UnrecognisedInfoIgnored | grbl.cpp:537-665 | A body that starts with none of T, P, G, V, O changes nothing and raises nothing |
| InfoReport.InfoOnlyAdds | grbl.cpp:537-665 | An information line only adds capabilities and flags (apart from the two mode flags) and raises at most versionUpdated |
| StatusReport.StatusBlocks | grbl.cpp:681-685 | A report always has a state token |
| StatusReport.TagOf | grbl.cpp:739-989 | The tag chosen is one the field starts with |
| StatusReport.WPosField | grbl.cpp:739-770 | `WPos:` changes only the positions and flags of the record |
| StatusReport.MPosField | grbl.cpp:772-803 | `MPos:` changes only the positions and flags |
| StatusReport.BfField | grbl.cpp:805-823 | `Bf:` changes only the buffers and flags |
| StatusReport.LnField | grbl.cpp:825-838 | `Ln:` changes only the line number and flags |
| StatusReport.FSField | grbl.cpp:840-859 | `FS:` changes only the rates and flags |
| StatusReport.FField | grbl.cpp:861-870 | `F:` changes only the feed rate and flags |
| StatusReport.WcoField | grbl.cpp:894-931 | `WCO:` changes only the offset, positions and flags |
| StatusReport.OvField | grbl.cpp:933-947 | `Ov:` changes only overrides, actioners and flags, and raises nothing |
| StatusReport.Finish | grbl.cpp:992-1005 | The end of a report changes only switches, actioners and first |
| StatusReport.TokenEdge | grbl.cpp:689-731 | stateUpdated is raised exactly when the state or the hold sub-code changes |
| StatusReport.UnknownTokenKeepsState | grbl.cpp:689-731 | A token outside the lexicon changes nothing and raises nothing |
| StatusReport.PlainTokensSelectTheirState | grbl.cpp:691-724 | Each plain state name selects its state |
| StatusReport.HoldTokenRecordsCode | grbl.cpp:693-707 | `Hold:<n>` selects Hold and records n |
| StatusReport.DoorSubCodeRaisesNoEdge | grbl.cpp:717-722 | A changed `Door:` sub-code is recorded but raises no edge |
| StatusReport.TokenIdempotent | grbl.cpp:689-731 | The same token a second time raises no edge |
| StatusReport.TagOfTagged | grbl.cpp:739-989 | A field written as tag and payload is dispatched on that tag with that payload |
| StatusReport.FieldStepKeeps | grbl.cpp:733-990 | No field changes the state, the sub-codes or first, or removes a notification or a flag. Only report flags are added, and only field notifications raised |
| StatusReport.WPosDerivesMachine | grbl.cpp:739-770 | After `WPos:` with a known offset, machine = working + offset; without one the machine position is untouched. coordinatesUpdated is raised exactly on the first report or when the working or the derived machine position changes |
| StatusReport.MPosDerivesWorking | grbl.cpp:772-803 | After `MPos:` with a known offset, working = machine - offset. Without one the working position is untouched. The change test compares the new machine position with the old working position |
| StatusReport.MPosWithoutOffsetAnnouncesForever | grbl.cpp:783 | Without an offset, an `MPos:` that differs from the working position is announced on every report |
| StatusReport.MalformedPositionSkipped | grbl.cpp:739-803 | A position field with the wrong arity is skipped |
| StatusReport.OffsetFillsMissingPosition | grbl.cpp:894-931 | `WCO:` stores the offset and fills in whichever position this report has not given, announcing on a change or a fill |
| StatusReport.MalformedOffsetStillMarksKnown | grbl.cpp:894-899 | A malformed `WCO:` still sets has-working-offset and changes nothing else |
| StatusReport.BufferFieldGated | grbl.cpp:805-823 | `Bf:` raises buffersUpdated iff one of its integers differs; a wrong arity skips it |
| StatusReport.LineNumberFieldGated | grbl.cpp:825-838 | `Ln:` raises lineNumberUpdated iff the number differs; a wrong arity skips it |
| StatusReport.RatesFieldGated | grbl.cpp:840-859 | `FS:` raises ratesUpdated iff the feed or the speed differs; a wrong arity skips it |
| StatusReport.FieldsAppend | grbl.cpp:733-990 | Reading fields a then b is reading a + b |
| StatusReport.FieldsKeep | grbl.cpp:733-990 | What every field keeps, across any number of fields |
| StatusReport.StatusStepEvents | grbl.cpp:726-1005 | A report raises, in order: the state edge, the fields' notifications, switchesUpdated, then possibly actionersUpdated |
| StatusReport.StateEdgeExactlyOnChange | grbl.cpp:689-731 | A report raises stateUpdated exactly when its state or hold sub-code changes |
| StatusReport.HoldSubCodeChangeIsAnEdge | grbl.cpp:700-704 | `Hold:0` then `Hold:1` raises stateUpdated on the second report |
| StatusReport.RepeatedTokenIsQuiet | grbl.cpp:689-731 | A repeated state token raises no stateUpdated |
| StatusReport.UnknownReportKeepsState | grbl.cpp:689-731 | A report without a state name keeps the state and raises no edge |
| StatusReport.FieldsCollectPins | grbl.cpp:872-892 | The collected switches are the union of the `Pn:` letters |
| StatusReport.NoPinsWithoutPinFields | grbl.cpp:872-892 | Without `Pn:` no switch is collected |
| StatusReport.SwitchesRebuiltEachReport | grbl.cpp:992-997 | Every report rebuilds the switches from its own `Pn:` fields alone (none without one) and always raises switchesUpdated |
| StatusReport.ProbeLimitDoorPins | grbl.cpp:872-892 | `Pn:PXD` reads as probe, X limit and door |
| StatusReport.FieldsKeepActioners | grbl.cpp:933-989 | Fields other than `Ov:` and `A:` leave the actioners and has-actioners alone |
| StatusReport.ActionersNeedOverrideOrActionField | grbl.cpp:999-1003 | Without `Ov:` or `A:`, actioners neither change nor are announced |
| StatusReport.OverrideReportClearsActionersSilently | grbl.cpp:944-946 | A report with `Ov:` and no `A:` clears the actioners without announcing it |
| StatusReport.OverrideReportRepublishesActioners | grbl.cpp:933-1003 | `Ov:` followed by an `A:` with the same actioners announces them again |
| StatusReport.OverrideThenActions | grbl.cpp:933-1003 | The same, for the two fields and the end of the report |
| StatusReport.FieldStepOverride | grbl.cpp:933-947 | A well-formed `Ov:` clears the actioners, arms them, and raises nothing |
| StatusReport.FieldStepAction | grbl.cpp:949-988 | `A:` arms the actioners and collects its letters |
| StatusReport.ReportForgetsOtherFlags | grbl.cpp:674 | After a report only report flags remain |
| StatusReport.FirstReportAnnouncesCoordinates | grbl.cpp:750 | On the very first report, any well-formed position field announces the coordinates |
| StatusReport.FirstFieldsAnnounce | grbl.cpp:733-803 | The same over the fields of a report |
| StatusReport.FirstPositionAnnounces | grbl.cpp:739-803 | A well-formed position field read while first is set announces the coordinates |
| StatusReport.FieldEventReachesEnd | grbl.cpp:992-1005 | A notification raised by a field is among the report's notifications |
| StatusReport.PositionAndRatesReport | grbl.cpp:739-859 | A `<..|WPos:..|FS:..>` report stores position and rates, derives the machine position with a known offset, and announces each group exactly when it changed (coordinates also on the first report) |
| StatusReport.PositionThenRates | grbl.cpp:739-859 | The same for the two fields and the end of the report |
| StatusReport.FinishEvents | grbl.cpp:992-1005 | The end of a report neither adds nor drops coordinatesUpdated or ratesUpdated |
| StatusReport.RepeatedReportIsQuiet | grbl.cpp:668-1006 | The same position-and-rates report twice raises only switchesUpdated the second time, among state, coordinates and rates |
| Text.Split | grbl.cpp:472 | Splitting gives at least one piece, and no piece holds the separator |
| Text.SplitJoin | grbl.cpp:472 | Joining the pieces with the separator gives the text back |
| Text.SplitWithoutSeparator | grbl.cpp:472 | Text without the separator splits to itself |
| Text.SplitAtFirst | grbl.cpp:472 | The first piece is the text before the first separator, and the rest splits on its own |
| Text.Inner | grbl.cpp:539-540 | Dropping the first and the last character, or empty for shorter text |
| Text.DecimalValue | grbl.cpp:273 | The number printed reads back as the same value, with no leading zero |
| Text.CanonicalDecimalRoundTrip | grbl.cpp:1030 | Decimal text without leading zeros is what printing its value gives |
| Text.ParseUIntDecimal | grbl.cpp:1030 | toUInt reads back what is printed, for every 32-bit value |

## Left out

- The message catalogs read from CSV files (grbl.cpp:74-168), the JSON export
  (grbl.cpp:58-72) and `qDebug` logging: file I/O and formatting, with no
  protocol state.
- Qt timer scheduling (grbl.cpp:46-47): `timeout` is modelled as a method that
  the host calls; the 200 ms period is not modelled.
- The transport `sendCommand` and the `Port` class: a send is an outbox append.
  The transport's success or failure is the `answers` oracle, fixed per send
  position.
- Qt signal/slot plumbing is reduced to what the protocol uses. The connections
  of `commandExecuted` to `openConfiguration` and `writeConfiguration` are a
  sequence of connections with identities. Notifications are an event log,
  and listeners outside this class are not modelled. The `lineAvailable`
  connection (grbl.cpp:40) is the caller invoking `Parse`.
- The configuration dialog (grbl.cpp:221-231) and the message box
  (grbl.cpp:181) are not modelled. The dialog's outcome is an input:
  cancelled, accepted but unreadable, or accepted with a settings map that
  replaces the stored settings. `grblConfig.exec()` (grbl.cpp:225) runs a
  nested event loop; timer ticks and parsed lines handled while the dialog is
  open are not interleaved in the model, where the end of the read is one
  atomic step.
- The function-static locals `first` (grbl.cpp:670), `index` (grbl.cpp:238)
  and `widget` (grbl.cpp:173) are shared by every `Grbl` object in C++. The
  model gives each object its own copy; with a single machine object the two
  agree.
- The static `waitMessage` box and the static `timeoutTries` counter
  (grbl.cpp:174-176, 188, 215) are not modelled. The box is never created, and
  the counter is written but never read.
- Floating point: coordinates and the tool offset are exact `real` values, so
  `!=` between positions is exact comparison.
- Text.ParseReal: `toDouble` reads only plain decimal text (optional sign,
  digits, at most one decimal point, no exponent) and gives 0 otherwise.
- Text.ParseInt: `toInt` and `toUInt` read an optional sign and digits in the
  32-bit range and give 0 otherwise. Surrounding whitespace is not trimmed.
- Text.ContainsFolded: folds ASCII letters only. Qt's case-insensitive
  `contains` folds Unicode case too, so for example `ſ` (U+017F) matches `S`
  there and not in the model.
- grbl.h is not part of this model. It holds the byte values of the `CMD_*`
  command macros and the numbering of the sub-command enumerators, modelled
  as distinct enumerators and chosen distinct integers. A command code that
  matches no case of `ask` leaves the command empty and makes `ask` return
  false (grbl.cpp:449-453); `CommandType` has no value for such a code, so
  that path is reachable in the model only through a missing override
  sub-command.
- grbl.h also holds the values of the starting-block setting keys. The model
  uses 1000 and 1001, above every Grbl setting number.
- machine.cpp (the `Machine` base class) is not part of this model. Its flag
  helpers are set operations, and `sendCommand` is the outbox append
  described above. The laser-mode
  key is 32, as the comment at grbl.cpp:257 says.
- MachineModel.Fresh: the `Machine` base-class constructor is not modelled, so
  the fields grbl.cpp:15-50 leaves to it take chosen initial values: state
  Unknown; no info flags, switches, actioners, settings, offsets, connections,
  sends or notifications; feed, rapid and spindle overrides 100; hold, door,
  error and alarm codes, both buffers, both buffer sizes, the line number,
  the feed rate and the spindle speed 0; every coordinate the origin and the
  tool offset 0; version and last line empty; `first` set. With these values a
  first report of `Bf:0,0`, `Ln:0` or `FS:0,0` raises no notification.
- The laser-mode test at grbl.cpp:258 passes the enumerator
  `InfoFlags::flagHasLaserMode` to `hasFeature`, which tests the `features`
  set; which bit that is depends on enumerator values in grbl.h. The model
  takes it to be the laser-mode capability that grbl.cpp:606 sets. The members
  that rest on this reading are GrblMachine.Grbl.WriteNextKey,
  MachineModel.WriteFrom, ExchangeProperties.WriteFromSends,
  ExchangeProperties.WriteFromSkips, ExchangeProperties.WriteFromLands,
  ExchangeProperties.LaserKeyNeverSentWithoutCapability,
  ExchangeProperties.WholeWrite, Configuration.NextWrite,
  Configuration.NextWriteSkipsOnlyLaser, Configuration.PlanContents and
  Configuration.WholePlan.
- mainwindow.h and main.cpp: GUI and application start-up, with no protocol
  logic.
- The catalog lookup of the error message (grbl.cpp:502-504) only feeds
  logging and is not modelled.

## Findings

| source | as written | input that shows it | evidently intended | confidence | as-written member | corrected member |
|---|---|---|---|---|---|---|
| grbl.cpp:472-478 | The banner branch reads the second space-separated word without checking that it exists | The bare banner line `Grbl` splits into one word, so `blocks.at(1)` reads past the end | A banner without a version names the machine and keeps the version known before | not executed | MachineModel.BannerAsWritten, ParseProperties.BareBannerOutsideAsWritten | MachineModel.BannerSpec, ParseProperties.BareBannerKeepsVersion |
