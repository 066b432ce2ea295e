/**
 * The configuration exchange driven by acknowledgements: `openConfiguration`
 * asks for the settings, then for the starting blocks on the next `ok`, then
 * hands over to `writeConfiguration`, which sends one stored setting per `ok`
 * in ascending key order until the keys run out or a send fails.
 */
module ExchangeProperties {
  import opened Text
  import opened Protocol
  import opened Encoder
  import opened Configuration
  import opened MachineModel
  import opened Dispatch
  import ParseProperties

  // ---------------------------------------------------------------------------
  // Reading the settings

  /**
   * The first call: outside Idle and Alarm nothing happens; otherwise the
   * settings are cleared, the status poll stopped, the slot connected and
   * the settings asked for with one line.
   */
  lemma OpenFirstCall(x: Exchange, parent: nat, editor: EditorOutcome)
    ensures x.state != Idle && x.state != Alarm ==> OpenSpec(x, Some(parent), editor) == x
    ensures x.state == Idle || x.state == Alarm ==>
      var r := OpenSpec(x, Some(parent), editor);
      && r.widget == Some(parent) && r.config == map[] && AskStatus !in r.features
      && r.connections == x.connections + [Connection(x.nextConnection, OpenSlot)]
      && r.outbox == x.outbox + [Sent(Line(CmdConfig), x.answers(|x.outbox|))]
      && r.state == x.state && r.infos == x.infos && r.index == x.index
  {
  }

  /** Outside Idle and Alarm no call of `openConfiguration` changes anything or sends anything. */
  lemma OpenRefusedOutsideIdleOrAlarm(x: Exchange, parent: Option<nat>, editor: EditorOutcome)
    requires x.state != Idle && x.state != Alarm
    ensures OpenSpec(x, parent, editor) == x
  {
  }

  /** An acknowledgement line is handled by the acknowledgement branch alone. */
  lemma AckLineIsAck(m: MachineState, line: string, editor: EditorOutcome)
    requires StartsWith(line, "ok")
    ensures ParseSpec(m, line, editor) == AckSpec(m.(lastLine := line), editor)
  {
    ClassifyByPrefix(line);
  }

  /** With a single connection, commandExecuted runs exactly its slot. */
  lemma DeliverToOnlyConnection(x: Exchange, c: Connection, editor: EditorOutcome)
    requires x.connections == [c]
    ensures Deliver(x, [c], editor) == Invoke(x, c.slot, editor)
  {
    assert [c][..0] == [];
  }

  /**
   * The settings are asked for first; the `ok` that ends them finds the
   * starting blocks missing and asks for them, and the exchange stays
   * connected for the `ok` after that.
   */
  lemma StartingBlocksAskedOnNextOk(m: MachineState, parent: nat, first: EditorOutcome, line: string, editor: EditorOutcome)
    requires m.ex.state == Idle || m.ex.state == Alarm
    requires m.ex.connections == [] && HasStartingBlocks !in m.ex.infos
    requires StartsWith(line, "ok")
    ensures var m1 := m.(ex := OpenSpec(m.ex, Some(parent), first));
      var r := ParseSpec(m1, line, editor);
      && r.ex.outbox == m1.ex.outbox + [Sent(Line(CmdStartBlock), m1.ex.answers(|m1.ex.outbox|))]
      && r.ex.connections == m1.ex.connections
      && Connected(r.ex.connections, OpenSlot)
  {
    var m1 := m.(ex := OpenSpec(m.ex, Some(parent), first));
    AckLineIsAck(m1, line, editor);
    var x := m1.ex.(infos := m1.ex.infos - {HasError});
    var c := Connection(m.ex.nextConnection, OpenSlot);
    assert x.connections == [c];
    DeliverToOnlyConnection(x, c, editor);
    assert x.connections[0].slot == OpenSlot;
  }

  /** A new connection to another slot does not connect `s`. */
  lemma NotConnectedAppend(cs: seq<Connection>, s: Slot, c: Connection)
    requires !Connected(cs, s) && c.slot != s
    ensures !Connected(cs + [c], s)
  {
    forall i | 0 <= i < |cs + [c]|
      ensures (cs + [c])[i].slot != s
    {
      if i < |cs| {
        assert (cs + [c])[i] == cs[i];
      }
    }
  }

  /**
   * The call with everything read: the reading slot is disconnected for good
   * and the run state and flags are kept. A dialog without settings resumes
   * the status poll and sends nothing. Accepted settings replace the stored
   * ones and their write starts at once: with nothing to write the poll
   * resumes, otherwise the poll stays stopped and the first key of the plan
   * is sent.
   */
  lemma OpenLastCall(x: Exchange, editor: EditorOutcome)
    requires x.state == Idle || x.state == Alarm
    requires HasStartingBlocks in x.infos
    ensures var r := OpenSpec(x, None, editor);
      && !Connected(r.connections, OpenSlot)
      && r.state == x.state && r.infos == x.infos
      && (!editor.Accepted? ==> r.outbox == x.outbox && AskStatus in r.features && r.config == x.config)
      && (editor.Accepted? ==>
            var p := Plan(SortedKeys(editor.settings.Keys), 0, HasLaserMode in x.features);
            && r.config == editor.settings
            && (p == [] ==> r.outbox == x.outbox && AskStatus in r.features)
            && (p != [] ==>
                  && p[0] in editor.settings && AskStatus !in r.features
                  && r.outbox == x.outbox + [Sent(TextLine(ConfigCommand(p[0], editor.settings[p[0]])), x.answers(|x.outbox|))]))
  {
    var x1 := Disconnect(x, OpenSlot);
    if editor.Accepted? {
      var z := x1.(features := x1.features + {AskStatus}, config := editor.settings);
      assert OpenSpec(x, None, editor) == WriteFrom(BeginWrite(z));
      assert HasLaserMode in z.features <==> HasLaserMode in x.features;
      WriteStartsAtOnce(z);
    }
  }

  /**
   * A write started with the reading slot disconnected keeps it disconnected
   * and keeps the run state and flags; with nothing to write the poll resumes
   * at once, otherwise the first key of the plan is sent with the poll
   * stopped.
   */
  lemma WriteStartsAtOnce(z: Exchange)
    requires !Connected(z.connections, OpenSlot)
    ensures var r := WriteFrom(BeginWrite(z));
      var p := Plan(Keys(z), 0, HasLaserMode in z.features);
      && !Connected(r.connections, OpenSlot)
      && r.config == z.config && r.state == z.state && r.infos == z.infos
      && (p == [] ==> r.outbox == z.outbox && AskStatus in r.features)
      && (p != [] ==>
            && p[0] in z.config && AskStatus !in r.features
            && r.outbox == z.outbox + [Sent(TextLine(ConfigCommand(p[0], z.config[p[0]])), z.answers(|z.outbox|))])
  {
    var y := BeginWrite(z);
    assert Keys(y) == Keys(z);
    NotConnectedAppend(z.connections, OpenSlot, Connection(z.nextConnection, WriteSlot));
    var keys := Keys(y);
    var laser := HasLaserMode in z.features;
    PlanStep(keys, 0, laser);
    if NextWrite(keys, 0, laser) < |keys| {
      WriteStepSends(y);
    } else {
      WriteStepEnds(y);
    }
    NotConnectedWithout(y.connections, OpenSlot, WriteSlot);
  }

  /** Removing connections never connects a slot. */
  lemma NotConnectedWithout(cs: seq<Connection>, s: Slot, t: Slot)
    requires !Connected(cs, s)
    ensures !Connected(Without(cs, t), s)
  {
  }

  // ---------------------------------------------------------------------------
  // Writing the settings

  /** Past the last key a step ends the write. */
  lemma WriteFromAtEnd(x: Exchange)
    requires x.index >= |Keys(x)|
    ensures WriteFrom(x) == EndWrite(x)
  {
  }

  /** A key other than a refused laser-mode key is sent. */
  lemma WriteFromSends(x: Exchange)
    requires x.index < |Keys(x)|
    requires Keys(x)[x.index] != LaserModeKey || HasLaserMode in x.features
    ensures Keys(x)[x.index] in x.config
    ensures WriteFrom(x) == SendKey(x.(index := x.index + 1), Keys(x)[x.index])
  {
  }

  /** A refused laser-mode key is passed over. */
  lemma WriteFromSkips(x: Exchange)
    requires x.index < |Keys(x)|
    requires Keys(x)[x.index] == LaserModeKey && HasLaserMode !in x.features
    ensures WriteFrom(x) == WriteFrom(x.(index := x.index + 1))
  {
    var x1 := x.(index := x.index + 1);
    assert HasLaserMode !in x1.features;
  }

  /** Where a step lands: past a skipped laser-mode key, either the send of the key there or the end. */
  lemma {:induction false} WriteFromLands(x: Exchange)
    ensures var keys := Keys(x);
      var j := NextWrite(keys, x.index, HasLaserMode in x.features);
      && (j < |keys| ==> keys[j] in x.config && WriteFrom(x) == SendKey(x.(index := j + 1), keys[j]))
      && (j >= |keys| ==> WriteFrom(x) == EndWrite(x.(index := j)))
    decreases |x.config| - x.index
  {
    var keys := Keys(x);
    var laser := HasLaserMode in x.features;
    if x.index >= |keys| {
      WriteFromAtEnd(x);
      assert x.(index := x.index) == x;
    } else if keys[x.index] == LaserModeKey && !laser {
      var x1 := x.(index := x.index + 1);
      WriteFromSkips(x);
      assert Keys(x1) == keys;
      assert NextWrite(keys, x.index, laser) == NextWrite(keys, x1.index, laser);
      WriteFromLands(x1);
      var j := NextWrite(keys, x.index, laser);
      assert x1.(index := j + 1) == x.(index := j + 1);
      assert x1.(index := j) == x.(index := j);
    } else {
      WriteFromSends(x);
    }
  }

  /**
   * A step that finds a key: the key there (past a skipped laser-mode key) is
   * sent as `$k=v` (or `$Nk=v`) and the position moves past it; by PlanStep
   * that key is the head of the remaining plan. A send that fails
   * disconnects the slot. The flags and the settings are kept.
   */
  lemma WriteStepSends(x: Exchange)
    requires NextWrite(Keys(x), x.index, HasLaserMode in x.features) < |Keys(x)|
    ensures var keys := Keys(x);
      var j := NextWrite(keys, x.index, HasLaserMode in x.features);
      var r := WriteFrom(x);
      var ok := x.answers(|x.outbox|);
      && keys[j] in x.config
      && r == x.(index := j + 1, connections := r.connections, outbox := r.outbox)
      && r.outbox == x.outbox + [Sent(TextLine(ConfigCommand(keys[j], x.config[keys[j]])), ok)]
      && r.connections == (if ok then x.connections else Without(x.connections, WriteSlot))
  {
    var keys := Keys(x);
    var j := NextWrite(keys, x.index, HasLaserMode in x.features);
    WriteFromLandsOnKey(x);
    SentStep(x, j, keys[j], WriteFrom(x));
  }

  /** A step that finds a key sends that key, as SendKey says. */
  lemma WriteFromLandsOnKey(x: Exchange)
    requires NextWrite(Keys(x), x.index, HasLaserMode in x.features) < |Keys(x)|
    ensures var keys := Keys(x);
      var j := NextWrite(keys, x.index, HasLaserMode in x.features);
      keys[j] in x.config && WriteFrom(x) == SendKey(x.(index := j + 1), keys[j])
  {
    WriteFromLands(x);
  }

  /** What sending one key past position j leaves, for any result r of it. */
  lemma SentStep(x: Exchange, j: nat, key: nat, r: Exchange)
    requires key in x.config && r == SendKey(x.(index := j + 1), key)
    ensures var ok := x.answers(|x.outbox|);
      && r == x.(index := j + 1, connections := r.connections, outbox := r.outbox)
      && r.outbox == x.outbox + [Sent(TextLine(ConfigCommand(key, x.config[key])), ok)]
      && r.connections == (if ok then x.connections else Without(x.connections, WriteSlot))
  {
  }

  /**
   * A step that finds no key left: nothing is sent, the slot is disconnected,
   * the status poll resumed, and the plan was empty.
   */
  lemma WriteStepEnds(x: Exchange)
    requires NextWrite(Keys(x), x.index, HasLaserMode in x.features) >= |Keys(x)|
    ensures var keys := Keys(x);
      var laser := HasLaserMode in x.features;
      var r := WriteFrom(x);
      && r.outbox == x.outbox
      && r.features == x.features + {AskStatus}
      && r.connections == Without(x.connections, WriteSlot)
      && r.config == x.config
      && Plan(keys, x.index, laser) == []
  {
    WriteFromLands(x);
    PlanStep(Keys(x), x.index, HasLaserMode in x.features);
  }

  /** The laser-mode key is never sent to a device without the capability. */
  lemma LaserKeyNeverSentWithoutCapability(x: Exchange)
    requires HasLaserMode !in x.features
    ensures var keys := Keys(x);
      var j := NextWrite(keys, x.index, false);
      j < |keys| ==>
        && keys[j] != LaserModeKey
        && WriteFrom(x).outbox == x.outbox + [Sent(TextLine(ConfigCommand(keys[j], x.config[keys[j]])), x.answers(|x.outbox|))]
  {
    var keys := Keys(x);
    SortedKeysOrdered(x.config.Keys);
    NextWriteSkipsOnlyLaser(keys, x.index, false);
    if NextWrite(keys, x.index, false) < |keys| {
      WriteStepSends(x);
    }
  }

  /** The lines that sending the keys `keys` in order appends, each taken by the transport. */
  function SettingFrames(config: map<nat, string>, keys: seq<nat>): (r: seq<Sent>)
    requires forall k | k in keys :: k in config
    ensures |r| == |keys|
  {
    if keys == [] then []
    else [Sent(TextLine(ConfigCommand(keys[0], config[keys[0]])), true)] + SettingFrames(config, keys[1..])
  }

  /** A run of write steps, one per acknowledgement: each exchange is the step applied to the one before. */
  ghost predicate IsWriteRun(run: seq<Exchange>) {
    forall i {:trigger WriteFrom(run[i])} | 0 <= i < |run| - 1 :: run[i + 1] == WriteFrom(run[i])
  }

  lemma RunTail(run: seq<Exchange>)
    requires |run| >= 1 && IsWriteRun(run)
    ensures IsWriteRun(run[1..])
  {
    var tail := run[1..];
    forall i | 0 <= i < |tail| - 1
      ensures tail[i + 1] == WriteFrom(tail[i])
    {
      assert tail[i + 1] == run[i + 2] && tail[i] == run[i + 1];
    }
  }

  /**
   * A step of a run whose plan is not empty sends, with a transport that
   * takes every line, the head of the plan; the next exchange starts the
   * same run on the rest of the plan.
   */
  lemma RunStep(run: seq<Exchange>)
    requires |run| >= 2 && IsWriteRun(run)
    requires forall k :: run[0].answers(k)
    requires |run| == |Plan(Keys(run[0]), run[0].index, HasLaserMode in run[0].features)| + 1
    ensures var x := run[0];
      var x1 := run[1];
      var keys := Keys(x);
      var laser := HasLaserMode in x.features;
      var p := Plan(keys, x.index, laser);
      && p[0] in x.config
      && Plan(keys, x1.index, laser) == p[1..]
      && x1.outbox == x.outbox + [Sent(TextLine(ConfigCommand(p[0], x.config[p[0]])), true)]
      && x1.features == x.features && x1.connections == x.connections && x1.config == x.config
      && x1.answers == x.answers
      && IsWriteRun(run[1..]) && run[1..][0] == x1
  {
    var x := run[0];
    var keys := Keys(x);
    var laser := HasLaserMode in x.features;
    var j := NextWrite(keys, x.index, laser);
    PlanStep(keys, x.index, laser);
    WriteStepSends(x);
    assert run[1] == WriteFrom(x);
    RunTail(run);
  }

  /**
   * With a transport that takes every line, a run with one step per key of
   * the plan keeps the flags, the connections and the settings, and leaves
   * nothing of the plan.
   */
  lemma {:induction false} RunKeeps(run: seq<Exchange>)
    requires |run| >= 1 && IsWriteRun(run)
    requires forall k :: run[0].answers(k)
    requires |run| == |Plan(Keys(run[0]), run[0].index, HasLaserMode in run[0].features)| + 1
    ensures var x := run[0];
      var r := run[|run| - 1];
      && r.features == x.features && r.connections == x.connections && r.config == x.config
      && Plan(Keys(x), r.index, HasLaserMode in x.features) == []
    decreases |run|
  {
    if |run| > 1 {
      RunStep(run);
      var tail := run[1..];
      assert Keys(tail[0]) == Keys(run[0]);
      RunKeeps(tail);
      assert run[|run| - 1] == tail[|tail| - 1];
    }
  }

  /** The plan only holds stored keys. */
  lemma PlanKeysStored(x: Exchange)
    ensures forall k | k in Plan(Keys(x), x.index, HasLaserMode in x.features) :: k in x.config
  {
    var keys := Keys(x);
    if x.index <= |keys| {
      SortedKeysOrdered(x.config.Keys);
      PlanContents(keys, x.index, HasLaserMode in x.features);
    }
  }

  /** ... and sends exactly the plan's lines, in order. */
  lemma {:induction false} RunSendsPlan(run: seq<Exchange>)
    requires |run| >= 1 && IsWriteRun(run)
    requires forall k :: run[0].answers(k)
    requires |run| == |Plan(Keys(run[0]), run[0].index, HasLaserMode in run[0].features)| + 1
    ensures var x := run[0];
      var p := Plan(Keys(x), x.index, HasLaserMode in x.features);
      && (forall k | k in p :: k in x.config)
      && run[|run| - 1].outbox == x.outbox + SettingFrames(x.config, p)
    decreases |run|
  {
    var x := run[0];
    var p := Plan(Keys(x), x.index, HasLaserMode in x.features);
    PlanKeysStored(x);
    if |run| > 1 {
      RunStep(run);
      var x1 := run[1];
      var tail := run[1..];
      assert Keys(x1) == Keys(x);
      assert Plan(Keys(x1), x1.index, HasLaserMode in x1.features) == p[1..];
      RunSendsPlan(tail);
      var r := run[|run| - 1];
      assert r == tail[|tail| - 1];
      var head := Sent(TextLine(ConfigCommand(p[0], x.config[p[0]])), true);
      var rest := SettingFrames(x.config, p[1..]);
      assert r.outbox == x1.outbox + rest;
      SettingFramesHead(x.config, p);
      Regroup(x.outbox, [head], rest);
    }
  }

  lemma Regroup<T>(a: seq<T>, b: seq<T>, c: seq<T>)
    ensures a + b + c == a + (b + c)
  {
  }

  lemma SettingFramesHead(config: map<nat, string>, keys: seq<nat>)
    requires keys != [] && forall k | k in keys :: k in config
    ensures SettingFrames(config, keys) == [Sent(TextLine(ConfigCommand(keys[0], config[keys[0]])), true)] + SettingFrames(config, keys[1..])
  {
  }

  /**
   * A whole write with a transport that takes every line: started, then one
   * step per key of the plan and one more, it sends every stored setting
   * exactly once in ascending key order (the laser-mode key only with the
   * capability), then disconnects the slot and resumes the status poll.
   */
  lemma WholeWrite(x: Exchange, run: seq<Exchange>)
    requires forall k :: x.answers(k)
    requires |run| >= 1 && run[0] == BeginWrite(x) && IsWriteRun(run)
    requires |run| == |Plan(Keys(x), 0, HasLaserMode in x.features)| + 2
    ensures var laser := HasLaserMode in x.features;
      var p := Plan(Keys(x), 0, laser);
      var r := run[|run| - 1];
      && (forall i | 0 <= i < |p| :: p[i] in x.config)
      && r.outbox == x.outbox + SettingFrames(x.config, p)
      && AskStatus in r.features
      && !Connected(r.connections, WriteSlot)
      && Increasing(p)
      && (forall k | k in p :: k in x.config && (k != LaserModeKey || laser))
      && (forall k | k in x.config && (k != LaserModeKey || laser) :: k in p)
  {
    var laser := HasLaserMode in x.features;
    var x0 := run[0];
    assert Keys(x0) == Keys(x) && (HasLaserMode in x0.features <==> laser);
    var prefix := run[..|run| - 1];
    assert IsWriteRun(prefix) by {
      forall i | 0 <= i < |prefix| - 1
        ensures prefix[i + 1] == WriteFrom(prefix[i])
      {
        assert prefix[i + 1] == run[i + 1] && prefix[i] == run[i];
      }
    }
    RunKeeps(prefix);
    RunSendsPlan(prefix);
    var y := prefix[|prefix| - 1];
    assert run[|run| - 1] == WriteFrom(y);
    NextWriteAtPlanEnd(Keys(x), y.index, laser);
    WriteStepEnds(y);
    WholePlan(x.config, laser);
  }

  /** With nothing left in the plan, the next step is the end. */
  lemma {:induction false} NextWriteAtPlanEnd(keys: seq<nat>, i: nat, laser: bool)
    requires Plan(keys, i, laser) == []
    ensures NextWrite(keys, i, laser) >= |keys|
    decreases |keys| - i
  {
    if i < |keys| && keys[i] == LaserModeKey && !laser {
      NextWriteAtPlanEnd(keys, i + 1, laser);
    }
  }

  /**
   * A send that fails ends the write: the slot is disconnected, so later
   * acknowledgements write nothing more, and the status poll stays stopped.
   */
  lemma SendFailureStopsTheWrite(x: Exchange)
    requires AskStatus !in x.features
    requires NextWrite(Keys(x), x.index, HasLaserMode in x.features) < |Keys(x)|
    requires !x.answers(|x.outbox|)
    ensures var r := WriteFrom(x);
      && !Connected(r.connections, WriteSlot)
      && AskStatus !in r.features
      && |r.outbox| == |x.outbox| + 1 && !r.outbox[|x.outbox|].delivered
  {
    WriteStepSends(x);
  }

  /** While a write runs alone, each acknowledgement performs exactly one step of it. */
  lemma AckPerformsOneWriteStep(m: MachineState, c: Connection, line: string, editor: EditorOutcome)
    requires m.ex.connections == [c] && c.slot == WriteSlot
    requires StartsWith(line, "ok")
    ensures ParseSpec(m, line, editor).ex == WriteFrom(m.ex.(infos := m.ex.infos - {HasError}))
  {
    AckLineIsAck(m, line, editor);
    DeliverToOnlyConnection(m.ex.(infos := m.ex.infos - {HasError}), c, editor);
  }
}
