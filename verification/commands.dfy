/**
 * What sending a command does to the machine record: `ask` with an empty
 * command, with a reset, the status timer and the working-zero commands.
 */
module CommandProperties {
  import opened Protocol
  import opened Encoder
  import opened MachineModel

  /** The frame appended by one send, with the transport's answer for its position. */
  function Appended(x: Exchange, f: Frame): seq<Sent> {
    x.outbox + [Sent(f, x.answers(|x.outbox|))]
  }

  /** Several sends, one after the other. */
  function SendAll(x: Exchange, frames: seq<Frame>): Exchange
    decreases |frames|
  {
    if frames == [] then x else SendAll(Send(x, frames[0]).0, frames[1..])
  }

  /**
   * The transport keeps order: after several sends the outbox has gained
   * exactly those frames, in order, each with the transport's answer for its
   * own position, and nothing else in the exchange has changed.
   */
  lemma {:induction false} SendsInOrder(x: Exchange, frames: seq<Frame>)
    ensures var r := SendAll(x, frames);
      && r == x.(outbox := r.outbox)
      && |r.outbox| == |x.outbox| + |frames|
      && r.outbox[..|x.outbox|] == x.outbox
      && forall i | 0 <= i < |frames| :: r.outbox[|x.outbox| + i] == Sent(frames[i], x.answers(|x.outbox| + i))
    decreases |frames|
  {
    if frames != [] {
      var y := Send(x, frames[0]).0;
      SendsInOrder(y, frames[1..]);
      var r := SendAll(x, frames);
      assert |y.outbox| == |x.outbox| + 1;
      assert r.outbox[..|y.outbox|] == y.outbox;
      assert r.outbox[..|x.outbox|] == x.outbox by {
        assert r.outbox[..|x.outbox|] == r.outbox[..|y.outbox|][..|x.outbox|];
      }
      forall i | 0 <= i < |frames|
        ensures r.outbox[|x.outbox| + i] == Sent(frames[i], x.answers(|x.outbox| + i))
      {
        if i == 0 {
          assert r.outbox[|x.outbox|] == r.outbox[..|y.outbox|][|x.outbox|];
        } else {
          assert frames[1..][i - 1] == frames[i];
          assert |y.outbox| + (i - 1) == |x.outbox| + i;
        }
      }
    }
  }

  /**
   * `ask` sends exactly when the command is not empty: an override asked for
   * a sub-command it lacks sends nothing and reports failure, every other
   * command appends its one frame and reports the transport's answer.
   */
  lemma AskSendsUnlessEmpty(x: Exchange, command: CommandType, arg: int)
    ensures var (r, ok) := AskSpec(x, command, arg);
      && (!HasSubCommand(command, arg) ==> r.outbox == x.outbox && !ok)
      && (HasSubCommand(command, arg) ==>
            r.outbox == Appended(x, Encode(command, arg).value) && ok == x.answers(|x.outbox|))
  {
  }

  /** Nothing but the outbox and the reset flags changes, and only a reset changes the flags. */
  lemma AskKeepsTheRest(x: Exchange, command: CommandType, arg: int)
    requires command != CommandReset
    ensures AskSpec(x, command, arg).0 == x.(outbox := AskSpec(x, command, arg).0.outbox)
  {
  }

  /** A reset forgets the switches, the actioners and the working offset, and is sent as one realtime byte. */
  lemma ResetForgets(x: Exchange)
    ensures var r := AskSpec(x, CommandReset, 0).0;
      && r.switches == {} && r.actioners == {}
      && r.infos == x.infos - {HasWorkingOffset}
      && r.outbox == Appended(x, Realtime(CmdReset))
      && !r.outbox[|x.outbox|].frame.newLine
  {
  }

  /** The status timer polls only while asking for status is enabled, with the realtime status request. */
  lemma TimeoutPollsOnlyWhenAsked(x: Exchange)
    ensures AskStatus !in x.features ==> TimeoutSpec(x) == x
    ensures AskStatus in x.features ==> TimeoutSpec(x) == x.(outbox := Appended(x, Realtime(CmdStatusReport)))
  {
  }

  /**
   * Setting a working zero always sends its command; the axis is zeroed and
   * the offset forgotten exactly when the transport took it, and the other
   * axes never move.
   */
  lemma WorkingZeroOnlyWhenDelivered(m: MachineState, axis: Axis)
    ensures var r := SetWorkingZeroSpec(m, axis);
      var ok := m.ex.answers(|m.ex.outbox|);
      && r.ex.outbox == Appended(m.ex, TextLine(ZeroCommand(axis)))
      && (ok ==> r.working == ZeroAxis(m.working, axis) && HasWorkingOffset !in r.ex.infos)
      && (!ok ==> r == m.(ex := m.ex.(outbox := r.ex.outbox)))
      && (axis != X ==> r.working.x == m.working.x)
      && (axis != Y ==> r.working.y == m.working.y)
      && (axis != Z ==> r.working.z == m.working.z)
  {
  }
}
