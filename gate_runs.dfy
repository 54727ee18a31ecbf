/** Properties of the gate controller over one or several ticks. */
module GateRuns {
  import opened Gpio
  import opened GateLogic

  /** The controller after the ticks of `inputs`, in order. */
  function Run(c: Controller, inputs: seq<TickInput>): Controller
    decreases |inputs|
  {
    if inputs == [] then c else Run(Step(c, inputs[0]).next, inputs[1..])
  }

  /** The motor invariant holds after any number of ticks. */
  lemma {:induction false} RunKeepsMotorSafe(c: Controller, inputs: seq<TickInput>)
    requires MotorSafe(c.state, c.pins)
    ensures MotorSafe(Run(c, inputs).state, Run(c, inputs).pins)
    decreases |inputs|
  {
    if inputs != [] {
      StepKeepsMotorSafe(c, inputs[0]);
      RunKeepsMotorSafe(Step(c, inputs[0]).next, inputs[1..]);
    }
  }

  /** The weaker invariant, which admits both H-bridge pins low, holds after
      any number of ticks. */
  lemma {:induction false} RunKeepsDirectionSafe(c: Controller, inputs: seq<TickInput>)
    requires DirectionSafe(c.state, c.pins)
    ensures DirectionSafe(Run(c, inputs).state, Run(c, inputs).pins)
    decreases |inputs|
  {
    if inputs != [] {
      StepKeepsDirectionSafe(c, inputs[0]);
      RunKeepsDirectionSafe(Step(c, inputs[0]).next, inputs[1..]);
    }
  }

  /** While the emergency-stop input reads 0 the state and its timestamp are
      frozen, and once it has been seen the motor is stopped. */
  lemma {:induction false} EstopFreezesRun(c: Controller, inputs: seq<TickInput>)
    requires forall k :: 0 <= k < |inputs| ==> inputs[k].estop == 0
    ensures Run(c, inputs).state == c.state && Run(c, inputs).since == c.since
    ensures inputs != [] ==> Stopped(Run(c, inputs).pins) && Run(c, inputs).pins.red == 0
    decreases |inputs|
  {
    if inputs != [] {
      var c' := Step(c, inputs[0]).next;
      assert forall k :: 0 <= k < |inputs[1..]| ==> inputs[1..][k] == inputs[k + 1];
      EstopFreezesRun(c', inputs[1..]);
      if inputs[1..] == [] {
        assert Run(c', inputs[1..]) == c';
      }
    }
  }

  /** A tick that asks for opening whatever `desired_state` was: an approved
      device is present, or the mode requests opened at this hour. */
  predicate RequestsOpen(i: TickInput)
  {
    i.credential || i.mode == AlwaysOpen || (i.mode == ClosedAtNight && i.hour >= OpenHour)
  }

  /** A tick that asks for closing whatever `desired_state` was. */
  predicate RequestsClose(i: TickInput)
  {
    !i.credential && (i.mode == AlwaysClosed || (i.mode == ClosedAtNight && i.hour < OpenHour))
  }

  /** Progress toward the opened position. */
  function OpenRank(s: GateState): nat
  {
    match s
    case WaitBeforeOpen => 0
    case Opening => 1
    case Opened => 2
    case _ => 0
  }

  /** Progress toward the closed position. */
  function CloseRank(s: GateState): nat
  {
    match s
    case WaitBeforeClose => 0
    case Closing => 1
    case Closed => 2
    case _ => 0
  }

  /** Once on the open side, ticks that ask for opening keep the gate there
      and never move it backward (an emergency stop may freeze it). */
  lemma {:induction false} OpenRequestsKeepOpenSide(c: Controller, inputs: seq<TickInput>)
    requires OpenSide(c.state)
    requires forall k :: 0 <= k < |inputs| ==> RequestsOpen(inputs[k]) || inputs[k].estop == 0
    ensures OpenSide(Run(c, inputs).state)
    ensures OpenRank(Run(c, inputs).state) >= OpenRank(c.state)
    decreases |inputs|
  {
    if inputs != [] {
      var c' := Step(c, inputs[0]).next;
      assert OpenSide(c'.state) && OpenRank(c'.state) >= OpenRank(c.state) by {
        if inputs[0].estop != 0 {
          AdvanceKeepsSide(c.state, c.since, inputs[0].now);
        }
      }
      assert forall k :: 0 <= k < |inputs[1..]| ==> inputs[1..][k] == inputs[k + 1];
      OpenRequestsKeepOpenSide(c', inputs[1..]);
    }
  }

  /** Once on the closed side, ticks that ask for closing keep the gate there
      and never move it backward. */
  lemma {:induction false} CloseRequestsKeepClosedSide(c: Controller, inputs: seq<TickInput>)
    requires ClosedSide(c.state)
    requires forall k :: 0 <= k < |inputs| ==> RequestsClose(inputs[k]) || inputs[k].estop == 0
    ensures ClosedSide(Run(c, inputs).state)
    ensures CloseRank(Run(c, inputs).state) >= CloseRank(c.state)
    decreases |inputs|
  {
    if inputs != [] {
      var c' := Step(c, inputs[0]).next;
      assert ClosedSide(c'.state) && CloseRank(c'.state) >= CloseRank(c.state) by {
        if inputs[0].estop != 0 {
          AdvanceKeepsSide(c.state, c.since, inputs[0].now);
        }
      }
      assert forall k :: 0 <= k < |inputs[1..]| ==> inputs[1..][k] == inputs[k + 1];
      CloseRequestsKeepClosedSide(c', inputs[1..]);
    }
  }

  /** Repeating a tick with the same inputs makes its retarget phase a no-op:
      the first tick left the gate on the requested side, and advancing does
      not change sides. */
  lemma RepeatedTickRetargetsNothing(c: Controller, i: TickInput, stamp: real)
    requires i.estop != 0
    ensures var c' := Step(c, i).next;
            var d := ResolveDesired(i.mode, i.hour, c'.desired);
            Retarget(c'.state, c'.since, d, i.credential, stamp) == Phase(c'.state, c'.since, [])
  {
    var d := ResolveDesired(i.mode, i.hour, c.desired);
    ResolveDesiredIdempotent(i.mode, i.hour, c.desired);
    var a := Retarget(c.state, c.since, d, i.credential, i.stamp);
    AdvanceKeepsSide(a.state, a.since, i.now);
  }

  /** A retarget never advances in the same tick, as its fresh timestamp is
      no earlier than the tick's clock reading: the tick ends in the wait
      state with the H-bridge stopped. */
  lemma RetargetEndsInWait(c: Controller, i: TickInput)
    requires i.estop != 0 && i.now <= i.stamp
    requires !OnSide(c.state, Target(i.credential, ResolveDesired(i.mode, i.hour, c.desired)))
    ensures var r := Step(c, i);
            var t := Target(i.credential, ResolveDesired(i.mode, i.hour, c.desired));
            r.next.state == WaitState(t) && r.next.since == i.stamp && Stopped(r.next.pins)
  {
    var d := ResolveDesired(i.mode, i.hour, c.desired);
    var a := Retarget(c.state, c.since, d, i.credential, i.stamp);
    var o := StateOutputs(a.state, a.since, i.now, i.flash);
    LatchAllAppend(c.pins, a.writes, []);
    LatchAllAppend(c.pins, a.writes + [], o);
    assert a.writes + [] == a.writes;
  }

  /** An approved device retargets a closing gate to the opening wait, even
      under "Always Closed", and the same tick stops the H-bridge. (As
      written, the program then ends at the debug line that follows this
      retarget; the model keeps the state change.) */
  lemma CredentialInterruptsClosing(c: Controller, i: TickInput)
    requires c.state == Closing && i.credential && i.estop != 0 && i.now <= i.stamp
    ensures Step(c, i).next.state == WaitBeforeOpen
    ensures Stopped(Step(c, i).next.pins)
    ensures Step(c, i).writes[..2] == HBridgeWrites(0)
  {
    RetargetEndsInWait(c, i);
  }

  /** "Closed at Night" at 10 o'clock with the gate closed and no device
      present asks for opened and starts the opening wait that tick. */
  lemma MorningRetargetsOpen(c: Controller, i: TickInput)
    requires c.state == Closed && i.mode == ClosedAtNight && i.hour == 10
    requires !i.credential && i.estop != 0 && i.now <= i.stamp
    ensures Step(c, i).next.desired == WantOpened
    ensures Step(c, i).next.state == WaitBeforeOpen && Step(c, i).next.since == i.stamp
  {
    RetargetEndsInWait(c, i);
  }

  /** A tick that does not retarget leaves what the timed advance and the
      output phase make of the state it started in. */
  lemma TickWithoutRetarget(c: Controller, i: TickInput)
    requires i.estop != 0
    requires OnSide(c.state, Target(i.credential, ResolveDesired(i.mode, i.hour, c.desired)))
    ensures var b := Advance(c.state, c.since, i.now);
            var r := Step(c, i).next;
            r.state == b.state && r.since == b.since &&
            r.pins == LatchAll(LatchAll(c.pins, b.writes), StateOutputs(b.state, b.since, i.now, i.flash))
  {
    var b := Advance(c.state, c.since, i.now);
    var o := StateOutputs(b.state, b.since, i.now, i.flash);
    assert Step(c, i).writes == [] + b.writes + o;
    assert [] + b.writes + o == b.writes + o;
    LatchAllAppend(c.pins, b.writes, o);
  }

  /** A tick more than the dwell time after entering a wait state starts the
      motor in that side's direction. */
  lemma WaitEndsInMotion(c: Controller, i: TickInput)
    requires c.state == WaitBeforeOpen || c.state == WaitBeforeClose
    requires if c.state == WaitBeforeOpen then RequestsOpen(i) else RequestsClose(i)
    requires i.estop != 0 && i.now > c.since + Dwell(c.state)
    ensures Step(c, i).next.state == Successor(c.state) && Step(c, i).next.since == i.now
    ensures MotorDirection(Step(c, i).next.pins) ==
              if c.state == WaitBeforeOpen then OpeningDirection else ClosingDirection
  {
    TickWithoutRetarget(c, i);
  }

  /** A tick more than the run time after starting to move stops the motor
      in the end state. */
  lemma MotionEndsStopped(c: Controller, i: TickInput)
    requires c.state == Opening || c.state == Closing
    requires if c.state == Opening then RequestsOpen(i) else RequestsClose(i)
    requires i.estop != 0 && i.now > c.since + Dwell(c.state)
    ensures Step(c, i).next.state == Successor(c.state) && Step(c, i).next.since == i.now
    ensures Stopped(Step(c, i).next.pins)
  {
    TickWithoutRetarget(c, i);
  }

  /** A tick with the emergency stop released, during an opening wait that
      asks for opening before its dwell is over, does not write the H-bridge
      pins: the start-up wait, entered without any H-bridge write, keeps the
      levels set-up left on them until the motor starts, a retarget or an
      emergency stop. */
  lemma OpeningWaitLeavesBridge(c: Controller, i: TickInput)
    requires c.state == WaitBeforeOpen && RequestsOpen(i)
    requires i.estop != 0 && i.now <= c.since + WaitBeforeOpenSec
    ensures Step(c, i).next.state == WaitBeforeOpen && Step(c, i).next.since == c.since
    ensures Step(c, i).next.pins.hb1 == c.pins.hb1 && Step(c, i).next.pins.hb2 == c.pins.hb2
  {
    TickWithoutRetarget(c, i);
    KeepsMotorLevels(c.pins, StateOutputs(c.state, c.since, i.now, i.flash));
  }

  /** The opening sequence runs on elapsed time alone: a tick more than the
      opening wait after entry starts the motor in the opening direction, and
      a later tick more than the run time after that stops it in Opened. */
  lemma OpensAfterDwells(c: Controller, i1: TickInput, i2: TickInput)
    requires c.state == WaitBeforeOpen
    requires RequestsOpen(i1) && i1.estop != 0 && i1.now > c.since + WaitBeforeOpenSec
    requires RequestsOpen(i2) && i2.estop != 0 && i2.now > i1.now + RunOpeningSec
    ensures Step(c, i1).next.state == Opening
    ensures MotorDirection(Step(c, i1).next.pins) == OpeningDirection
    ensures Step(Step(c, i1).next, i2).next.state == Opened
    ensures Stopped(Step(Step(c, i1).next, i2).next.pins)
  {
    WaitEndsInMotion(c, i1);
    MotionEndsStopped(Step(c, i1).next, i2);
  }

  /** The closing sequence, likewise. */
  lemma ClosesAfterDwells(c: Controller, i1: TickInput, i2: TickInput)
    requires c.state == WaitBeforeClose
    requires RequestsClose(i1) && i1.estop != 0 && i1.now > c.since + WaitBeforeCloseSec
    requires RequestsClose(i2) && i2.estop != 0 && i2.now > i1.now + RunClosingSec
    ensures Step(c, i1).next.state == Closing
    ensures MotorDirection(Step(c, i1).next.pins) == ClosingDirection
    ensures Step(Step(c, i1).next, i2).next.state == Closed
    ensures Stopped(Step(Step(c, i1).next, i2).next.pins)
  {
    WaitEndsInMotion(c, i1);
    MotionEndsStopped(Step(c, i1).next, i2);
  }
}
