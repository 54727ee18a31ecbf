/** The gate controller as the program runs it: the loop's variables
    `current_state`, `desired_state` and `nStateChanged_ts` are fields,
    the output pins hold the levels last written to them, and each tick of
    the `while True:` loop runs as the method `Tick`. Only the constructor
    and `Tick` establish and keep the motor invariant `Valid()`; the pin
    setters and phase methods are steps of a tick and, called on their
    own, need not preserve it. */
module GateControl {
  import opened Gpio
  import opened GateLogic

  class GateController {
    var currentState: GateState
    var desiredState: Desired
    var stateChangedAt: real
    var pins: PinLevels

    function Snapshot(): Controller
      reads this
    {
      Controller(currentState, desiredState, stateChangedAt, pins)
    }

    /** The motor invariant: the H-bridge selects a direction only while
        moving, and then the direction of that move. Both control pins low,
        as set-up may leave them, is admitted. */
    ghost predicate Valid()
      reads this
    {
      DirectionSafe(currentState, pins)
    }

    /** Start-up: a transition state so that the gate is moved, the gate
        assumed to be wanted open, and the H-bridge levels left from set-up
        equal, so that they select no direction. */
    constructor (startTime: real, initialPins: PinLevels)
      requires initialPins.hb1 == initialPins.hb2
      ensures Valid()
      ensures currentState == WaitBeforeOpen && desiredState == WantOpened
      ensures stateChangedAt == startTime && pins == initialPins
    {
      currentState := WaitBeforeOpen;
      desiredState := WantOpened;
      stateChangedAt := startTime;
      pins := initialPins;
    }

    // -------------------------------------------------------------------
    // Pin writes

    /** `io.output(pin, level)`. */
    method Output(pin: OutputPin, level: Level) returns (w: seq<Write>)
      modifies this`pins
      ensures w == [Write(pin, level)] && pins == LatchAll(old(pins), w)
    {
      LatchOne(pins, Write(pin, level));
      pins := Latch(pins, Write(pin, level));
      w := [Write(pin, level)];
    }

    method SetRedLightOn() returns (w: seq<Write>)
      modifies this`pins
      ensures w == RedLight(true) && pins == LatchAll(old(pins), w)
    {
      w := Output(LedRed, 1);
    }

    method SetRedLightOff() returns (w: seq<Write>)
      modifies this`pins
      ensures w == RedLight(false) && pins == LatchAll(old(pins), w)
    {
      w := Output(LedRed, 0);
    }

    method SetGreenLightOn() returns (w: seq<Write>)
      modifies this`pins
      ensures w == GreenLight(true) && pins == LatchAll(old(pins), w)
    {
      w := Output(LedRed, 1);
    }

    method SetGreenLightOff() returns (w: seq<Write>)
      modifies this`pins
      ensures w == GreenLight(false) && pins == LatchAll(old(pins), w)
    {
      w := Output(LedRed, 0);
    }

    method SetHBridgeDirection(n: int) returns (w: seq<Write>)
      modifies this`pins
      ensures w == HBridgeWrites(n) && pins == LatchAll(old(pins), w)
    {
      ghost var p0 := pins;
      var a, b := [], [];
      if n == 0 {
        a := Output(HBridge1, 1);
        b := Output(HBridge2, 1);
      } else if n > 0 {
        a := Output(HBridge1, 0);
        b := Output(HBridge2, 1);
      } else if n < 0 {
        a := Output(HBridge1, 1);
        b := Output(HBridge2, 0);
      }
      w := a + b;
      LatchAllAppend(p0, a, b);
    }

    // -------------------------------------------------------------------
    // The phases of a tick

    /** Sets `desired_state` from the primary gate mode and the hour. */
    method ResolveDesiredState(mode: string, hour: int)
      modifies this`desiredState
      ensures desiredState == ResolveDesired(mode, hour, old(desiredState))
    {
      if mode == ClosedAtNight {
        if hour >= OpenHour {
          desiredState := WantOpened;
        } else {
          desiredState := WantClosed;
        }
      }
      if mode == AlwaysClosed {
        desiredState := WantClosed;
      }
      if mode == AlwaysOpen {
        desiredState := WantOpened;
      }
    }

    /** The emergency-stop branch: H-bridge off, red light off, green light off. */
    method EmergencyStop() returns (w: seq<Write>)
      modifies this`pins
      ensures w == EstopWrites() && pins == LatchAll(old(pins), w)
    {
      ghost var p0 := pins;
      var a := SetHBridgeDirection(0);
      var b := SetRedLightOff();
      var c := SetGreenLightOff();
      w := a + b + c;
      LatchAllAppend(p0, a, b);
      LatchAllAppend(p0, a + b, c);
    }

    /** Retargets toward the side an approved device or `desired_state`
        asks for; `stamp` is the clock read when the new timestamp is taken. */
    method RetargetPhase(credential: bool, stamp: real) returns (w: seq<Write>)
      modifies this`currentState, this`stateChangedAt, this`pins
      ensures var r := Retarget(old(currentState), old(stateChangedAt), desiredState, credential, stamp);
              currentState == r.state && stateChangedAt == r.since && w == r.writes
      ensures pins == LatchAll(old(pins), w)
    {
      w := [];
      if !credential {
        if desiredState == WantOpened && currentState != Opened {
          if currentState != WaitBeforeOpen && currentState != Opening && currentState != Opened {
            currentState := WaitBeforeOpen;
            stateChangedAt := stamp;
            w := SetHBridgeDirection(0);
          }
        }
        if desiredState == WantClosed && currentState != Closed {
          if currentState != WaitBeforeClose && currentState != Closing && currentState != Closed {
            currentState := WaitBeforeClose;
            stateChangedAt := stamp;
            w := SetHBridgeDirection(0);
          }
        }
      } else {
        if currentState != WaitBeforeOpen && currentState != Opening && currentState != Opened {
          currentState := WaitBeforeOpen;
          stateChangedAt := stamp;
          w := SetHBridgeDirection(0);
        }
      }
    }

    /** The four state-change checks, in the order the loop makes them;
        each compares the timestamp with `now` less the dwell time, strictly. */
    method AdvancePhase(now: real) returns (w: seq<Write>)
      modifies this`currentState, this`stateChangedAt, this`pins
      ensures var r := Advance(old(currentState), old(stateChangedAt), now);
              currentState == r.state && stateChangedAt == r.since && w == r.writes
      ensures pins == LatchAll(old(pins), w)
    {
      w := [];
      if currentState == WaitBeforeOpen {
        if stateChangedAt < now - WaitBeforeOpenSec {
          currentState := Opening;
          stateChangedAt := now;
        }
      }
      if currentState == Opening {
        if stateChangedAt < now - RunOpeningSec {
          w := SetHBridgeDirection(0);
          currentState := Opened;
          stateChangedAt := now;
        }
      }
      if currentState == WaitBeforeClose {
        if stateChangedAt < now - WaitBeforeCloseSec {
          currentState := Closing;
          stateChangedAt := now;
        }
      }
      if currentState == Closing {
        if stateChangedAt < now - RunClosingSec {
          w := SetHBridgeDirection(0);
          currentState := Closed;
          stateChangedAt := now;
        }
      }
    }

    /** The behaviour of the state the gate is in: lights and H-bridge. */
    method OutputPhase(now: real, flash: bool) returns (w: seq<Write>)
      modifies this`pins
      ensures w == StateOutputs(currentState, stateChangedAt, now, flash)
      ensures pins == LatchAll(old(pins), w)
    {
      ghost var p0 := pins;
      w := [];
      if currentState == WaitBeforeOpen {
        if flash {
          w := SetGreenLightOn();
        } else {
          w := SetGreenLightOff();
        }
      }
      if currentState == Opening {
        var a := SetGreenLightOn();
        var b := SetHBridgeDirection(OpeningDirection);
        w := a + b;
        LatchAllAppend(p0, a, b);
      }
      if currentState == Opened {
        if stateChangedAt > now - 1.0 {
          var a := SetHBridgeDirection(0);
          var b := SetGreenLightOff();
          var c := SetRedLightOff();
          w := a + b + c;
          LatchAllAppend(p0, a, b);
          LatchAllAppend(p0, a + b, c);
        }
      }
      if currentState == WaitBeforeClose {
        if flash {
          w := SetRedLightOn();
        } else {
          w := SetRedLightOff();
        }
      }
      if currentState == Closing {
        var a := SetRedLightOn();
        var b := SetHBridgeDirection(ClosingDirection);
        w := a + b;
        LatchAllAppend(p0, a, b);
      }
      if currentState == Closed {
        if stateChangedAt > now - 1.0 {
          var a := SetHBridgeDirection(0);
          var b := SetRedLightOff();
          var c := SetGreenLightOff();
          w := a + b + c;
          LatchAllAppend(p0, a, b);
          LatchAllAppend(p0, a + b, c);
        }
      }
    }

    /** One pass of the control loop: the new variables and pin levels are
        those `Step` gives, `writes` are the pin writes it issued, in order,
        and the motor invariant still holds. */
    method Tick(i: TickInput) returns (writes: seq<Write>)
      requires Valid()
      modifies this
      ensures Valid()
      ensures Snapshot() == Step(old(Snapshot()), i).next
      ensures writes == Step(old(Snapshot()), i).writes
    {
      ghost var c := Snapshot();
      ResolveDesiredState(i.mode, i.hour);
      if i.estop == 0 {
        writes := EmergencyStop();
      } else {
        ghost var p0 := pins;
        var w1 := RetargetPhase(i.credential, i.stamp);
        var w2 := AdvancePhase(i.now);
        var w3 := OutputPhase(i.now, i.flash);
        writes := w1 + w2 + w3;
        LatchAllAppend(p0, w1, w2);
        LatchAllAppend(p0, w1 + w2, w3);
      }
      StepKeepsDirectionSafe(c, i);
    }
  }
}
