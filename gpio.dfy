/** The controller's digital outputs: the two H-bridge control pins and the
    two indicator LEDs, the writes issued to them, and the levels they hold. */
module Gpio {

  /** A digital pin level: 0 (low) or 1 (high). */
  type Level = x: int | 0 <= x <= 1

  /** The four pins the controller sets up as outputs: BCM 17 and 27 for the
      H-bridge, 23 for the green LED and 24 for the red LED. */
  datatype OutputPin = HBridge1 | HBridge2 | LedGreen | LedRed

  /** One `io.output(pin, level)` call. */
  datatype Write = Write(pin: OutputPin, level: Level)

  /** The level each output pin currently holds. */
  datatype PinLevels = PinLevels(hb1: Level, hb2: Level, green: Level, red: Level)

  function Get(p: PinLevels, pin: OutputPin): Level
  {
    match pin
    case HBridge1 => p.hb1
    case HBridge2 => p.hb2
    case LedGreen => p.green
    case LedRed => p.red
  }

  /** The levels after one write: the written pin takes the new level, the others keep theirs. */
  function Latch(p: PinLevels, w: Write): (r: PinLevels)
    ensures Get(r, w.pin) == w.level
    ensures forall q :: q != w.pin ==> Get(r, q) == Get(p, q)
  {
    match w.pin
    case HBridge1 => p.(hb1 := w.level)
    case HBridge2 => p.(hb2 := w.level)
    case LedGreen => p.(green := w.level)
    case LedRed => p.(red := w.level)
  }

  /** The levels after a sequence of writes, issued in order. */
  function LatchAll(p: PinLevels, ws: seq<Write>): PinLevels
    decreases |ws|
  {
    if ws == [] then p else LatchAll(Latch(p, ws[0]), ws[1..])
  }

  /** Issuing `a` and then `b` is the same as issuing `a + b`. */
  lemma {:induction false} LatchAllAppend(p: PinLevels, a: seq<Write>, b: seq<Write>)
    ensures LatchAll(p, a + b) == LatchAll(LatchAll(p, a), b)
    decreases |a|
  {
    if a == [] {
      assert a + b == b;
    } else {
      assert (a + b)[0] == a[0];
      assert (a + b)[1..] == a[1..] + b;
      LatchAllAppend(Latch(p, a[0]), a[1..], b);
    }
  }

  /** No write in `ws` is to `pin`. */
  predicate Avoids(ws: seq<Write>, pin: OutputPin)
  {
    forall k :: 0 <= k < |ws| ==> ws[k].pin != pin
  }

  /** A pin that no write addresses keeps its level. */
  lemma {:induction false} LatchAllUntouched(p: PinLevels, ws: seq<Write>, pin: OutputPin)
    requires Avoids(ws, pin)
    ensures Get(LatchAll(p, ws), pin) == Get(p, pin)
    decreases |ws|
  {
    if ws != [] {
      assert ws[0].pin != pin;
      assert Avoids(ws[1..], pin) by {
        forall k | 0 <= k < |ws[1..]| ensures ws[1..][k].pin != pin {
          assert ws[1..][k] == ws[k + 1];
        }
      }
      LatchAllUntouched(Latch(p, ws[0]), ws[1..], pin);
    }
  }

  lemma AvoidsAppend(a: seq<Write>, b: seq<Write>, pin: OutputPin)
    ensures Avoids(a + b, pin) <==> Avoids(a, pin) && Avoids(b, pin)
  {
    if Avoids(a, pin) && Avoids(b, pin) {
      forall k | 0 <= k < |a + b| ensures (a + b)[k].pin != pin {
        if k >= |a| { assert (a + b)[k] == b[k - |a|]; }
      }
    }
    if Avoids(a + b, pin) {
      forall k | 0 <= k < |a| ensures a[k].pin != pin {
        assert (a + b)[k] == a[k];
      }
      forall k | 0 <= k < |b| ensures b[k].pin != pin {
        assert (a + b)[|a| + k] == b[k];
      }
    }
  }

  /** The writes of `ws` that touch neither H-bridge pin leave the motor alone. */
  predicate KeepsMotor(ws: seq<Write>)
  {
    Avoids(ws, HBridge1) && Avoids(ws, HBridge2)
  }

  lemma KeepsMotorLevels(p: PinLevels, ws: seq<Write>)
    requires KeepsMotor(ws)
    ensures LatchAll(p, ws).hb1 == p.hb1 && LatchAll(p, ws).hb2 == p.hb2
  {
    LatchAllUntouched(p, ws, HBridge1);
    LatchAllUntouched(p, ws, HBridge2);
  }

  lemma LatchOne(p: PinLevels, a: Write)
    ensures LatchAll(p, [a]) == Latch(p, a)
  {
    assert [a][1..] == [];
  }

  lemma LatchTwo(p: PinLevels, a: Write, b: Write)
    ensures LatchAll(p, [a, b]) == Latch(Latch(p, a), b)
  {
    assert [a, b][1..] == [b];
    LatchOne(Latch(p, a), b);
  }

  /** The direction the H-bridge control levels select: pin 1 low and pin 2
      high selects +1 (the closing direction), pin 1 high and pin 2 low
      selects -1 (the opening direction), and equal levels select neither. */
  function MotorDirection(p: PinLevels): (d: int)
    ensures d == -1 || d == 0 || d == 1
    ensures d == 1 <==> p.hb1 == 0 && p.hb2 == 1
    ensures d == -1 <==> p.hb1 == 1 && p.hb2 == 0
    ensures d == 0 <==> p.hb1 == p.hb2
  {
    if p.hb1 == p.hb2 then 0 else if p.hb1 == 0 then 1 else -1
  }

  /** The H-bridge holds the stop pattern `SetHBridgeDirection(0)` writes:
      both control pins high. */
  predicate Stopped(p: PinLevels)
  {
    p.hb1 == 1 && p.hb2 == 1
  }

  function Sign(n: int): int
  {
    if n == 0 then 0 else if n > 0 then 1 else -1
  }

  /** The writes of `SetHBridgeDirection(n)`: pin 1 then pin 2, selecting
      the motor direction of the sign of `n` and never both pins low. */
  function HBridgeWrites(n: int): (w: seq<Write>)
    ensures |w| == 2 && w[0].pin == HBridge1 && w[1].pin == HBridge2
    ensures !(w[0].level == 0 && w[1].level == 0)
    ensures forall p :: MotorDirection(LatchAll(p, w)) == Sign(n)
    ensures forall p :: Stopped(LatchAll(p, w)) <==> n == 0
    ensures forall p :: LatchAll(p, w).green == p.green && LatchAll(p, w).red == p.red
  {
    var w := if n == 0 then [Write(HBridge1, 1), Write(HBridge2, 1)]
             else if n > 0 then [Write(HBridge1, 0), Write(HBridge2, 1)]
             else [Write(HBridge1, 1), Write(HBridge2, 0)];
    forall p ensures LatchAll(p, w) == Latch(Latch(p, w[0]), w[1]) {
      LatchTwo(p, w[0], w[1]);
    }
    w
  }

  /** Commands with the same sign issue the same writes; commands of
      different signs issue different writes, so each of the three pin
      patterns belongs to exactly one direction. */
  lemma HBridgePatternsDistinct(m: int, n: int)
    ensures HBridgeWrites(m) == HBridgeWrites(n) <==> Sign(m) == Sign(n)
  {
    var p := PinLevels(0, 0, 0, 0);
    if HBridgeWrites(m) == HBridgeWrites(n) {
      assert MotorDirection(LatchAll(p, HBridgeWrites(m))) == MotorDirection(LatchAll(p, HBridgeWrites(n)));
    }
  }

  /** The write of `SetRedLightOn` (`on`) or `SetRedLightOff` (`!on`). */
  function RedLight(on: bool): (w: seq<Write>)
    ensures forall p :: LatchAll(p, w) == p.(red := if on then 1 else 0)
    ensures KeepsMotor(w) && Avoids(w, LedGreen)
  {
    var w := [Write(LedRed, if on then 1 else 0)];
    forall p ensures LatchAll(p, w) == Latch(p, w[0]) {
      LatchOne(p, w[0]);
    }
    w
  }

  /** The write of `SetGreenLightOn` (`on`) or `SetGreenLightOff` (`!on`).
      As written, both setters address the red LED's pin, so the green pin
      is never driven. */
  function GreenLight(on: bool): (w: seq<Write>)
    ensures w == RedLight(on)
    ensures Avoids(w, LedGreen)
  {
    [Write(LedRed, if on then 1 else 0)]
  }
}
