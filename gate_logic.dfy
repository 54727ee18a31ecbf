/** The gate controller's per-tick decision logic, as functions: which state
    the gate is in, which side the mode asks for, and what each phase of a
    tick (retarget, timed advance, per-state outputs) does to the state, the
    state timestamp and the output pins. */
module GateLogic {
  import opened Gpio

  /** The six states of the gate. */
  datatype GateState = WaitBeforeOpen | Opening | Opened | WaitBeforeClose | Closing | Closed

  /** The value of `desired_state`: "Opened" or "Closed". */
  datatype Desired = WantOpened | WantClosed

  // Primary gate mode strings.
  const ClosedAtNight: string := "Closed at Night"
  const AlwaysClosed: string := "Always Closed"
  const AlwaysOpen: string := "Always Open"

  // Schedule of "Closed at Night". The closing hour is configured but no
  // decision reads it.
  const OpenHour: int := 8
  const CloseHour: int := 21

  // Dwell times, in seconds.
  const WaitBeforeOpenSec: real := 5.0
  const WaitBeforeCloseSec: real := 10.0
  const RunOpeningSec: real := 40.0
  const RunClosingSec: real := 40.0

  // The arguments of `SetHBridgeDirection` while moving.
  const OpeningDirection: int := -1
  const ClosingDirection: int := 1

  /** What one tick observes. `now` is the tick's clock reading; `stamp` is
      the clock read again when a retarget records its timestamp; `hour` is
      the local hour; `credential` says that some approved Bluetooth address
      answered with a name; `estop` is the level of the emergency-stop input;
      `flash` stands for the blink phase test of the wait states. */
  datatype TickInput = TickInput(now: real, stamp: real, hour: int, mode: string,
                                 credential: bool, estop: Level, flash: bool)

  /** The controller's variables and the levels on its output pins. */
  datatype Controller = Controller(state: GateState, desired: Desired, since: real, pins: PinLevels)

  /** The state and timestamp after one phase of a tick, and the writes it issued. */
  datatype Phase = Phase(state: GateState, since: real, writes: seq<Write>)

  /** What a tick leaves behind and the writes it issued, in order. */
  datatype StepResult = StepResult(next: Controller, writes: seq<Write>)

  // ---------------------------------------------------------------------
  // Mode resolution

  /** `desired_state` after the mode lookup: "Closed at Night" asks for
      opened from the opening hour on and closed before it, the two "Always"
      modes ask for their side, and any other mode leaves it as it was. */
  function ResolveDesired(mode: string, hour: int, prev: Desired): (d: Desired)
    ensures mode == ClosedAtNight ==> (d == WantOpened <==> hour >= OpenHour)
    ensures mode == AlwaysClosed ==> d == WantClosed
    ensures mode == AlwaysOpen ==> d == WantOpened
    ensures mode != ClosedAtNight && mode != AlwaysClosed && mode != AlwaysOpen ==> d == prev
  {
    if mode == ClosedAtNight then
      if hour >= OpenHour then WantOpened else WantClosed
    else if mode == AlwaysClosed then WantClosed
    else if mode == AlwaysOpen then WantOpened
    else prev
  }

  /** Resolving twice with the same mode and hour changes nothing more. */
  lemma ResolveDesiredIdempotent(mode: string, hour: int, prev: Desired)
    ensures ResolveDesired(mode, hour, ResolveDesired(mode, hour, prev)) == ResolveDesired(mode, hour, prev)
  {
  }

  /** The previous value matters only for an unrecognised mode. */
  lemma ResolveDesiredIgnoresPrevious(mode: string, hour: int, p: Desired, q: Desired)
    requires ResolveDesired(mode, hour, p) != ResolveDesired(mode, hour, q)
    ensures mode != ClosedAtNight && mode != AlwaysClosed && mode != AlwaysOpen
  {
  }

  // ---------------------------------------------------------------------
  // Sides

  /** The states on the way to, or at, the opened position. */
  predicate OpenSide(s: GateState)
  {
    s == WaitBeforeOpen || s == Opening || s == Opened
  }

  /** The states on the way to, or at, the closed position. */
  predicate ClosedSide(s: GateState)
  {
    s == WaitBeforeClose || s == Closing || s == Closed
  }

  predicate OnSide(s: GateState, d: Desired)
  {
    if d == WantOpened then OpenSide(s) else ClosedSide(s)
  }

  /** The side a tick retargets toward: an approved device always asks for
      opening, whatever the mode; otherwise the mode's desired state decides. */
  function Target(credential: bool, desired: Desired): Desired
  {
    if credential then WantOpened else desired
  }

  /** The wait state that starts a movement toward a side. */
  function WaitState(d: Desired): (s: GateState)
    ensures OnSide(s, d)
  {
    if d == WantOpened then WaitBeforeOpen else WaitBeforeClose
  }

  // ---------------------------------------------------------------------
  // Retarget phase

  /** The retarget phase: when the gate is not on the side the tick asks for,
      it enters that side's wait state, records `stamp` and stops the
      H-bridge; when it already is, nothing changes. */
  function Retarget(s: GateState, since: real, desired: Desired, credential: bool, stamp: real): (r: Phase)
    ensures OnSide(r.state, Target(credential, desired))
    ensures r.state == s <==> OnSide(s, Target(credential, desired))
    ensures r.state == s ==> r.since == since && r.writes == []
    ensures r.state != s ==> r.state == WaitState(Target(credential, desired)) && r.since == stamp
                             && r.writes == HBridgeWrites(0)
    ensures credential ==> (r.state != s <==> !OpenSide(s))
    ensures credential && !OpenSide(s) ==> r.state == WaitBeforeOpen
  {
    var t := Target(credential, desired);
    if OnSide(s, t) then Phase(s, since, []) else Phase(WaitState(t), stamp, HBridgeWrites(0))
  }

  /** A second retarget with the same request does nothing. */
  lemma RetargetIdempotent(s: GateState, since: real, desired: Desired, credential: bool, stamp: real, stamp': real)
    ensures var r := Retarget(s, since, desired, credential, stamp);
            Retarget(r.state, r.since, desired, credential, stamp') == Phase(r.state, r.since, [])
  {
  }

  // ---------------------------------------------------------------------
  // Timed advance

  /** The states left automatically once their dwell time has passed. */
  predicate Timed(s: GateState)
  {
    s != Opened && s != Closed
  }

  function Dwell(s: GateState): (d: real)
    requires Timed(s)
    ensures d > 0.0
  {
    match s
    case WaitBeforeOpen => WaitBeforeOpenSec
    case Opening => RunOpeningSec
    case WaitBeforeClose => WaitBeforeCloseSec
    case Closing => RunClosingSec
  }

  /** The state a timed state advances to. */
  function Successor(s: GateState): (t: GateState)
    requires Timed(s)
    ensures OpenSide(t) == OpenSide(s) && t != s
  {
    match s
    case WaitBeforeOpen => Opening
    case Opening => Opened
    case WaitBeforeClose => Closing
    case Closing => Closed
  }

  /** The timed-advance phase: a timed state whose timestamp lies strictly
      more than its dwell time before `now` advances to its successor and
      records `now`; leaving Opening or Closing stops the H-bridge. */
  function Advance(s: GateState, since: real, now: real): (r: Phase)
    ensures r.state != s <==> Timed(s) && since < now - Dwell(s)
    ensures r.state != s ==> r.state == Successor(s) && r.since == now
    ensures r.state != s ==> r.writes == (if s == Opening || s == Closing then HBridgeWrites(0) else [])
    ensures r.state == s ==> r.since == since && r.writes == []
  {
    if Timed(s) && since < now - Dwell(s) then
      Phase(Successor(s), now, if s == Opening || s == Closing then HBridgeWrites(0) else [])
    else
      Phase(s, since, [])
  }

  /** At most one advance fires per tick: once a state has advanced its
      timestamp is `now`, and no dwell time has passed since then. */
  lemma AdvanceOncePerTick(s: GateState, since: real, now: real)
    ensures var r := Advance(s, since, now);
            Advance(r.state, r.since, now) == Phase(r.state, r.since, [])
  {
  }

  /** Advancing never changes the side the gate is on. */
  lemma AdvanceKeepsSide(s: GateState, since: real, now: real)
    ensures OpenSide(Advance(s, since, now).state) == OpenSide(s)
  {
  }

  // ---------------------------------------------------------------------
  // Per-state outputs

  /** The output phase: the wait states blink their LED, the moving states
      light it and drive the H-bridge, and the end states stop the H-bridge
      and turn the lights off while their timestamp is less than a second
      before `now`. */
  function StateOutputs(s: GateState, since: real, now: real, flash: bool): (w: seq<Write>)
    ensures Avoids(w, LedGreen)
    ensures !KeepsMotor(w) <==> s == Opening || s == Closing || ((s == Opened || s == Closed) && since > now - 1.0)
    ensures s == Opening ==> forall p :: MotorDirection(LatchAll(p, w)) == OpeningDirection
    ensures s == Closing ==> forall p :: MotorDirection(LatchAll(p, w)) == ClosingDirection
    ensures (s == Opened || s == Closed) && !KeepsMotor(w) ==>
              forall p :: Stopped(LatchAll(p, w)) && LatchAll(p, w).red == 0
    ensures s == WaitBeforeOpen || s == WaitBeforeClose ==>
              forall p :: LatchAll(p, w) == p.(red := if flash then 1 else 0)
    ensures s == Opening || s == Closing ==> forall p :: LatchAll(p, w).red == 1
    ensures (s == Opened || s == Closed) && since <= now - 1.0 ==> w == []
  {
    match s
    case WaitBeforeOpen => GreenLight(flash)
    case Opening =>
      LightThenDrive(GreenLight(true), OpeningDirection);
      GreenLight(true) + HBridgeWrites(OpeningDirection)
    case Opened =>
      StopThenLightsOff();
      if since > now - 1.0 then HBridgeWrites(0) + GreenLight(false) + RedLight(false) else []
    case WaitBeforeClose => RedLight(flash)
    case Closing =>
      LightThenDrive(RedLight(true), ClosingDirection);
      RedLight(true) + HBridgeWrites(ClosingDirection)
    case Closed =>
      StopThenLightsOff();
      if since > now - 1.0 then HBridgeWrites(0) + RedLight(false) + GreenLight(false) else []
  }

  /** A light write followed by an H-bridge command drives the motor as the
      command says, keeps the red level the light write set, and still leaves
      the green pin alone. */
  lemma LightThenDrive(light: seq<Write>, n: int)
    requires KeepsMotor(light) && Avoids(light, LedGreen)
    ensures Avoids(light + HBridgeWrites(n), LedGreen) && !KeepsMotor(light + HBridgeWrites(n))
    ensures forall p :: MotorDirection(LatchAll(p, light + HBridgeWrites(n))) == Sign(n)
    ensures forall p :: LatchAll(p, light + HBridgeWrites(n)).red == LatchAll(p, light).red
  {
    forall p ensures MotorDirection(LatchAll(p, light + HBridgeWrites(n))) == Sign(n)
                  && LatchAll(p, light + HBridgeWrites(n)).red == LatchAll(p, light).red {
      LatchAllAppend(p, light, HBridgeWrites(n));
      KeepsMotorLevels(p, light);
      assert MotorDirection(LatchAll(LatchAll(p, light), HBridgeWrites(n))) == Sign(n);
    }
    AvoidsAppend(light, HBridgeWrites(n), LedGreen);
    AvoidsAppend(light, HBridgeWrites(n), HBridge1);
  }

  /** Stopping the H-bridge and then turning both lights off leaves the
      motor stopped and the red pin low, without touching the green pin. The
      light writes are stated as `RedLight(false)` twice: `GreenLight(false)`
      is the same write, so this covers both orders the callers use. */
  lemma StopThenLightsOff()
    ensures var w := HBridgeWrites(0) + RedLight(false) + RedLight(false);
            Avoids(w, LedGreen) && !KeepsMotor(w) &&
            forall p :: Stopped(LatchAll(p, w)) && LatchAll(p, w).red == 0
  {
    var a, b := HBridgeWrites(0), RedLight(false);
    forall p ensures Stopped(LatchAll(p, a + b + b)) && LatchAll(p, a + b + b).red == 0 {
      LatchAllAppend(p, a + b, b);
      LatchAllAppend(p, a, b);
    }
    AvoidsAppend(a, b, LedGreen);
    AvoidsAppend(a + b, b, LedGreen);
    AvoidsAppend(a, b, HBridge1);
    AvoidsAppend(a + b, b, HBridge1);
  }

  /** The writes of the emergency-stop branch: stop the H-bridge, then both
      light setters turn their LED off. */
  function EstopWrites(): (w: seq<Write>)
    ensures Avoids(w, LedGreen)
    ensures forall p :: Stopped(LatchAll(p, w)) && LatchAll(p, w).red == 0
  {
    StopThenLightsOff();
    HBridgeWrites(0) + RedLight(false) + GreenLight(false)
  }

  // ---------------------------------------------------------------------
  // One tick

  /** One tick of the control loop. The mode lookup runs first, on every
      tick. An emergency-stop input at 0 then stops the H-bridge, turns the
      lights off and skips the rest; otherwise the retarget, timed-advance
      and output phases run in that order, each on the state the previous one
      left. */
  function Step(c: Controller, i: TickInput): (r: StepResult)
    ensures r.next.desired == ResolveDesired(i.mode, i.hour, c.desired)
    ensures r.next.pins == LatchAll(c.pins, r.writes)
    ensures Avoids(r.writes, LedGreen) && r.next.pins.green == c.pins.green
    ensures i.estop == 0 ==> r.next.state == c.state && r.next.since == c.since && r.writes == EstopWrites()
    ensures i.estop == 0 ==> Stopped(r.next.pins) && r.next.pins.red == 0
  {
    var d := ResolveDesired(i.mode, i.hour, c.desired);
    if i.estop == 0 then
      var w := EstopWrites();
      LatchAllUntouched(c.pins, w, LedGreen);
      StepResult(Controller(c.state, d, c.since, LatchAll(c.pins, w)), w)
    else
      var a := Retarget(c.state, c.since, d, i.credential, i.stamp);
      var b := Advance(a.state, a.since, i.now);
      var o := StateOutputs(b.state, b.since, i.now, i.flash);
      var w := a.writes + b.writes + o;
      StopAvoidsGreen();
      AvoidsAppend(a.writes, b.writes, LedGreen);
      AvoidsAppend(a.writes + b.writes, o, LedGreen);
      LatchAllUntouched(c.pins, w, LedGreen);
      StepResult(Controller(b.state, d, b.since, LatchAll(c.pins, w)), w)
  }

  lemma StopAvoidsGreen()
    ensures Avoids(HBridgeWrites(0), LedGreen) && Avoids([], LedGreen)
  {
  }

  // ---------------------------------------------------------------------
  // The motor invariant

  /** The H-bridge holds the stop pattern, except in Opening, where it may
      select the opening direction, and in Closing, where it may select the
      closing direction. No other pair of control levels is allowed. */
  predicate MotorSafe(s: GateState, p: PinLevels)
  {
    Stopped(p) ||
    (s == Opening && MotorDirection(p) == OpeningDirection) ||
    (s == Closing && MotorDirection(p) == ClosingDirection)
  }

  lemma RetargetKeepsMotorSafe(s: GateState, since: real, desired: Desired, credential: bool, stamp: real, p: PinLevels)
    requires MotorSafe(s, p)
    ensures var r := Retarget(s, since, desired, credential, stamp);
            MotorSafe(r.state, LatchAll(p, r.writes))
  {
  }

  lemma AdvanceKeepsMotorSafe(s: GateState, since: real, now: real, p: PinLevels)
    requires MotorSafe(s, p)
    ensures var r := Advance(s, since, now);
            MotorSafe(r.state, LatchAll(p, r.writes))
  {
  }

  lemma OutputsKeepMotorSafe(s: GateState, since: real, now: real, flash: bool, p: PinLevels)
    requires MotorSafe(s, p)
    ensures MotorSafe(s, LatchAll(p, StateOutputs(s, since, now, flash)))
  {
    var w := StateOutputs(s, since, now, flash);
    if KeepsMotor(w) {
      KeepsMotorLevels(p, w);
    }
  }

  /** Every tick keeps the motor invariant. */
  lemma StepKeepsMotorSafe(c: Controller, i: TickInput)
    requires MotorSafe(c.state, c.pins)
    ensures MotorSafe(Step(c, i).next.state, Step(c, i).next.pins)
  {
    if i.estop != 0 {
      var d := ResolveDesired(i.mode, i.hour, c.desired);
      var a := Retarget(c.state, c.since, d, i.credential, i.stamp);
      var b := Advance(a.state, a.since, i.now);
      var o := StateOutputs(b.state, b.since, i.now, i.flash);
      RetargetKeepsMotorSafe(c.state, c.since, d, i.credential, i.stamp, c.pins);
      var p1 := LatchAll(c.pins, a.writes);
      AdvanceKeepsMotorSafe(a.state, a.since, i.now, p1);
      var p2 := LatchAll(p1, b.writes);
      OutputsKeepMotorSafe(b.state, b.since, i.now, i.flash, p2);
      LatchAllAppend(c.pins, a.writes, b.writes);
      LatchAllAppend(c.pins, a.writes + b.writes, o);
    }
  }

  /** A weaker invariant that also admits both control pins low: the H-bridge
      selects a direction only in Opening, the opening one, or in Closing,
      the closing one. Every tick keeps it from any state. */
  predicate DirectionSafe(s: GateState, p: PinLevels)
  {
    MotorDirection(p) != 0 ==>
      (s == Opening && MotorDirection(p) == OpeningDirection) ||
      (s == Closing && MotorDirection(p) == ClosingDirection)
  }

  /** The two invariants differ exactly in the both-low pattern. */
  lemma MotorSafeIsDirectionSafeNotBothLow(s: GateState, p: PinLevels)
    ensures MotorSafe(s, p) <==> DirectionSafe(s, p) && !(p.hb1 == 0 && p.hb2 == 0)
  {
  }

  lemma RetargetKeepsDirectionSafe(s: GateState, since: real, desired: Desired, credential: bool, stamp: real, p: PinLevels)
    requires DirectionSafe(s, p)
    ensures var r := Retarget(s, since, desired, credential, stamp);
            DirectionSafe(r.state, LatchAll(p, r.writes))
  {
  }

  lemma AdvanceKeepsDirectionSafe(s: GateState, since: real, now: real, p: PinLevels)
    requires DirectionSafe(s, p)
    ensures var r := Advance(s, since, now);
            DirectionSafe(r.state, LatchAll(p, r.writes))
  {
  }

  lemma OutputsKeepDirectionSafe(s: GateState, since: real, now: real, flash: bool, p: PinLevels)
    requires DirectionSafe(s, p)
    ensures DirectionSafe(s, LatchAll(p, StateOutputs(s, since, now, flash)))
  {
    var w := StateOutputs(s, since, now, flash);
    if KeepsMotor(w) {
      KeepsMotorLevels(p, w);
    }
  }

  /** Every tick keeps the weaker invariant. */
  lemma StepKeepsDirectionSafe(c: Controller, i: TickInput)
    requires DirectionSafe(c.state, c.pins)
    ensures DirectionSafe(Step(c, i).next.state, Step(c, i).next.pins)
  {
    if i.estop != 0 {
      var d := ResolveDesired(i.mode, i.hour, c.desired);
      var a := Retarget(c.state, c.since, d, i.credential, i.stamp);
      var b := Advance(a.state, a.since, i.now);
      var o := StateOutputs(b.state, b.since, i.now, i.flash);
      RetargetKeepsDirectionSafe(c.state, c.since, d, i.credential, i.stamp, c.pins);
      var p1 := LatchAll(c.pins, a.writes);
      AdvanceKeepsDirectionSafe(a.state, a.since, i.now, p1);
      var p2 := LatchAll(p1, b.writes);
      OutputsKeepDirectionSafe(b.state, b.since, i.now, i.flash, p2);
      LatchAllAppend(c.pins, a.writes, b.writes);
      LatchAllAppend(c.pins, a.writes + b.writes, o);
    }
  }
}
