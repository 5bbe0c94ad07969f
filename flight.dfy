/**
 * Flight dynamics of the lunar lander (class Lander of lunar_lander.py): the
 * pilot's thrust and spin commands and the once-per-frame telemetry update.
 *
 * Each operation is specified by a pure function on a Telemetry value; class
 * Lander performs the same updates in place, field by field, and each of its
 * methods is proved to leave the state the function describes.  Reals are
 * exact: the model has no floating-point rounding.
 */
module Flight {

  /** Added to the vertical speed every tick (screen y grows downwards). */
  const Gravity: real := 0.05
  /** Fuel in the tank at launch, and what one refuel adds. */
  const FullTank: real := 100.0
  const RefuelAmount: real := 10.0

  /** Engine acceleration for each thrust level 0..4. */
  const ThrustTable: seq<real> := [0.0, Gravity * 0.9, Gravity * 2.0, Gravity * 5.0, Gravity * 10.0]

  function Abs(x: real): real {
    if x < 0.0 then -x else x
  }

  /** The numeric state of the ship. */
  datatype Telemetry = Telemetry(
    shipX: real, shipY: real,
    xSpeed: real, ySpeed: real,
    thrust: real, thrustLevel: int,
    degree: real, degreeChange: real,
    fuel: real,
    thrustFuelBurn: real, spinFuelBurn: real)

  /**
   * What every command and every tick keep: the thrust level is one of the
   * five table keys and its burn rate is proportional to it, the spin burn is
   * off or on, the tank is never negative, the heading is in [0, 360] and the
   * turn rate is at most the commanded one.
   */
  predicate Inv(t: Telemetry) {
    && 0 <= t.thrustLevel <= 4
    && t.thrustFuelBurn == 0.05 * t.thrustLevel as real
    && (t.spinFuelBurn == 0.0 || t.spinFuelBurn == 0.001)
    && 0.0 <= t.fuel
    && 0.0 <= t.degree <= 360.0
    && -5.0 <= t.degreeChange <= 5.0
  }

  /** The state a new Lander starts in. */
  const Launch: Telemetry := Telemetry(250.0, 150.0, 0.0, 0.0, 0.0, 0, 0.0, 0.0, FullTank, 0.0, 0.0)

  // ---------------------------------------------------------------- commands

  /** thrust_up: one level more, wrapping from the top level to engine off. */
  function ThrottleUp(t: Telemetry): (r: Telemetry)
    ensures r == t.(thrustLevel := r.thrustLevel, thrustFuelBurn := r.thrustFuelBurn)
    ensures 0 <= t.thrustLevel <= 4 ==> r.thrustLevel == (t.thrustLevel + 1) % 5
    ensures Inv(t) ==> Inv(r)
  {
    var burn := t.thrustFuelBurn + 0.05;
    var level := t.thrustLevel + 1;
    if level > 4 then t.(thrustLevel := 0, thrustFuelBurn := 0.0)
    else t.(thrustLevel := level, thrustFuelBurn := burn)
  }

  /** thrust_down: one level less, clamped (not wrapped) at engine off. */
  function ThrottleDown(t: Telemetry): (r: Telemetry)
    ensures r == t.(thrustLevel := r.thrustLevel, thrustFuelBurn := r.thrustFuelBurn)
    ensures 0 < t.thrustLevel ==> r.thrustLevel == t.thrustLevel - 1
    ensures t.thrustLevel <= 0 ==> r.thrustLevel == 0 && r.thrustFuelBurn == 0.0
    ensures Inv(t) ==> Inv(r)
  {
    var level := t.thrustLevel - 1;
    var burn := t.thrustFuelBurn - 0.05;
    if level < 0 then t.(thrustLevel := 0, thrustFuelBurn := 0.0)
    else t.(thrustLevel := level, thrustFuelBurn := burn)
  }

  /**
   * spin_left, spin_right and spin_stop: set the turn rate and its burn, but
   * only while there is fuel; with an empty tank they change nothing.
   */
  function Steer(t: Telemetry, rate: real, burn: real): (r: Telemetry)
    ensures r == t.(degreeChange := r.degreeChange, spinFuelBurn := r.spinFuelBurn)
    ensures r != t ==> 0.0 < t.fuel
    ensures 0.0 < t.fuel ==> r.degreeChange == rate && r.spinFuelBurn == burn
    ensures Inv(t) && -5.0 <= rate <= 5.0 && (burn == 0.0 || burn == 0.001) ==> Inv(r)
  {
    if t.fuel > 0.0 then t.(degreeChange := rate, spinFuelBurn := burn) else t
  }

  function SteerLeft(t: Telemetry): (r: Telemetry)
    ensures t.fuel <= 0.0 ==> r == t
    ensures 0.0 < t.fuel ==> r == t.(degreeChange := 5.0, spinFuelBurn := 0.001)
    ensures Inv(t) ==> Inv(r)
  {
    Steer(t, 5.0, 0.001)
  }

  function SteerRight(t: Telemetry): (r: Telemetry)
    ensures t.fuel <= 0.0 ==> r == t
    ensures 0.0 < t.fuel ==> r == t.(degreeChange := -5.0, spinFuelBurn := 0.001)
    ensures Inv(t) ==> Inv(r)
  {
    Steer(t, -5.0, 0.001)
  }

  function SteerStraight(t: Telemetry): (r: Telemetry)
    ensures t.fuel <= 0.0 ==> r == t
    ensures 0.0 < t.fuel ==> r == t.(degreeChange := 0.0, spinFuelBurn := 0.0)
    ensures Inv(t) ==> Inv(r)
  {
    Steer(t, 0.0, 0.0)
  }

  /** The refuel key of the game loop: more fuel, with no cap at a full tank. */
  function Refuelled(t: Telemetry): (r: Telemetry)
    ensures r == t.(fuel := r.fuel) && t.fuel < r.fuel
    ensures r.fuel - t.fuel == RefuelAmount
    ensures Inv(t) ==> Inv(r)
  {
    t.(fuel := t.fuel + RefuelAmount)
  }

  /** The level-heading key of the game loop: points the ship straight up. */
  function Levelled(t: Telemetry): (r: Telemetry)
    ensures r == t.(degree := r.degree) && r.degree == 0.0
    ensures Inv(t) ==> Inv(r)
  {
    t.(degree := 0.0)
  }

  lemma ThrottleUpCycles(t: Telemetry)
    requires Inv(t)
    ensures ThrottleUp(ThrottleUp(ThrottleUp(ThrottleUp(ThrottleUp(t))))) == t
  {
  }

  lemma ThrottleDownUndoesUp(t: Telemetry)
    requires Inv(t) && t.thrustLevel < 4
    ensures ThrottleDown(ThrottleUp(t)) == t
  {
  }

  lemma ThrottleDownAtZero(t: Telemetry)
    requires Inv(t) && t.thrustLevel == 0
    ensures ThrottleDown(t) == t
  {
  }

  // ---------------------------------------------------------------- one tick

  /** Engine acceleration this tick: the table entry, or nothing on an empty tank. */
  function EngineThrust(level: int, fuel: real): (thrust: real)
    requires 0 <= level <= 4
    ensures 0.0 <= thrust <= ThrustTable[4]
    ensures thrust == 0.0 <==> (fuel <= 0.0 || level == 0)
  {
    var thrust := ThrustTable[level];
    if fuel <= 0.0 then 0.0 else thrust
  }

  lemma ThrustGrowsWithLevel(a: int, b: int, fuel: real)
    requires 0 <= a < b <= 4 && 0.0 < fuel
    ensures EngineThrust(a, fuel) < EngineThrust(b, fuel)
  {
  }

  /** The heading after adding the turn rate: one correction by a full turn each way. */
  function WrapHeading(degree: real): (r: real)
    ensures r == degree || r == degree - 360.0 || r == degree + 360.0
    ensures -360.0 <= degree <= 720.0 ==> 0.0 <= r <= 360.0
    ensures 0.0 <= degree <= 360.0 ==> r == degree
  {
    var d := if degree > 360.0 then degree - 360.0 else degree;
    if d < 0.0 then d + 360.0 else d
  }

  /** The tank after one tick's burn, floored at empty. */
  function BurnFuel(fuel: real, thrustBurn: real, spinBurn: real): (r: real)
    ensures 0.0 <= r
    ensures fuel - thrustBurn - spinBurn <= r
    ensures r == 0.0 || r == fuel - thrustBurn - spinBurn
    ensures 0.0 <= thrustBurn && 0.0 <= spinBurn && 0.0 <= fuel ==> r <= fuel
  {
    var left := fuel - thrustBurn - spinBurn;
    if left < 0.0 then 0.0 else left
  }

  /** The part of the state the edge bounces change. */
  datatype Motion = Motion(xSpeed: real, ySpeed: real, degreeChange: real)

  /** Bounce off the top or bottom edge. */
  function ReflectY(m: Motion): Motion {
    Motion(m.xSpeed * 0.7, (m.ySpeed * 0.7) * -1.0, m.degreeChange * 0.5)
  }

  /** Bounce off the left or right edge. */
  function ReflectX(m: Motion): Motion {
    Motion((m.xSpeed * 0.7) * -1.0, m.ySpeed * 0.7, m.degreeChange * 0.5)
  }

  /**
   * The four edge rules, checked one after the other: bottom, top, right,
   * left.  A rule fires when the ship's centre is past its edge and still
   * moving outwards.
   */
  function Bounce(m: Motion, shipX: real, shipY: real, xdim: int, ydim: int): (r: Motion)
    ensures 0 <= ydim && ydim as real < shipY ==> r.ySpeed <= 0.0
    ensures 0 <= ydim && shipY < 0.0 ==> 0.0 <= r.ySpeed
    ensures 0 <= xdim && xdim as real < shipX ==> r.xSpeed <= 0.0
    ensures 0 <= xdim && shipX < 0.0 ==> 0.0 <= r.xSpeed
    ensures Abs(r.xSpeed) <= Abs(m.xSpeed) && Abs(r.ySpeed) <= Abs(m.ySpeed)
    ensures Abs(r.degreeChange) <= Abs(m.degreeChange)
    ensures 0.0 <= shipX <= xdim as real && 0.0 <= shipY <= ydim as real ==> r == m
  {
    var bottom := if shipY > ydim as real && m.ySpeed > 0.0 then ReflectY(m) else m;
    var top := if shipY < 0.0 && bottom.ySpeed < 0.0 then ReflectY(bottom) else bottom;
    var right := if shipX > xdim as real && top.xSpeed > 0.0 then ReflectX(top) else top;
    if shipX < 0.0 && right.xSpeed < 0.0 then ReflectX(right) else right
  }

  /**
   * First half of update_telemetry: thrust lookup, heading wrap, and thrust
   * and gravity added to the speeds.  xMul and yMul are the direction
   * multipliers of the thrust.
   */
  function Kick(t: Telemetry, xMul: real, yMul: real): (r: Telemetry)
    requires 0 <= t.thrustLevel <= 4
    ensures r.thrust == EngineThrust(t.thrustLevel, t.fuel)
    ensures r == t.(thrust := r.thrust, degree := r.degree, xSpeed := r.xSpeed, ySpeed := r.ySpeed)
  {
    var thrust := EngineThrust(t.thrustLevel, t.fuel);
    t.(thrust := thrust, degree := WrapHeading(t.degree + t.degreeChange),
       xSpeed := t.xSpeed + thrust * xMul, ySpeed := t.ySpeed + thrust * yMul + Gravity)
  }

  /**
   * Second half of update_telemetry: edge bounces, Euler step of the position
   * with the bounced speeds, fuel burn.
   */
  function Settle(t: Telemetry, xdim: int, ydim: int): (r: Telemetry)
    ensures r.shipX == t.shipX + r.xSpeed && r.shipY == t.shipY + r.ySpeed
    ensures 0.0 <= r.fuel
    ensures Inv(t) ==> Inv(r) && r.fuel <= t.fuel
  {
    var m := Bounce(Motion(t.xSpeed, t.ySpeed, t.degreeChange), t.shipX, t.shipY, xdim, ydim);
    t.(xSpeed := m.xSpeed, ySpeed := m.ySpeed, degreeChange := m.degreeChange,
       shipX := t.shipX + m.xSpeed, shipY := t.shipY + m.ySpeed,
       fuel := BurnFuel(t.fuel, t.thrustFuelBurn, t.spinFuelBurn))
  }

  /** update_telemetry: one frame of flight. */
  function Tick(t: Telemetry, xMul: real, yMul: real, xdim: int, ydim: int): (r: Telemetry)
    requires 0 <= t.thrustLevel <= 4
    ensures r.thrustLevel == t.thrustLevel && r.thrustFuelBurn == t.thrustFuelBurn && r.spinFuelBurn == t.spinFuelBurn
    ensures r.shipX == t.shipX + r.xSpeed && r.shipY == t.shipY + r.ySpeed
    ensures 0.0 <= r.fuel
    ensures Inv(t) ==> Inv(r) && r.fuel <= t.fuel
  {
    Settle(Kick(t, xMul, yMul), xdim, ydim)
  }

  /** The ship's centre is within all four edges, so no bounce rule can fire. */
  predicate Inside(t: Telemetry, xdim: int, ydim: int) {
    0.0 <= t.shipX <= xdim as real && 0.0 <= t.shipY <= ydim as real
  }

  lemma TickFuel(t: Telemetry, xMul: real, yMul: real, xdim: int, ydim: int)
    requires Inv(t)
    ensures var burnt := t.fuel - t.thrustFuelBurn - t.spinFuelBurn;
      Tick(t, xMul, yMul, xdim, ydim).fuel == if burnt < 0.0 then 0.0 else burnt
  {
  }

  lemma HeadingStaysInRange(t: Telemetry, xMul: real, yMul: real, xdim: int, ydim: int)
    requires 0 <= t.thrustLevel <= 4
    requires 0.0 <= t.degree <= 360.0 && Abs(t.degreeChange) <= 360.0
    ensures 0.0 <= Tick(t, xMul, yMul, xdim, ydim).degree <= 360.0
  {
  }

  /** The wrap test is a strict comparison, so a heading of exactly 360 is kept. */
  lemma HeadingReaches360(t: Telemetry, xMul: real, yMul: real, xdim: int, ydim: int)
    requires 0 <= t.thrustLevel <= 4
    requires t.degree == 355.0 && t.degreeChange == 5.0
    ensures Tick(t, xMul, yMul, xdim, ydim).degree == 360.0
  {
  }

  /** With an empty tank the throttle setting makes no difference to the flight. */
  lemma EmptyTankIgnoresThrottle(t: Telemetry, xMul: real, yMul: real, xdim: int, ydim: int)
    requires 0 <= t.thrustLevel <= 4 && t.fuel <= 0.0
    ensures Tick(t.(thrustLevel := 0), xMul, yMul, xdim, ydim) == Tick(t, xMul, yMul, xdim, ydim).(thrustLevel := 0)
  {
    var k := Kick(t, xMul, yMul);
    assert Kick(t.(thrustLevel := 0), xMul, yMul) == k.(thrustLevel := 0);
    assert Settle(k.(thrustLevel := 0), xdim, ydim) == Settle(k, xdim, ydim).(thrustLevel := 0);
  }

  /**
   * With an empty tank, before any bounce, only gravity changes the speeds,
   * wherever the ship is; with no bounce that is the frame's outcome.
   */
  lemma EmptyTankFalls(t: Telemetry, xMul: real, yMul: real, xdim: int, ydim: int)
    requires 0 <= t.thrustLevel <= 4 && t.fuel <= 0.0
    ensures var k := Kick(t, xMul, yMul);
      k.thrust == 0.0 && k.xSpeed == t.xSpeed && k.ySpeed == t.ySpeed + Gravity
    ensures var r := Tick(t, xMul, yMul, xdim, ydim);
      Inside(t, xdim, ydim) ==> r.thrust == 0.0 && r.xSpeed == t.xSpeed && r.ySpeed == t.ySpeed + Gravity
  {
  }

  /**
   * Wherever the ship is, the thrust kick of one tick is at most the engine's
   * table value along each axis; with no bounce that is the frame's change.
   */
  lemma ThrustKickBounded(t: Telemetry, xMul: real, yMul: real, xdim: int, ydim: int)
    requires 0 <= t.thrustLevel <= 4
    requires -1.0 <= xMul <= 1.0 && -1.0 <= yMul <= 1.0
    ensures var k := Kick(t, xMul, yMul);
      Abs(k.xSpeed - t.xSpeed) <= k.thrust && Abs(k.ySpeed - Gravity - t.ySpeed) <= k.thrust
    ensures var r := Tick(t, xMul, yMul, xdim, ydim);
      Inside(t, xdim, ydim) ==>
        Abs(r.xSpeed - t.xSpeed) <= r.thrust && Abs(r.ySpeed - Gravity - t.ySpeed) <= r.thrust
  {
    var thrust := EngineThrust(t.thrustLevel, t.fuel);
    assert Abs(thrust * xMul) <= thrust by {
      if xMul < 0.0 { assert thrust * xMul >= -thrust; } else { assert thrust * xMul <= thrust; }
    }
    assert Abs(thrust * yMul) <= thrust by {
      if yMul < 0.0 { assert thrust * yMul >= -thrust; } else { assert thrust * yMul <= thrust; }
    }
  }

  /**
   * Bottom edge: a ship below the screen and, after thrust and gravity, still
   * falling bounces up at 70% of that speed, its sideways speed is damped to
   * 70% and its turn rate halved; then it moves by the bounced speeds.
   */
  lemma BottomBounce(t: Telemetry, xMul: real, yMul: real, xdim: int, ydim: int)
    requires 0 <= t.thrustLevel <= 4
    requires 0 <= ydim && ydim as real < t.shipY && 0.0 <= t.shipX <= xdim as real
    requires 0.0 < Kick(t, xMul, yMul).ySpeed
    ensures var k, r := Kick(t, xMul, yMul), Tick(t, xMul, yMul, xdim, ydim);
      && r.ySpeed == -0.7 * k.ySpeed && r.ySpeed < 0.0
      && r.xSpeed == 0.7 * k.xSpeed
      && r.degreeChange == 0.5 * t.degreeChange
      && r.shipY == t.shipY + r.ySpeed
  {
    var k := Kick(t, xMul, yMul);
    assert Bounce(Motion(k.xSpeed, k.ySpeed, k.degreeChange), k.shipX, k.shipY, xdim, ydim)
      == ReflectY(Motion(k.xSpeed, k.ySpeed, k.degreeChange));
  }

  /**
   * A corner hit past the bottom and right edges, moving outwards on both
   * axes, fires two rules: both speeds are reversed and damped twice over
   * and the turn rate is halved twice.
   */
  lemma CornerBounce(t: Telemetry, xMul: real, yMul: real, xdim: int, ydim: int)
    requires 0 <= t.thrustLevel <= 4
    requires 0 <= ydim && ydim as real < t.shipY && 0 <= xdim && xdim as real < t.shipX
    requires 0.0 < Kick(t, xMul, yMul).xSpeed && 0.0 < Kick(t, xMul, yMul).ySpeed
    ensures var k, r := Kick(t, xMul, yMul), Tick(t, xMul, yMul, xdim, ydim);
      && r.xSpeed == -0.49 * k.xSpeed && r.ySpeed == -0.49 * k.ySpeed
      && r.degreeChange == 0.25 * t.degreeChange
  {
    var k := Kick(t, xMul, yMul);
    var m := Motion(k.xSpeed, k.ySpeed, k.degreeChange);
    assert Bounce(m, k.shipX, k.shipY, xdim, ydim) == ReflectX(ReflectY(m));
  }

  // ---------------------------------------------------------------- sessions

  /** The inputs the game loop turns into calls on the lander, one frame being one tick. */
  datatype Command =
    | RaiseThrust | LowerThrust | TurnLeft | TurnRight | StopTurn | Refuel | LevelHeading
    | Frame(xMul: real, yMul: real)

  function Perform(t: Telemetry, c: Command, xdim: int, ydim: int): (r: Telemetry)
    requires Inv(t)
    ensures Inv(r)
  {
    match c
    case RaiseThrust => ThrottleUp(t)
    case LowerThrust => ThrottleDown(t)
    case TurnLeft => SteerLeft(t)
    case TurnRight => SteerRight(t)
    case StopTurn => SteerStraight(t)
    case Refuel => Refuelled(t)
    case LevelHeading => Levelled(t)
    case Frame(xMul, yMul) => Tick(t, xMul, yMul, xdim, ydim)
  }

  /** A whole session: the commands performed in order. */
  function Replay(t: Telemetry, cs: seq<Command>, xdim: int, ydim: int): (r: Telemetry)
    requires Inv(t)
    ensures Inv(r)
    decreases |cs|
  {
    if cs == [] then t else Replay(Perform(t, cs[0], xdim, ydim), cs[1..], xdim, ydim)
  }

  predicate AllFrames(cs: seq<Command>) {
    forall k :: 0 <= k < |cs| ==> cs[k].Frame?
  }

  /** One coasting frame inside the edges. */
  lemma CoastStep(t: Telemetry, xMul: real, yMul: real, xdim: int, ydim: int)
    requires Inv(t) && t.thrustLevel == 0 && t.spinFuelBurn == 0.0 && Inside(t, xdim, ydim)
    ensures var r := Tick(t, xMul, yMul, xdim, ydim);
      && r.thrustLevel == 0 && r.spinFuelBurn == 0.0
      && r.fuel == t.fuel && r.xSpeed == t.xSpeed && r.degreeChange == t.degreeChange
      && r.ySpeed == t.ySpeed + Gravity
  {
    assert EngineThrust(t.thrustLevel, t.fuel) == 0.0;
  }

  /**
   * Coasting: with the engine off and no spin burn, frames that never take
   * the ship past an edge leave the tank and the sideways speed as they were
   * and add one Gravity to the vertical speed per frame.
   */
  lemma {:induction false} Coasting(t: Telemetry, cs: seq<Command>, xdim: int, ydim: int)
    requires Inv(t) && t.thrustLevel == 0 && t.spinFuelBurn == 0.0 && AllFrames(cs)
    requires forall k :: 0 <= k < |cs| ==> Inside(Replay(t, cs[..k], xdim, ydim), xdim, ydim)
    ensures var r := Replay(t, cs, xdim, ydim);
      && r.fuel == t.fuel && r.xSpeed == t.xSpeed && r.degreeChange == t.degreeChange
      && r.ySpeed == t.ySpeed + |cs| as real * Gravity
    decreases |cs|
  {
    if cs != [] {
      assert cs[..0] == [];
      var next := Perform(t, cs[0], xdim, ydim);
      assert Inside(Replay(t, cs[..0], xdim, ydim), xdim, ydim);
      CoastStep(t, cs[0].xMul, cs[0].yMul, xdim, ydim);
      assert Replay(t, cs, xdim, ydim) == Replay(next, cs[1..], xdim, ydim);
      forall k | 0 <= k < |cs[1..]|
        ensures Inside(Replay(next, cs[1..][..k], xdim, ydim), xdim, ydim)
      {
        assert cs[..k + 1][0] == cs[0] && cs[..k + 1][1..] == cs[1..][..k];
        assert Inside(Replay(t, cs[..k + 1], xdim, ydim), xdim, ydim);
      }
      Coasting(next, cs[1..], xdim, ydim);
      assert (|cs| - 1) as real * Gravity + Gravity == |cs| as real * Gravity;
    }
  }

  // ---------------------------------------------------------------- the ship

  /** The lander object; xdim and ydim are the screen size. */
  class Lander {
    const xdim: int
    const ydim: int
    var shipX: real
    var shipY: real
    var xSpeed: real
    var ySpeed: real
    var thrust: real
    var thrustLevel: int
    var degree: real
    var degreeChange: real
    var fuel: real
    var thrustFuelBurn: real
    var spinFuelBurn: real

    ghost function Snapshot(): Telemetry
      reads this
    {
      Telemetry(shipX, shipY, xSpeed, ySpeed, thrust, thrustLevel, degree, degreeChange,
                fuel, thrustFuelBurn, spinFuelBurn)
    }

    ghost predicate Valid()
      reads this
    {
      Inv(Snapshot())
    }

    constructor (xdim: int, ydim: int)
      ensures Valid() && Snapshot() == Launch
      ensures this.xdim == xdim && this.ydim == ydim
    {
      this.xdim, this.ydim := xdim, ydim;
      shipX, shipY := 250.0, 150.0;
      xSpeed, ySpeed := 0.0, 0.0;
      thrust, thrustLevel := 0.0, 0;
      degree, degreeChange := 0.0, 0.0;
      fuel := FullTank;
      thrustFuelBurn, spinFuelBurn := 0.0, 0.0;
    }

    method ThrustUp()
      requires Valid()
      modifies this
      ensures Valid() && Snapshot() == ThrottleUp(old(Snapshot()))
    {
      thrustFuelBurn := thrustFuelBurn + 0.05;
      thrustLevel := thrustLevel + 1;
      if thrustLevel > 4 {
        thrustLevel := 0;
        thrustFuelBurn := 0.0;
      }
    }

    method ThrustDown()
      requires Valid()
      modifies this
      ensures Valid() && Snapshot() == ThrottleDown(old(Snapshot()))
    {
      thrustLevel := thrustLevel - 1;
      thrustFuelBurn := thrustFuelBurn - 0.05;
      if thrustLevel < 0 {
        thrustLevel := 0;
        thrustFuelBurn := 0.0;
      }
    }

    method SpinLeft()
      requires Valid()
      modifies this
      ensures Valid() && Snapshot() == SteerLeft(old(Snapshot()))
    {
      if fuel > 0.0 {
        degreeChange := 5.0;
        spinFuelBurn := 0.001;
      }
    }

    method SpinRight()
      requires Valid()
      modifies this
      ensures Valid() && Snapshot() == SteerRight(old(Snapshot()))
    {
      if fuel > 0.0 {
        degreeChange := -5.0;
        spinFuelBurn := 0.001;
      }
    }

    method SpinStop()
      requires Valid()
      modifies this
      ensures Valid() && Snapshot() == SteerStraight(old(Snapshot()))
    {
      if fuel > 0.0 {
        degreeChange := 0.0;
        spinFuelBurn := 0.0;
      }
    }

    method Refuel()
      requires Valid()
      modifies this
      ensures Valid() && Snapshot() == Refuelled(old(Snapshot()))
    {
      fuel := fuel + RefuelAmount;
    }

    method LevelHeading()
      requires Valid()
      modifies this
      ensures Valid() && Snapshot() == Levelled(old(Snapshot()))
    {
      degree := 0.0;
    }

    /** The four edge rules of update_telemetry, in the source's order. */
    method BounceOffEdges()
      requires Valid()
      modifies this
      ensures Valid()
      ensures Motion(xSpeed, ySpeed, degreeChange) == Bounce(old(Motion(xSpeed, ySpeed, degreeChange)), shipX, shipY, xdim, ydim)
      ensures Snapshot() == old(Snapshot()).(xSpeed := xSpeed, ySpeed := ySpeed, degreeChange := degreeChange)
    {
      ghost var m := Motion(xSpeed, ySpeed, degreeChange);
      if shipY > ydim as real && ySpeed > 0.0 {
        ySpeed := (ySpeed * 0.7) * -1.0;
        xSpeed := xSpeed * 0.7;
        degreeChange := degreeChange * 0.5;
      }
      ghost var bottom := Motion(xSpeed, ySpeed, degreeChange);
      assert bottom == if shipY > ydim as real && m.ySpeed > 0.0 then ReflectY(m) else m;
      if shipY < 0.0 && ySpeed < 0.0 {
        ySpeed := (ySpeed * 0.7) * -1.0;
        xSpeed := xSpeed * 0.7;
        degreeChange := degreeChange * 0.5;
      }
      ghost var top := Motion(xSpeed, ySpeed, degreeChange);
      assert top == if shipY < 0.0 && bottom.ySpeed < 0.0 then ReflectY(bottom) else bottom;
      if shipX > xdim as real && xSpeed > 0.0 {
        xSpeed := (xSpeed * 0.7) * -1.0;
        ySpeed := ySpeed * 0.7;
        degreeChange := degreeChange * 0.5;
      }
      ghost var right := Motion(xSpeed, ySpeed, degreeChange);
      assert right == if shipX > xdim as real && top.xSpeed > 0.0 then ReflectX(top) else top;
      if shipX < 0.0 && xSpeed < 0.0 {
        xSpeed := (xSpeed * 0.7) * -1.0;
        ySpeed := ySpeed * 0.7;
        degreeChange := degreeChange * 0.5;
      }
      assert Motion(xSpeed, ySpeed, degreeChange) == Bounce(m, shipX, shipY, xdim, ydim);
    }

    /** Thrust, heading and speeds: the first half of a frame. */
    method Accelerate(xMul: real, yMul: real)
      requires Valid()
      modifies this
      ensures Valid() && Snapshot() == Kick(old(Snapshot()), xMul, yMul)
    {
      thrust := ThrustTable[thrustLevel];
      if fuel <= 0.0 {
        thrust := 0.0;
      }
      degree := degree + degreeChange;
      if degree > 360.0 {
        degree := degree - 360.0;
      }
      if degree < 0.0 {
        degree := degree + 360.0;
      }
      xSpeed := xSpeed + thrust * xMul;
      ySpeed := ySpeed + thrust * yMul;
      ySpeed := ySpeed + Gravity;
    }

    /**
     * One frame.  xMul and yMul stand for the cosine and the negated sine of
     * the thrust direction, the heading after this frame's turn plus 90
     * degrees; the model takes them as parameters.
     */
    method UpdateTelemetry(xMul: real, yMul: real)
      requires Valid()
      modifies this
      ensures Valid() && Snapshot() == Tick(old(Snapshot()), xMul, yMul, xdim, ydim)
    {
      Accelerate(xMul, yMul);
      ghost var kicked := Snapshot();
      BounceOffEdges();
      shipX := shipX + xSpeed;
      shipY := shipY + ySpeed;
      fuel := fuel - thrustFuelBurn - spinFuelBurn;
      if fuel < 0.0 {
        fuel := 0.0;
      }
      assert Snapshot() == Settle(kicked, xdim, ydim);
    }
  }
}
