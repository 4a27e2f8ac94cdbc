/** The kinematic car of src/car.rs: a per-frame speed controller over one
    scalar speed, speed-gated steering, translation along the heading, and
    the wheel spin that follows the speed. */
module CarSystem {
  import opened Scene
  import opened Input

  const DefaultMaxSpeed: real := 20.0
  const DefaultAcceleration: real := 10.0
  const DefaultTurnSpeed: real := 2.0

  /** Natural deceleration keeps this fraction of the speed each frame. */
  const CoastFactor: real := 0.95
  /** Below this magnitude a coasting car is snapped to a standstill. */
  const SnapThreshold: real := 0.1
  /** Steering acts only above this speed magnitude. */
  const SteerThreshold: real := 0.1

  const WheelRadius: real := 0.3

  /** The Car component; its speed is overwritten every frame. */
  class Car {
    var speed: real
    var maxSpeed: real
    var acceleration: real
    var turnSpeed: real

    /** Car::default(). */
    constructor Default()
      ensures speed == 0.0 && maxSpeed == DefaultMaxSpeed
      ensures acceleration == DefaultAcceleration && turnSpeed == DefaultTurnSpeed
      ensures SpeedInRange(speed, maxSpeed)
    {
      speed := 0.0;
      maxSpeed := DefaultMaxSpeed;
      acceleration := DefaultAcceleration;
      turnSpeed := DefaultTurnSpeed;
    }
  }

  /** The interval every frame keeps the speed in: reversing is capped at half the top speed. */
  predicate SpeedInRange(speed: real, maxSpeed: real) {
    -maxSpeed * 0.5 <= speed <= maxSpeed
  }

  /** Which throttle branch a frame takes; accelerate wins over brake. */
  datatype Throttle = Accelerate | BrakeOrReverse | Coast

  function ThrottleOf(pressed: HeldKeys): (t: Throttle)
    ensures t == Accelerate <==> AccelerateHeld(pressed)
    ensures t == BrakeOrReverse <==> !AccelerateHeld(pressed) && BrakeHeld(pressed)
    ensures t == Coast <==> !AccelerateHeld(pressed) && !BrakeHeld(pressed)
  {
    if AccelerateHeld(pressed) then Accelerate
    else if BrakeHeld(pressed) then BrakeOrReverse
    else Coast
  }

  /** Natural deceleration of one frame with no throttle key held. */
  function CoastSpeed(speed: real): (r: real)
    ensures speed >= 0.0 ==> 0.0 <= r <= speed
    ensures speed <= 0.0 ==> speed <= r <= 0.0
    ensures speed != 0.0 ==> Abs(r) < Abs(speed)
    ensures r == 0.0 || Abs(r) >= SnapThreshold
    ensures r == 0.0 || r == speed * CoastFactor
  {
    var decayed := speed * CoastFactor;
    if Abs(decayed) < SnapThreshold then 0.0 else decayed
  }

  /** The speed after one frame's throttle update. */
  function NextSpeed(speed: real, maxSpeed: real, acceleration: real, throttle: Throttle, dt: real): (r: real)
    ensures throttle == Accelerate ==> r <= maxSpeed && r <= speed + acceleration * dt
    ensures throttle == Accelerate ==> r == maxSpeed || r == speed + acceleration * dt
    ensures throttle == BrakeOrReverse ==> r >= -maxSpeed * 0.5 && r >= speed - acceleration * dt
    ensures throttle == BrakeOrReverse ==> r == -maxSpeed * 0.5 || r == speed - acceleration * dt
    ensures throttle == Coast ==> r == CoastSpeed(speed)
  {
    match throttle
    case Accelerate => Min(speed + acceleration * dt, maxSpeed)
    case BrakeOrReverse => Max(speed - acceleration * dt, -maxSpeed * 0.5)
    case Coast => CoastSpeed(speed)
  }

  /** Every frame keeps the speed within [-maxSpeed/2, maxSpeed], whatever keys are held. */
  lemma NextSpeedInRange(speed: real, maxSpeed: real, acceleration: real, throttle: Throttle, dt: real)
    requires maxSpeed > 0.0 && acceleration >= 0.0 && dt >= 0.0
    requires SpeedInRange(speed, maxSpeed)
    ensures SpeedInRange(NextSpeed(speed, maxSpeed, acceleration, throttle, dt), maxSpeed)
  {
    assert acceleration * dt >= 0.0;
  }

  /** Accelerate takes precedence: while it is held, the brake keys make no difference. */
  lemma AccelerateOverridesBrake(pressed: HeldKeys)
    requires AccelerateHeld(pressed)
    ensures ThrottleOf(pressed) == ThrottleOf(pressed - {ArrowDown, KeyS}) == Accelerate
  {
  }

  /** The yaw one frame's steering adds, given the speed after the throttle update:
      rotate_y by +turn for left, then by -turn for right. */
  function SteerAngle(speed: real, maxSpeed: real, turnSpeed: real, pressed: HeldKeys, dt: real): (a: real)
    requires maxSpeed > 0.0
    ensures Abs(speed) <= SteerThreshold ==> a == 0.0
    ensures LeftHeld(pressed) == RightHeld(pressed) ==> a == 0.0
  {
    if Abs(speed) > SteerThreshold then
      var turnFactor := speed / maxSpeed;
      (if LeftHeld(pressed) then turnSpeed * turnFactor * dt else 0.0)
      + (if RightHeld(pressed) then -turnSpeed * turnFactor * dt else 0.0)
    else 0.0
  }

  /** Steering is gated by speed, left and right cancel, it mirrors in reverse,
      and left alone turns by +turn_speed*speed/max*dt, right alone by the negation. */
  lemma SteerAngleProperties(speed: real, maxSpeed: real, turnSpeed: real, pressed: HeldKeys, dt: real)
    requires maxSpeed > 0.0
    ensures Abs(speed) <= SteerThreshold ==> SteerAngle(speed, maxSpeed, turnSpeed, pressed, dt) == 0.0
    ensures LeftHeld(pressed) == RightHeld(pressed) ==> SteerAngle(speed, maxSpeed, turnSpeed, pressed, dt) == 0.0
    ensures SteerAngle(-speed, maxSpeed, turnSpeed, pressed, dt) == -SteerAngle(speed, maxSpeed, turnSpeed, pressed, dt)
    ensures LeftHeld(pressed) && !RightHeld(pressed) && Abs(speed) > SteerThreshold ==>
      SteerAngle(speed, maxSpeed, turnSpeed, pressed, dt) * maxSpeed == turnSpeed * speed * dt
    ensures RightHeld(pressed) && !LeftHeld(pressed) && Abs(speed) > SteerThreshold ==>
      SteerAngle(speed, maxSpeed, turnSpeed, pressed, dt) * maxSpeed == -(turnSpeed * speed * dt)
  {
    var a := turnSpeed * (speed / maxSpeed) * dt;
    var b := turnSpeed * ((-speed) / maxSpeed) * dt;
    assert (-speed) / maxSpeed == -(speed / maxSpeed);
    assert b == -a;
    assert a * maxSpeed == turnSpeed * speed * dt by {
      assert (speed / maxSpeed) * maxSpeed == speed;
    }
  }

  /** The car entity's state: the Car component and its Transform. */
  datatype CarState = CarState(
    speed: real, maxSpeed: real, acceleration: real, turnSpeed: real,
    translation: Vec3, yaw: real)

  /** One frame of car_movement_system for one car: throttle, then steering,
      then translation along the heading after steering. forwardOf is
      Transform::forward as a function of the yaw. */
  function MovementTick(s: CarState, pressed: HeldKeys, dt: real, forwardOf: real -> Vec3): (r: CarState)
    requires s.maxSpeed > 0.0
    ensures r.maxSpeed == s.maxSpeed && r.acceleration == s.acceleration && r.turnSpeed == s.turnSpeed
    ensures r.speed == NextSpeed(s.speed, s.maxSpeed, s.acceleration, ThrottleOf(pressed), dt)
    ensures r.yaw - s.yaw == SteerAngle(r.speed, s.maxSpeed, s.turnSpeed, pressed, dt)
    ensures r.translation == Translate(s.translation, forwardOf(r.yaw), r.speed, dt)
  {
    var speed := NextSpeed(s.speed, s.maxSpeed, s.acceleration, ThrottleOf(pressed), dt);
    var yaw := s.yaw + SteerAngle(speed, s.maxSpeed, s.turnSpeed, pressed, dt);
    s.(speed := speed, yaw := yaw, translation := Translate(s.translation, forwardOf(yaw), speed, dt))
  }

  /** translation += forward * speed * dt */
  function Translate(translation: Vec3, forward: Vec3, speed: real, dt: real): (p: Vec3)
    ensures Sub(p, translation) == Scale(forward, speed * dt)
  {
    ScaleScale(forward, speed, dt);
    AddSub(translation, Scale(Scale(forward, speed), dt));
    Add(translation, Scale(Scale(forward, speed), dt))
  }

  lemma TranslateAlong(p: Vec3, f: Vec3, speed: real, dt: real)
    requires IsHorizontalUnit(f)
    ensures var d := Sub(Translate(p, f, speed, dt), p);
      Dot(d, f) == speed * dt && d.y == 0.0 && NormSq(d) == (speed * dt) * (speed * dt)
  {
    var k := speed * dt;
    ScaleScale(f, speed, dt);
    AddSub(p, Scale(f, k));
    NormSqScale(f, k);
    DotScale(f, k);
  }

  /** The car moves exactly speed * dt along its (unit, horizontal) heading after steering. */
  lemma MovementAlongHeading(s: CarState, pressed: HeldKeys, dt: real, forwardOf: real -> Vec3)
    requires s.maxSpeed > 0.0
    requires IsHorizontalUnit(forwardOf(MovementTick(s, pressed, dt, forwardOf).yaw))
    ensures var r := MovementTick(s, pressed, dt, forwardOf);
      var d := Sub(r.translation, s.translation);
      Dot(d, forwardOf(r.yaw)) == r.speed * dt
      && d.y == 0.0
      && NormSq(d) == (r.speed * dt) * (r.speed * dt)
  {
    var r := MovementTick(s, pressed, dt, forwardOf);
    TranslateAlong(s.translation, forwardOf(r.yaw), r.speed, dt);
  }

  /** The car after a sequence of frames. */
  function Drive(s: CarState, frames: seq<Frame>, forwardOf: real -> Vec3): (r: CarState)
    requires s.maxSpeed > 0.0
    ensures r.maxSpeed == s.maxSpeed
    decreases |frames|
  {
    if frames == [] then s
    else Drive(MovementTick(s, frames[0].pressed, frames[0].dt, forwardOf), frames[1..], forwardOf)
  }

  /** However long the player drives, the speed stays within [-maxSpeed/2, maxSpeed]. */
  lemma {:induction false} DriveKeepsSpeedInRange(s: CarState, frames: seq<Frame>, forwardOf: real -> Vec3)
    requires s.maxSpeed > 0.0 && s.acceleration >= 0.0
    requires forall i :: 0 <= i < |frames| ==> frames[i].dt >= 0.0
    requires SpeedInRange(s.speed, s.maxSpeed)
    ensures SpeedInRange(Drive(s, frames, forwardOf).speed, s.maxSpeed)
    decreases |frames|
  {
    if frames != [] {
      var next := MovementTick(s, frames[0].pressed, frames[0].dt, forwardOf);
      NextSpeedInRange(s.speed, s.maxSpeed, s.acceleration, ThrottleOf(frames[0].pressed), frames[0].dt);
      DriveKeepsSpeedInRange(next, frames[1..], forwardOf);
    }
  }

  /** The speed after n frames of coasting. */
  function CoastFrames(speed: real, n: nat): real
    decreases n
  {
    if n == 0 then speed else CoastFrames(CoastSpeed(speed), n - 1)
  }

  /** A coasting car comes to exactly zero, within 200 frames per unit of speed,
      and stays there. */
  lemma {:induction false} CoastStops(speed: real, n: nat)
    requires n as real >= 200.0 * Abs(speed)
    ensures CoastFrames(speed, n) == 0.0
    decreases n
  {
    if n == 0 {
      assert speed == 0.0;
    } else {
      var next := CoastSpeed(speed);
      if next != 0.0 {
        assert Abs(next) == Abs(speed) * CoastFactor;
        assert 200.0 * Abs(next) <= 200.0 * Abs(speed) - 1.0;
      }
      CoastStops(next, n - 1);
    }
  }

  /** Coasting never increases the speed's magnitude and never flips its sign. */
  lemma {:induction false} CoastFramesShrink(speed: real, n: nat)
    ensures Abs(CoastFrames(speed, n)) <= Abs(speed)
    ensures speed >= 0.0 ==> CoastFrames(speed, n) >= 0.0
    ensures speed <= 0.0 ==> CoastFrames(speed, n) <= 0.0
    decreases n
  {
    if n > 0 {
      CoastFramesShrink(CoastSpeed(speed), n - 1);
    }
  }

  /** Radians per second a wheel turns at this car speed: speed over the wheel's circumference. */
  function WheelSpinRate(speed: real): (r: real)
    ensures r * (2.0 * Pi * WheelRadius) == speed
    ensures r == 0.0 <==> speed == 0.0
    ensures speed > 0.0 ==> r > 0.0
    ensures speed < 0.0 ==> r < 0.0
  {
    var circumference := 2.0 * Pi * WheelRadius;
    speed / circumference
  }

  /** The speed factor both the chase camera and the post-processing derive
      from the car: |speed| / maxSpeed clamped to [0, 1]. */
  function SpeedFactor(speed: real, maxSpeed: real): (sf: real)
    requires maxSpeed > 0.0
    ensures 0.0 <= sf <= 1.0
    ensures sf == 0.0 <==> speed == 0.0
    ensures sf == 1.0 <==> Abs(speed) >= maxSpeed
    ensures Abs(speed) <= maxSpeed ==> sf * maxSpeed == Abs(speed)
  {
    Clamp(Abs(speed) / maxSpeed, 0.0, 1.0)
  }

  /** The speed factor grows with the speed's magnitude and ignores its sign. */
  lemma SpeedFactorMonotone(s1: real, s2: real, maxSpeed: real)
    requires maxSpeed > 0.0
    requires Abs(s1) <= Abs(s2)
    ensures SpeedFactor(s1, maxSpeed) <= SpeedFactor(s2, maxSpeed)
    ensures SpeedFactor(-s1, maxSpeed) == SpeedFactor(s1, maxSpeed)
  {
    assert Abs(s2) / maxSpeed - Abs(s1) / maxSpeed == (Abs(s2) - Abs(s1)) / maxSpeed;
  }

  /** The car's Transform and Car component, read as one state. */
  function StateOf(t: Transform, c: Car): CarState
    reads t, c
  {
    CarState(c.speed, c.maxSpeed, c.acceleration, c.turnSpeed, t.translation, t.angle)
  }

  /** Query items are distinct entities, so no component appears twice. */
  predicate DistinctCars(query: seq<(Transform, Car)>) {
    forall i, j :: 0 <= i < j < |query| ==> query[i].0 != query[j].0 && query[i].1 != query[j].1
  }

  /** Acceleration/deceleration phase of one car's frame. */
  method ApplyThrottle(car: Car, pressed: HeldKeys, dt: real)
    modifies car
    ensures car.speed == NextSpeed(old(car.speed), car.maxSpeed, car.acceleration, ThrottleOf(pressed), dt)
    ensures car.maxSpeed == old(car.maxSpeed) && car.acceleration == old(car.acceleration)
    ensures car.turnSpeed == old(car.turnSpeed)
  {
    if AccelerateHeld(pressed) {
      car.speed := Min(car.speed + car.acceleration * dt, car.maxSpeed);
    } else if BrakeHeld(pressed) {
      car.speed := Max(car.speed - car.acceleration * dt, -car.maxSpeed * 0.5);
    } else {
      car.speed := car.speed * CoastFactor;
      if Abs(car.speed) < SnapThreshold {
        car.speed := 0.0;
      }
    }
  }

  /** Steering phase of one car's frame (only when moving). */
  method ApplySteering(transform: Transform, car: Car, pressed: HeldKeys, dt: real)
    requires car.maxSpeed > 0.0
    modifies transform
    ensures transform.angle == old(transform.angle) + SteerAngle(car.speed, car.maxSpeed, car.turnSpeed, pressed, dt)
    ensures transform.translation == old(transform.translation)
  {
    if Abs(car.speed) > SteerThreshold {
      var turnFactor := car.speed / car.maxSpeed;
      if LeftHeld(pressed) {
        transform.RotateY(car.turnSpeed * turnFactor * dt);
      }
      if RightHeld(pressed) {
        transform.RotateY(-car.turnSpeed * turnFactor * dt);
      }
    }
  }

  /** The body of car_movement_system's loop, for one car. */
  method MoveCar(transform: Transform, car: Car, pressed: HeldKeys, dt: real, forwardOf: real -> Vec3)
    requires car.maxSpeed > 0.0
    modifies transform, car
    ensures StateOf(transform, car) == MovementTick(old(StateOf(transform, car)), pressed, dt, forwardOf)
  {
    ApplyThrottle(car, pressed, dt);
    ApplySteering(transform, car, pressed, dt);
    var forward := forwardOf(transform.angle);
    transform.translation := Add(transform.translation, Scale(Scale(forward, car.speed), dt));
  }

  /** car_movement_system: every car entity takes one movement frame. */
  method CarMovementSystem(query: seq<(Transform, Car)>, pressed: HeldKeys, dt: real, forwardOf: real -> Vec3)
    requires DistinctCars(query)
    requires forall i :: 0 <= i < |query| ==> query[i].1.maxSpeed > 0.0
    modifies set i | 0 <= i < |query| :: query[i].0
    modifies set i | 0 <= i < |query| :: query[i].1
    ensures forall i :: 0 <= i < |query| ==>
      StateOf(query[i].0, query[i].1) == MovementTick(old(StateOf(query[i].0, query[i].1)), pressed, dt, forwardOf)
  {
    var k := 0;
    while k < |query|
      invariant 0 <= k <= |query|
      invariant forall i :: 0 <= i < k ==>
        StateOf(query[i].0, query[i].1) == MovementTick(old(StateOf(query[i].0, query[i].1)), pressed, dt, forwardOf)
      invariant forall i :: k <= i < |query| ==>
        StateOf(query[i].0, query[i].1) == old(StateOf(query[i].0, query[i].1))
    {
      MoveCar(query[k].0, query[k].1, pressed, dt, forwardOf);
      k := k + 1;
    }
  }

  /** wheel_rotation_system: when there is exactly one car, every wheel turns
      about its own axle by the same roll angle, -spinRate * dt. */
  method WheelRotationSystem(cars: seq<Car>, wheels: seq<Transform>, dt: real)
    requires forall i, j :: 0 <= i < j < |wheels| ==> wheels[i] != wheels[j]
    modifies set i | 0 <= i < |wheels| :: wheels[i]
    ensures forall i :: 0 <= i < |wheels| ==> wheels[i].translation == old(wheels[i].translation)
    ensures |cars| == 1 ==> forall i :: 0 <= i < |wheels| ==>
      wheels[i].angle == old(wheels[i].angle) - WheelSpinRate(cars[0].speed) * dt
    ensures |cars| != 1 ==> forall i :: 0 <= i < |wheels| ==> wheels[i].angle == old(wheels[i].angle)
  {
    if |cars| == 1 {
      var rotationSpeed := WheelSpinRate(cars[0].speed);
      var k := 0;
      while k < |wheels|
        invariant 0 <= k <= |wheels|
        invariant forall i :: 0 <= i < |wheels| ==> wheels[i].translation == old(wheels[i].translation)
        invariant forall i :: 0 <= i < k ==> wheels[i].angle == old(wheels[i].angle) - rotationSpeed * dt
        invariant forall i :: k <= i < |wheels| ==> wheels[i].angle == old(wheels[i].angle)
      {
        wheels[k].RotateY(-rotationSpeed * dt);
        k := k + 1;
      }
    }
  }
}
