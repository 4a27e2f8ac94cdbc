/** The chase camera of src/camera.rs: a speed factor drives the distance,
    height and smoothing gain; the camera takes one exponential-smoothing
    step toward a point behind and above the car and looks a little ahead. */
module CameraSystem {
  import opened Scene
  import opened CarSystem

  const BaseDistance: real := 8.0
  const MaxDistance: real := 12.0
  const BaseHeight: real := 5.5
  const MinHeight: real := 4.0
  /** The smoothing gain at rest, and how much it grows at top speed. */
  const IdleGain: real := 0.03
  const GainBoost: real := 0.02
  /** How far ahead of the car the camera looks at top speed. */
  const LookAhead: real := 3.0
  /** Height above the car's origin the camera looks at. */
  const LookHeight: real := 1.0

  /** Distance behind the car: 8 when idle, 12 at top speed. */
  function CameraDistance(sf: real): (d: real)
    requires 0.0 <= sf <= 1.0
    ensures BaseDistance <= d <= MaxDistance
    ensures d == BaseDistance <==> sf == 0.0
    ensures d == MaxDistance <==> sf == 1.0
  {
    BaseDistance + (MaxDistance - BaseDistance) * sf
  }

  /** Height above the car: 5.5 when idle, 4 at top speed. */
  function CameraHeight(sf: real): (h: real)
    requires 0.0 <= sf <= 1.0
    ensures MinHeight <= h <= BaseHeight
    ensures h == BaseHeight <==> sf == 0.0
    ensures h == MinHeight <==> sf == 1.0
  {
    BaseHeight - (BaseHeight - MinHeight) * sf
  }

  /** The camera pulls back and drops lower as the car goes faster. */
  lemma DistanceAndHeightMonotone(sf1: real, sf2: real)
    requires 0.0 <= sf1 <= sf2 <= 1.0
    ensures CameraDistance(sf1) <= CameraDistance(sf2)
    ensures CameraHeight(sf1) >= CameraHeight(sf2)
    ensures sf1 < sf2 ==> CameraDistance(sf1) < CameraDistance(sf2) && CameraHeight(sf1) > CameraHeight(sf2)
    ensures LerpGain(sf1) <= LerpGain(sf2)
  {
  }

  /** The smoothing gain: 0.03 when idle, 0.05 at top speed. */
  function LerpGain(sf: real): (k: real)
    requires 0.0 <= sf <= 1.0
    ensures IdleGain <= k <= IdleGain + GainBoost
    ensures k == IdleGain <==> sf == 0.0
    ensures k == IdleGain + GainBoost <==> sf == 1.0
    ensures 0.0 < k < 1.0
  {
    IdleGain + sf * GainBoost
  }

  /** The point the camera moves toward: behind the car along -forward, and above it. */
  function TargetPosition(carPos: Vec3, forward: Vec3, sf: real): (p: Vec3)
    requires 0.0 <= sf <= 1.0
    ensures forward.y == 0.0 ==> p.y == carPos.y + CameraHeight(sf)
  {
    var offset := Add(Scale(Neg(forward), CameraDistance(sf)), Scale(Up, CameraHeight(sf)));
    Add(carPos, offset)
  }

  /** With a horizontal unit heading the target is exactly CameraDistance behind
      the car, along -forward, and CameraHeight above it. */
  lemma TargetBehindAndAbove(carPos: Vec3, forward: Vec3, sf: real)
    requires 0.0 <= sf <= 1.0
    requires IsHorizontalUnit(forward)
    ensures var offset := Sub(TargetPosition(carPos, forward, sf), carPos);
      Dot(offset, forward) == -CameraDistance(sf)
      && Dot(offset, forward) <= -BaseDistance
      && offset.y == CameraHeight(sf)
      && NormSq(offset.(y := 0.0)) == CameraDistance(sf) * CameraDistance(sf)
  {
    var d, h := CameraDistance(sf), CameraHeight(sf);
    var behind := Scale(forward, -d);
    var offset := Add(Scale(Neg(forward), d), Scale(Up, h));
    AddSub(carPos, offset);
    ScaleNeg(forward, d);
    assert offset == behind.(y := h);
    NormSqScale(forward, -d);
    DotScale(forward, -d);
  }

  /** Forward and reverse driving at the same pace put the camera target in the same place. */
  lemma TargetIgnoresDirectionOfTravel(carPos: Vec3, forward: Vec3, speed: real, maxSpeed: real)
    requires maxSpeed > 0.0
    ensures TargetPosition(carPos, forward, SpeedFactor(-speed, maxSpeed))
         == TargetPosition(carPos, forward, SpeedFactor(speed, maxSpeed))
  {
    SpeedFactorMonotone(speed, speed, maxSpeed);
  }

  /** The point the camera turns to face: one unit above the car, plus a
      look-ahead along the heading that grows with speed. */
  function LookTarget(carPos: Vec3, forward: Vec3, sf: real): (p: Vec3)
    ensures forward.y == 0.0 ==> p.y == carPos.y + LookHeight
  {
    var lookAhead := Scale(Scale(forward, sf), LookAhead);
    Add(Add(carPos, Scale(Up, LookHeight)), lookAhead)
  }

  /** At rest the camera looks straight at the point above the car; moving, it
      looks 3 * sf units ahead along the heading, never behind. */
  lemma LookTargetAhead(carPos: Vec3, forward: Vec3, sf: real)
    requires 0.0 <= sf <= 1.0
    requires IsHorizontalUnit(forward)
    ensures sf == 0.0 ==> LookTarget(carPos, forward, sf) == Add(carPos, Up)
    ensures var ahead := Sub(LookTarget(carPos, forward, sf), Add(carPos, Up));
      Dot(ahead, forward) == LookAhead * sf && 0.0 <= Dot(ahead, forward) <= LookAhead
    ensures LookTarget(carPos, forward, sf).y == carPos.y + LookHeight
  {
    var k := sf * LookAhead;
    ScaleScale(forward, sf, LookAhead);
    assert Add(carPos, Scale(Up, LookHeight)) == Add(carPos, Up);
    AddSub(Add(carPos, Up), Scale(forward, k));
    DotScale(forward, k);
  }

  /** The factor one smoothing step with gain k applies to a squared distance. */
  function StepFactor(k: real): real { (1.0 - k) * (1.0 - k) }

  /** One smoothing step leaves the camera (1 - k) times as far from the
      target (squared: (1 - k)^2), so for 0 < k < 1 it strictly approaches it. */
  lemma LerpContracts(p: Vec3, t: Vec3, k: real)
    ensures NormSq(Sub(Lerp(p, t, k), t)) == StepFactor(k) * NormSq(Sub(p, t))
    ensures 0.0 < k < 1.0 && NormSq(Sub(p, t)) > 0.0 ==>
      NormSq(Sub(Lerp(p, t, k), t)) < NormSq(Sub(p, t))
  {
    var c := 1.0 - k;
    LerpOffset(p, t, k);
    NormSqScale(Sub(p, t), c);
    if 0.0 < k < 1.0 && NormSq(Sub(p, t)) > 0.0 {
      ContractionFactor(c, NormSq(Sub(p, t)));
    }
  }

  lemma ContractionFactor(c: real, n: real)
    requires 0.0 < c < 1.0 && n > 0.0
    ensures c * c * n < n
  {
    assert c * c < c;
    assert n - c * c * n == (1.0 - c * c) * n;
  }

  function Pow(x: real, n: nat): real
    decreases n
  {
    if n == 0 then 1.0 else x * Pow(x, n - 1)
  }

  /** The camera after n frames with the car standing still: the target and
      the gain stay fixed. */
  function Settle(p: Vec3, t: Vec3, k: real, n: nat): Vec3
    decreases n
  {
    if n == 0 then p else Settle(Lerp(p, t, k), t, k, n - 1)
  }

  /** d after n frames of scaling by c, applied one frame at a time. */
  function Decayed(c: real, n: nat, d: real): real
    decreases n
  {
    if n == 0 then d else Decayed(c, n - 1, c * d)
  }

  lemma DecayedStep(c: real, n: nat, d: real)
    requires n > 0
    ensures Decayed(c, n, d) == Decayed(c, n - 1, c * d)
  {
  }

  lemma {:induction false} DecayedIsPow(c: real, n: nat, d: real)
    ensures Decayed(c, n, d) == Pow(c, n) * d
    decreases n
  {
    if n > 0 {
      DecayedIsPow(c, n - 1, c * d);
      ProductAssoc(Pow(c, n - 1), c, d);
      assert Pow(c, n - 1) * c == c * Pow(c, n - 1);
    }
  }

  /** With the car standing still the squared distance to the target decays
      geometrically, by (1 - k)^2 per frame. */
  lemma {:induction false} SettleConverges(p: Vec3, t: Vec3, k: real, n: nat)
    ensures NormSq(Sub(Settle(p, t, k, n), t)) == Decayed(StepFactor(k), n, NormSq(Sub(p, t)))
    ensures NormSq(Sub(Settle(p, t, k, n), t)) == Pow(StepFactor(k), n) * NormSq(Sub(p, t))
    decreases n
  {
    if n > 0 {
      var q := Lerp(p, t, k);
      LerpContracts(p, t, k);
      SettleConverges(q, t, k, n - 1);
      DecayedStep(StepFactor(k), n, NormSq(Sub(p, t)));
    }
    DecayedIsPow(StepFactor(k), n, NormSq(Sub(p, t)));
  }

  /** camera_follow_system: when there is exactly one camera target car and
      exactly one 3D camera, the camera takes one smoothing step toward the
      target and turns to face the look target; otherwise nothing changes.
      forwardOf is Transform::forward as a function of the car's yaw. */
  method CameraFollowSystem(cars: seq<(Transform, Car)>, cameras: seq<AimedTransform>, forwardOf: real -> Vec3)
    requires |cars| == 1 ==> cars[0].1.maxSpeed > 0.0
    modifies if |cars| == 1 && |cameras| == 1 then {cameras[0]} else {}
    ensures |cars| == 1 && |cameras| == 1 ==>
      var carPos := cars[0].0.translation;
      var forward := forwardOf(cars[0].0.angle);
      var sf := SpeedFactor(cars[0].1.speed, cars[0].1.maxSpeed);
      cameras[0].translation == Lerp(old(cameras[0].translation), TargetPosition(carPos, forward, sf), LerpGain(sf))
      && cameras[0].facing == LookTarget(carPos, forward, sf)
    ensures !(|cars| == 1 && |cameras| == 1) ==> forall i :: 0 <= i < |cameras| ==>
      cameras[i].translation == old(cameras[i].translation) && cameras[i].facing == old(cameras[i].facing)
  {
    if |cars| == 1 {
      if |cameras| == 1 {
        var (carTransform, car) := cars[0];
        var camera := cameras[0];
        var carPos := carTransform.translation;
        var carForward := forwardOf(carTransform.angle);
        var speedFactor := SpeedFactor(car.speed, car.maxSpeed);
        var cameraDistance := BaseDistance + (MaxDistance - BaseDistance) * speedFactor;
        var cameraHeight := BaseHeight - (BaseHeight - MinHeight) * speedFactor;
        var cameraOffset := Add(Scale(Neg(carForward), cameraDistance), Scale(Up, cameraHeight));
        var targetPos := Add(carPos, cameraOffset);
        var lerpSpeed := IdleGain + speedFactor * GainBoost;
        camera.translation := Lerp(camera.translation, targetPos, lerpSpeed);
        var lookAhead := Scale(Scale(carForward, speedFactor), LookAhead);
        var lookTarget := Add(Add(carPos, Scale(Up, LookHeight)), lookAhead);
        camera.LookAt(lookTarget);
      }
    }
  }
}
