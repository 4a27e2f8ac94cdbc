/** The speed-driven screen effects of src/post_processing.rs: six shader
    parameters on every 3D camera, affine in the car's speed factor while
    post-processing is on, neutral while it is off. */
module PostProcessing {
  import opened Scene
  import opened CarSystem
  import Menu

  /** The six fields of RacingPostProcessSettings, read as one value. */
  datatype PostProcessValues = PostProcessValues(
    speedIntensity: real,
    chromaticAberration: real,
    vignetteStrength: real,
    speedLines: real,
    colorSaturation: real,
    contrast: real)

  /** What setup_post_processing inserts on a 3D camera. */
  const InitialValues: PostProcessValues := PostProcessValues(0.0, 0.004, 0.4, 0.0, 1.3, 1.2)

  /** Effects switched off: no distortion, neutral saturation and contrast. */
  const DisabledValues: PostProcessValues := PostProcessValues(0.0, 0.0, 0.0, 0.0, 1.0, 1.0)

  /** The ranges each field keeps while post-processing is on. */
  predicate InEnabledRanges(v: PostProcessValues) {
    && 0.0 <= v.speedIntensity <= 1.0
    && 0.004 <= v.chromaticAberration <= 0.016
    && 0.0 <= v.speedLines <= 0.7
    && 0.4 <= v.vignetteStrength <= 0.9
    && 1.3 <= v.colorSaturation <= 1.7
    && 1.2 <= v.contrast <= 1.5
  }

  /** Every field of a is at most the same field of b. */
  predicate FieldwiseAtMost(a: PostProcessValues, b: PostProcessValues) {
    && a.speedIntensity <= b.speedIntensity
    && a.chromaticAberration <= b.chromaticAberration
    && a.vignetteStrength <= b.vignetteStrength
    && a.speedLines <= b.speedLines
    && a.colorSaturation <= b.colorSaturation
    && a.contrast <= b.contrast
  }

  /** The parameters for speed factor sf with post-processing on. They stay in
      range, the intensity is the speed factor itself, and they coincide with
      the values setup inserts exactly when the car is at rest. */
  function EnabledValues(sf: real): (v: PostProcessValues)
    requires 0.0 <= sf <= 1.0
    ensures InEnabledRanges(v)
    ensures v.speedIntensity == sf
    ensures v == InitialValues <==> sf == 0.0
  {
    PostProcessValues(
      sf,
      0.004 + sf * 0.012,
      0.4 + sf * 0.5,
      sf * 0.7,
      1.3 + sf * 0.4,
      1.2 + sf * 0.3)
  }

  /** The values update_post_process_settings writes for a car with the given
      speed and top speed; when off, they do not depend on the car at all. */
  function TargetValues(enabled: bool, speed: real, maxSpeed: real): (v: PostProcessValues)
    requires enabled ==> maxSpeed > 0.0
    ensures enabled ==> InEnabledRanges(v) && v.speedIntensity == SpeedFactor(speed, maxSpeed)
    ensures enabled ==> (v == InitialValues <==> speed == 0.0)
    ensures !enabled ==> v == DisabledValues && !InEnabledRanges(v)
  {
    if enabled then EnabledValues(SpeedFactor(speed, maxSpeed)) else DisabledValues
  }

  /** With the effects on, every parameter grows with the car's speed
      magnitude, and driving in reverse looks the same as driving forward. */
  lemma EnabledMonotone(s1: real, s2: real, maxSpeed: real)
    requires maxSpeed > 0.0
    requires Abs(s1) <= Abs(s2)
    ensures FieldwiseAtMost(TargetValues(true, s1, maxSpeed), TargetValues(true, s2, maxSpeed))
    ensures TargetValues(true, -s1, maxSpeed) == TargetValues(true, s1, maxSpeed)
  {
    SpeedFactorMonotone(s1, s2, maxSpeed);
    var a, b := SpeedFactor(s1, maxSpeed), SpeedFactor(s2, maxSpeed);
    assert b * 0.012 - a * 0.012 == (b - a) * 0.012;
    assert b * 0.5 - a * 0.5 == (b - a) * 0.5;
    assert b * 0.7 - a * 0.7 == (b - a) * 0.7;
    assert b * 0.4 - a * 0.4 == (b - a) * 0.4;
    assert b * 0.3 - a * 0.3 == (b - a) * 0.3;
  }

  /** The RacingPostProcessSettings component of one camera. */
  class RacingPostProcessSettings {
    var speedIntensity: real
    var chromaticAberration: real
    var vignetteStrength: real
    var speedLines: real
    var colorSaturation: real
    var contrast: real

    function Values(): PostProcessValues
      reads this
    {
      PostProcessValues(speedIntensity, chromaticAberration, vignetteStrength, speedLines, colorSaturation, contrast)
    }

    /** The component as setup_post_processing builds it. */
    constructor Initial()
      ensures Values() == InitialValues
    {
      speedIntensity := 0.0;
      chromaticAberration := 0.004;
      vignetteStrength := 0.4;
      speedLines := 0.0;
      colorSaturation := 1.3;
      contrast := 1.2;
    }
  }

  /** A camera entity: whether it carries Camera3d, and its post-process
      component, if it has one yet. */
  class CameraEntity {
    const isCamera3d: bool
    var postProcess: RacingPostProcessSettings?

    constructor (isCamera3d: bool)
      ensures this.isCamera3d == isCamera3d && postProcess == null
    {
      this.isCamera3d := isCamera3d;
      postProcess := null;
    }
  }

  /** setup_post_processing: every 3D camera without the component gets a new
      one holding the initial values; every other camera is left alone. */
  method SetupPostProcessing(cameras: seq<CameraEntity>)
    modifies set i | 0 <= i < |cameras| :: cameras[i]
    ensures forall i :: 0 <= i < |cameras| ==>
      if old(cameras[i].postProcess) == null && cameras[i].isCamera3d
      then cameras[i].postProcess != null && fresh(cameras[i].postProcess)
        && cameras[i].postProcess.Values() == InitialValues
      else cameras[i].postProcess == old(cameras[i].postProcess)
  {
    var n := 0;
    while n < |cameras|
      invariant 0 <= n <= |cameras|
      invariant forall i :: 0 <= i < n ==>
        if old(cameras[i].postProcess) == null && cameras[i].isCamera3d
        then cameras[i].postProcess != null && fresh(cameras[i].postProcess)
          && cameras[i].postProcess.Values() == InitialValues
        else cameras[i].postProcess == old(cameras[i].postProcess)
      invariant forall i :: n <= i < |cameras| ==>
        cameras[i].postProcess == old(cameras[i].postProcess) || cameras[i] in cameras[..n]
    {
      var camera := cameras[n];
      if camera.isCamera3d && camera.postProcess == null {
        var settings := new RacingPostProcessSettings.Initial();
        camera.postProcess := settings;
      }
      n := n + 1;
    }
  }

  /** update_post_process_settings: with exactly one car, every camera's
      component receives the same target values (driven by the car's speed
      when post-processing is on, neutral when off); otherwise nothing changes. */
  method UpdatePostProcessSettings(cars: seq<Car>, query: seq<RacingPostProcessSettings>, settings: Menu.GameSettings)
    requires |cars| == 1 && settings.postProcessingEnabled ==> cars[0].maxSpeed > 0.0
    modifies set i | 0 <= i < |query| :: query[i]
    ensures |cars| == 1 ==> forall i :: 0 <= i < |query| ==>
      query[i].Values() == TargetValues(settings.postProcessingEnabled, cars[0].speed, cars[0].maxSpeed)
    ensures |cars| != 1 ==> forall i :: 0 <= i < |query| ==> query[i].Values() == old(query[i].Values())
  {
    if |cars| == 1 {
      var car := cars[0];
      ghost var target := TargetValues(settings.postProcessingEnabled, car.speed, car.maxSpeed);
      var n := 0;
      while n < |query|
        invariant 0 <= n <= |query|
        invariant forall i :: 0 <= i < n ==> query[i].Values() == target
      {
        var postSettings := query[n];
        if settings.postProcessingEnabled {
          var speedFactor := Clamp(Abs(car.speed) / car.maxSpeed, 0.0, 1.0);
          postSettings.speedIntensity := speedFactor;
          postSettings.chromaticAberration := 0.004 + speedFactor * 0.012;
          postSettings.speedLines := speedFactor * 0.7;
          postSettings.vignetteStrength := 0.4 + speedFactor * 0.5;
          postSettings.colorSaturation := 1.3 + speedFactor * 0.4;
          postSettings.contrast := 1.2 + speedFactor * 0.3;
        } else {
          postSettings.speedIntensity := 0.0;
          postSettings.chromaticAberration := 0.0;
          postSettings.speedLines := 0.0;
          postSettings.vignetteStrength := 0.0;
          postSettings.colorSaturation := 1.0;
          postSettings.contrast := 1.0;
        }
        n := n + 1;
      }
    }
  }
}
