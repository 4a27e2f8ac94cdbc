/** The day-night cycle of src/atmosphere.rs: a clock in [0, 1) advanced
    every frame (or scrubbed with T and G), and the sun's position, light
    colour, intensity and the ambient light chosen from the sun's height.
    sin, cos and powf are not modelled; they are supplied by the caller. */
module Atmosphere {
  import opened Scene
  import opened Input

  /** f32::trunc: the integer part, rounding toward zero. */
  function Trunc(x: real): (n: int)
    ensures x >= 0.0 ==> 0.0 <= x - n as real < 1.0
    ensures x <= 0.0 ==> -1.0 < x - n as real <= 0.0
  {
    if x >= 0.0 then x.Floor else -((-x).Floor)
  }

  /** f32::fract: x - x.trunc(), which keeps the sign of x. */
  function Fract(x: real): (f: real)
    ensures -1.0 < f < 1.0
    ensures x >= 0.0 ==> f >= 0.0
    ensures x <= 0.0 ==> f <= 0.0
    ensures x - f == Trunc(x) as real
  {
    x - Trunc(x) as real
  }

  /** The wrap at the end of update_time_of_day: fract, then add one to a
      negative remainder. The result lies in [0, 1) and differs from the
      input by a whole number of days (it is x minus its floor). */
  function Wrap(x: real): (w: real)
    ensures 0.0 <= w < 1.0
    ensures x - w == x.Floor as real
  {
    var f := Fract(x);
    if f < 0.0 then f + 1.0 else f
  }

  /** A value in [0, 1) that is a whole number of days away from x is Wrap(x). */
  lemma WrapUnique(x: real, w: real, k: int)
    requires 0.0 <= w < 1.0
    requires x - w == k as real
    ensures w == Wrap(x)
  {
    assert k == x.Floor;
  }

  /** Wrapping ignores whole days. */
  lemma WrapShift(x: real, k: int)
    ensures Wrap(x + k as real) == Wrap(x)
  {
    WrapUnique(x + k as real, Wrap(x), x.Floor + k);
  }

  /** The TimeOfDay resource: time in days (0 midnight, 0.5 noon) and how
      many days pass per second of frame time. */
  class TimeOfDay {
    var time: real
    var speed: real

    /** TimeOfDay::default(): morning, and one day per 24 minutes. */
    constructor Default()
      ensures time == 0.3 && speed == 1.0 / (24.0 * 60.0)
    {
      time := 0.3;
      speed := 1.0 / (24.0 * 60.0);
    }

    /** update_time_of_day: move the clock, then wrap it into [0, 1). */
    method UpdateTimeOfDay(pressed: HeldKeys, dt: real)
      modifies this
      ensures time == AdvanceTime(old(time), speed, pressed, dt)
      ensures speed == old(speed)
    {
      if KeyT in pressed {
        time := time + dt * 2.0;
      } else if KeyG in pressed {
        time := time - dt * 2.0;
      } else {
        time := time + dt * speed;
      }
      time := Fract(time);
      if time < 0.0 {
        time := time + 1.0;
      }
    }
  }

  /** How far one frame moves the clock before wrapping: T fast-forwards at
      two days per second and wins over G, which rewinds at the same rate;
      otherwise the clock runs at its own speed. */
  function Delta(speed: real, pressed: HeldKeys, dt: real): (d: real)
    ensures KeyT in pressed ==> d == dt * 2.0
    ensures KeyT !in pressed && KeyG in pressed ==> d == -(dt * 2.0)
    ensures KeyT !in pressed && KeyG !in pressed ==> d == dt * speed
  {
    if KeyT in pressed then dt * 2.0
    else if KeyG in pressed then -(dt * 2.0)
    else dt * speed
  }

  /** The clock after one frame. */
  function AdvanceTime(time: real, speed: real, pressed: HeldKeys, dt: real): (t: real)
    ensures 0.0 <= t < 1.0
    ensures time + Delta(speed, pressed, dt) - t == (time + Delta(speed, pressed, dt)).Floor as real
  {
    Wrap(time + Delta(speed, pressed, dt))
  }

  /** Holding T, the state of G makes no difference. */
  lemma FastForwardOverridesRewind(time: real, speed: real, pressed: HeldKeys, dt: real)
    requires KeyT in pressed
    ensures AdvanceTime(time, speed, pressed, dt) == AdvanceTime(time, speed, pressed - {KeyG}, dt)
  {
  }

  /** Rewinding for a frame as long as a fast-forward frame puts the clock back. */
  lemma RewindUndoesFastForward(time: real, speed: real, dt: real)
    requires 0.0 <= time < 1.0
    ensures AdvanceTime(AdvanceTime(time, speed, {KeyT}, dt), speed, {KeyG}, dt) == time
  {
    var x := time + dt * 2.0;
    var a := AdvanceTime(time, speed, {KeyT}, dt);
    assert a - dt * 2.0 == time + (-x.Floor) as real;
    WrapShift(time, -x.Floor);
    WrapUnique(time, time, 0);
  }

  /** The clock after a sequence of frames. */
  function RunClock(time: real, speed: real, frames: seq<Frame>): real
    decreases |frames|
  {
    if frames == [] then time
    else RunClock(AdvanceTime(time, speed, frames[0].pressed, frames[0].dt), speed, frames[1..])
  }

  /** The total the frames move the clock, before any wrapping. */
  function Elapsed(speed: real, frames: seq<Frame>): real
    decreases |frames|
  {
    if frames == [] then 0.0
    else Delta(speed, frames[0].pressed, frames[0].dt) + Elapsed(speed, frames[1..])
  }

  /** Wrapping every frame loses no time: after any run the clock reads the
      start time plus everything elapsed, modulo one day. */
  lemma {:induction false} RunClockIsWrappedTotal(time: real, speed: real, frames: seq<Frame>)
    requires 0.0 <= time < 1.0
    ensures RunClock(time, speed, frames) == Wrap(time + Elapsed(speed, frames))
    ensures 0.0 <= RunClock(time, speed, frames) < 1.0
    decreases |frames|
  {
    if frames == [] {
      WrapUnique(time, time, 0);
    } else {
      var d := Delta(speed, frames[0].pressed, frames[0].dt);
      var rest := Elapsed(speed, frames[1..]);
      var a := AdvanceTime(time, speed, frames[0].pressed, frames[0].dt);
      RunClockIsWrappedTotal(a, speed, frames[1..]);
      var k := (time + d).Floor;
      assert a + rest == (time + d + rest) + (-k) as real;
      WrapShift(time + d + rest, -k);
    }
  }

  /** The sun's angle on its arc: the 0.25 offset puts sunrise at a quarter
      day and the top of the arc (an angle of pi/2) at noon. */
  function SunAngle(time: real): (a: real)
    ensures time == 0.25 ==> a == 0.0
    ensures time == 0.5 ==> a == Pi / 2.0
    ensures 0.0 <= time < 1.0 ==> -(Pi / 2.0) <= a < 3.0 * Pi / 2.0
  {
    (time - 0.25) * 2.0 * Pi
  }

  /** sin(angle).max(0): the sun never goes below the horizon. */
  function SunHeight(sinValue: real): (h: real)
    ensures h >= 0.0
    ensures h > 0.0 <==> sinValue > 0.0
    ensures sinValue > 0.0 ==> h == sinValue
    ensures sinValue <= 1.0 ==> h <= 1.0
  {
    Max(sinValue, 0.0)
  }

  /** Bevy's lux::RAW_SUNLIGHT. */
  const RawSunlight: real := 130000.0
  /** The directional light's illuminance at night. */
  const Moonlight: real := 100.0
  /** The ambient brightness at night. */
  const NightAmbientBrightness: real := 150.0

  const WarmLight: Color := Srgb(1.0, 0.9, 0.7)
  const TwilightLight: Color := Srgb(1.0, 0.5, 0.3)
  const MoonlightBlue: Color := Srgb(0.3, 0.3, 0.7)
  const DaylightAmbient: Color := Srgb(0.9, 0.95, 1.0)
  const NightAmbient: Color := Srgb(0.2, 0.3, 0.8)

  /** The sun's light colour: white high in the sky, warm lower down, orange
      near the horizon, blue moonlight once the sun has set. */
  function SunColor(h: real): (c: Color)
    ensures c == MoonlightBlue <==> h <= 0.0
    ensures c.r == 1.0 <==> h > 0.0
    ensures c == White <==> h > 0.5
  {
    if h > 0.5 then White
    else if h > 0.1 then WarmLight
    else if h > 0.0 then TwilightLight
    else MoonlightBlue
  }

  /** As the sun climbs, its light's red and green channels never decrease. */
  lemma SunColorBrightens(h1: real, h2: real)
    requires h1 <= h2
    ensures SunColor(h1).r <= SunColor(h2).r
    ensures SunColor(h1).g <= SunColor(h2).g
  {
  }

  /** The square root of a height above the daylight threshold exceeds
      0.316, and is at most one when the height is. */
  lemma DaylightRootBounds(root: real, h: real)
    requires root >= 0.0 && root * root == h
    requires h > 0.1
    ensures root > 0.316
    ensures h <= 1.0 ==> root <= 1.0
  {
    if root > 1.0 {
      assert root * root > root * 1.0;
    }
  }

  /** A square of a ratio in (0, bound] with bound <= 1 is in [0, bound]. */
  lemma SquareOfFraction(x: real, bound: real)
    requires 0.0 < x <= bound <= 1.0
    ensures 0.0 <= x * x <= bound * bound <= bound
  {
    assert x * x <= x * bound <= bound * bound;
    assert bound * bound <= bound * 1.0;
  }

  /** The directional light's illuminance for sun height h. root stands for
      h.powf(0.5) and square for (h / 0.1).powf(2.0). At night it is the
      moonlight; in the twilight band it rises to at most a tenth of raw
      sunlight; in daylight it starts above 0.316 of raw sunlight. */
  function Illuminance(h: real, root: real, square: real): (lux: real)
    requires h > 0.1 ==> root >= 0.0 && root * root == h
    requires 0.0 < h <= 0.1 ==> square == (h / 0.1) * (h / 0.1)
    ensures h <= 0.0 ==> lux == Moonlight
    ensures 0.0 < h <= 0.1 ==> 0.0 <= lux <= RawSunlight * 0.1
    ensures h > 0.1 ==> RawSunlight * 0.316 < lux
    ensures h <= 1.0 ==> lux <= RawSunlight
  {
    if h > 0.1 then
      DaylightRootBounds(root, h);
      RawSunlight * root
    else if h > 0.0 then
      SquareOfFraction(h / 0.1, 1.0);
      RawSunlight * 0.1 * square
    else
      Moonlight
  }

  /** Just after sunrise the sun lights the scene less than the moon did. */
  lemma DawnDimmerThanMoonlight(h: real, root: real, square: real)
    requires 0.0 < h <= 0.008
    requires square == (h / 0.1) * (h / 0.1)
    ensures Illuminance(h, root, square) < Moonlight
  {
    SquareOfFraction(h / 0.1, 0.08);
  }

  /** The ambient brightness; p stands for h.powf(0.3). */
  function AmbientBrightness(h: real, p: real): (b: real)
    requires h > 0.0 ==> p > 0.0
    ensures h <= 0.0 ==> b == NightAmbientBrightness
    ensures b > 0.0
    ensures h > 0.0 && p <= 1.0 ==> b <= 300.0
  {
    if h > 0.0 then 300.0 * p else NightAmbientBrightness
  }

  /** The ambient colour: the daylight tint above the twilight band, blue below. */
  function AmbientColor(h: real): (c: Color)
    ensures c == DaylightAmbient <==> h > 0.1
    ensures c == NightAmbient <==> h <= 0.1
  {
    if h > 0.1 then DaylightAmbient else NightAmbient
  }

  /** The ambient tint is the daylight one exactly when the sun's light is
      white or warm, and blue exactly when it is orange or moonlight. */
  lemma AmbientFollowsSunColor(h: real)
    ensures AmbientColor(h) == DaylightAmbient <==> SunColor(h) in {White, WarmLight}
    ensures AmbientColor(h) == NightAmbient <==> SunColor(h) in {TwilightLight, MoonlightBlue}
  {
  }

  /** The sun's DirectionalLight component. */
  class DirectionalLight {
    var illuminance: real
    var color: Color

    constructor (illuminance: real, color: Color)
      ensures this.illuminance == illuminance && this.color == color
    {
      this.illuminance := illuminance;
      this.color := color;
    }
  }

  /** The AmbientLight resource. */
  class AmbientLight {
    var brightness: real
    var color: Color

    constructor (brightness: real, color: Color)
      ensures this.brightness == brightness && this.color == color
    {
      this.brightness := brightness;
      this.color := color;
    }
  }

  /** update_sun_position. With exactly one sun transform, it is replaced by
      one 100 units out along (cos, height, 0.3) and facing the origin; with
      exactly one directional light, its illuminance and colour follow the
      sun's height; the ambient light always does. Anything not single is
      left alone. sin, cos and powf are the caller's; the requires state the
      facts about powf that the intensity bands rely on. */
  method UpdateSunPosition(timeOfDay: TimeOfDay, sunQuery: seq<AimedTransform>, lightQuery: seq<DirectionalLight>,
                           ambient: AmbientLight, sin: real -> real, cos: real -> real, powf: (real, real) -> real)
    requires forall x :: x > 0.1 ==> powf(x, 0.5) >= 0.0 && powf(x, 0.5) * powf(x, 0.5) == x
    requires forall x :: 0.0 < x <= 1.0 ==> powf(x, 2.0) == x * x
    requires forall x :: x > 0.0 ==> powf(x, 0.3) > 0.0
    modifies if |sunQuery| == 1 then {sunQuery[0]} else {}
    modifies if |lightQuery| == 1 then {lightQuery[0]} else {}
    modifies ambient
    ensures var angle := SunAngle(timeOfDay.time);
      var h := SunHeight(sin(angle));
      && (|sunQuery| == 1 ==>
            sunQuery[0].translation == Scale(Vec3(cos(angle), h, 0.3), 100.0)
            && sunQuery[0].facing == Zero)
      && (|lightQuery| == 1 ==>
            lightQuery[0].illuminance == Illuminance(h, powf(h, 0.5), powf(h / 0.1, 2.0))
            && lightQuery[0].color == SunColor(h))
      && ambient.brightness == AmbientBrightness(h, powf(h, 0.3))
      && ambient.color == AmbientColor(h)
    ensures |sunQuery| != 1 ==> forall i :: 0 <= i < |sunQuery| ==>
      sunQuery[i].translation == old(sunQuery[i].translation) && sunQuery[i].facing == old(sunQuery[i].facing)
    ensures |lightQuery| != 1 ==> forall i :: 0 <= i < |lightQuery| ==>
      lightQuery[i].illuminance == old(lightQuery[i].illuminance) && lightQuery[i].color == old(lightQuery[i].color)
  {
    var time := timeOfDay.time;
    var sunAngle := (time - 0.25) * 2.0 * Pi;
    var sunHeight := Max(sin(sunAngle), 0.0);
    var sunForward := cos(sunAngle);

    if |sunQuery| == 1 {
      var sunTransform := sunQuery[0];
      sunTransform.translation := Scale(Vec3(sunForward, sunHeight, 0.3), 100.0);
      sunTransform.LookAt(Zero);
    }

    if |lightQuery| == 1 {
      var directionalLight := lightQuery[0];
      var baseIntensity :=
        if sunHeight > 0.1 then RawSunlight * powf(sunHeight, 0.5)
        else if sunHeight > 0.0 then RawSunlight * 0.1 * powf(sunHeight / 0.1, 2.0)
        else 100.0;
      directionalLight.illuminance := baseIntensity;
      directionalLight.color :=
        if sunHeight > 0.5 then White
        else if sunHeight > 0.1 then Srgb(1.0, 0.9, 0.7)
        else if sunHeight > 0.0 then Srgb(1.0, 0.5, 0.3)
        else Srgb(0.3, 0.3, 0.7);
    }

    var ambientIntensity := if sunHeight > 0.0 then 300.0 * powf(sunHeight, 0.3) else 150.0;
    ambient.brightness := ambientIntensity;
    ambient.color := if sunHeight > 0.1 then Srgb(0.9, 0.95, 1.0) else Srgb(0.2, 0.3, 0.8);
  }
}
