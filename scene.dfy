/** Vectors, colours and transforms shared by the game's systems.
    Bevy's f32 arithmetic is read as exact real arithmetic throughout. */
module Scene {

  /** f32::abs, f32::min, f32::max and f32::clamp (NaN is outside the model). */
  function Abs(a: real): real { if a < 0.0 then -a else a }

  function Min(a: real, b: real): real { if a <= b then a else b }

  function Max(a: real, b: real): real { if a >= b then a else b }

  function Clamp(a: real, lo: real, hi: real): real
    requires lo <= hi
  {
    if a < lo then lo else if a > hi then hi else a
  }

  /** std::f32::consts::PI, read as a real. */
  const Pi: real := 3.14159265358979

  /** A point or direction in world space (Bevy's Vec3). */
  datatype Vec3 = Vec3(x: real, y: real, z: real)

  const Zero: Vec3 := Vec3(0.0, 0.0, 0.0)
  /** Vec3::Y, the world's up axis. */
  const Up: Vec3 := Vec3(0.0, 1.0, 0.0)

  function Add(a: Vec3, b: Vec3): Vec3 { Vec3(a.x + b.x, a.y + b.y, a.z + b.z) }

  function Sub(a: Vec3, b: Vec3): Vec3 { Vec3(a.x - b.x, a.y - b.y, a.z - b.z) }

  function Scale(a: Vec3, k: real): Vec3 { Vec3(a.x * k, a.y * k, a.z * k) }

  function Neg(a: Vec3): Vec3 { Vec3(-a.x, -a.y, -a.z) }

  function Dot(a: Vec3, b: Vec3): real { a.x * b.x + a.y * b.y + a.z * b.z }

  /** Squared Euclidean length (the model avoids square roots). */
  function NormSq(a: Vec3): real { Dot(a, a) }

  /** A heading as produced by forward() on a body that only ever turns about
      the vertical axis: length one, no vertical component. */
  predicate IsHorizontalUnit(f: Vec3) { f.y == 0.0 && NormSq(f) == 1.0 }

  /** Vec3::lerp: self * (1 - s) + rhs * s. */
  function Lerp(a: Vec3, b: Vec3, s: real): (r: Vec3)
    ensures s == 0.0 ==> r == a
    ensures s == 1.0 ==> r == b
  {
    Add(Scale(a, 1.0 - s), Scale(b, s))
  }

  lemma NormSqScale(v: Vec3, k: real)
    ensures NormSq(Scale(v, k)) == k * k * NormSq(v)
  {
    SquareOfProduct(v.x, k);
    SquareOfProduct(v.y, k);
    SquareOfProduct(v.z, k);
  }

  lemma SquareOfProduct(a: real, k: real)
    ensures (a * k) * (a * k) == k * k * (a * a)
  {
  }

  lemma ProductAssoc(a: real, b: real, c: real)
    ensures (a * b) * c == a * (b * c)
  {
  }

  /** Scaling twice is scaling by the product. */
  lemma ScaleScale(v: Vec3, a: real, b: real)
    ensures Scale(Scale(v, a), b) == Scale(v, a * b)
  {
    ProductAssoc(v.x, a, b);
    ProductAssoc(v.y, a, b);
    ProductAssoc(v.z, a, b);
  }

  lemma DotScale(f: Vec3, k: real)
    ensures Dot(Scale(f, k), f) == k * NormSq(f)
  {
    assert (f.x * k) * f.x == k * (f.x * f.x);
    assert (f.y * k) * f.y == k * (f.y * f.y);
    assert (f.z * k) * f.z == k * (f.z * f.z);
  }

  lemma AddSub(p: Vec3, v: Vec3)
    ensures Sub(Add(p, v), p) == v
  {
  }

  lemma ScaleNeg(f: Vec3, d: real)
    ensures Scale(Neg(f), d) == Scale(f, -d)
  {
    assert (-f.x) * d == f.x * (-d);
    assert (-f.y) * d == f.y * (-d);
    assert (-f.z) * d == f.z * (-d);
  }

  lemma LerpScalar(a: real, b: real, k: real)
    ensures a * (1.0 - k) + b * k - b == (a - b) * (1.0 - k)
  {
  }

  /** After a lerp step the offset to the goal is the old offset scaled by 1 - s. */
  lemma LerpOffset(p: Vec3, t: Vec3, s: real)
    ensures Sub(Lerp(p, t, s), t) == Scale(Sub(p, t), 1.0 - s)
  {
    LerpScalar(p.x, t.x, s);
    LerpScalar(p.y, t.y, s);
    LerpScalar(p.z, t.z, s);
  }

  /** An sRGB colour (Color::srgb); Color::WHITE is Srgb(1, 1, 1). */
  datatype Color = Srgb(r: real, g: real, b: real)

  const White: Color := Srgb(1.0, 1.0, 1.0)

  /** The Transform of a body that only turns about one fixed axis: the car
      about the world's vertical axis (rotate_y), each wheel about its own
      axle (rotate_local_y, its local Y axis, which the wheel's spawn rotation
      lays horizontal). Turns about one fixed axis add up, so the orientation
      is one accumulated angle about that axis: the car's yaw, a wheel's roll. */
  class Transform {
    var translation: Vec3
    var angle: real

    constructor (translation: Vec3, angle: real)
      ensures this.translation == translation && this.angle == angle
    {
      this.translation := translation;
      this.angle := angle;
    }

    /** rotate_y / rotate_local_y: turn by delta radians about the body's axis. */
    method RotateY(delta: real)
      modifies this
      ensures angle == old(angle) + delta
      ensures translation == old(translation)
    {
      angle := angle + delta;
    }
  }

  /** The Transform of a body whose orientation is set with look_at or
      looking_at with Vec3::Y as up (the chase camera, the sun): its
      orientation is the point it was last turned to face. */
  class AimedTransform {
    var translation: Vec3
    var facing: Vec3

    constructor (translation: Vec3, facing: Vec3)
      ensures this.translation == translation && this.facing == facing
    {
      this.translation := translation;
      this.facing := facing;
    }

    /** look_at(target, Vec3::Y): keep the position, face target. */
    method LookAt(target: Vec3)
      modifies this
      ensures facing == target
      ensures translation == old(translation)
    {
      facing := target;
    }
  }
}
