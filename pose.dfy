/**
 * Poses (adept/transforms/_pose.py): Euler angles and quaternions, their
 * key dispatch, and quaternion multiplication.
 */
module Poses {
  import opened Lookup

  /** The imaginary part of a quaternion, the source's list `[x, y, z]`. */
  datatype Vec3 = Vec3(x: real, y: real, z: real)

  /** The positional order of EulerAngle is pitch, roll, yaw. */
  datatype Pose =
    | EulerAngle(pitch: real := 0.0, roll: real := 0.0, yaw: real := 0.0)
    | Quaternion(w: real, v: Vec3)

  /** `Quaternion(w=0.0, x=0.0, y=0.0, z=0.0)`. */
  function NewQuaternion(w: real := 0.0, x: real := 0.0, y: real := 0.0, z: real := 0.0): (q: Pose)
    ensures Get(q, Str("w")) == Ok(Scalar(w)) && Get(q, Str("v")) == Ok(Vector(Vec3(x, y, z)))
    ensures Get(q, Int(1)) == Ok(Scalar(x)) && Get(q, Int(2)) == Ok(Scalar(y)) && Get(q, Int(3)) == Ok(Scalar(z))
  {
    Quaternion(w, Vec3(x, y, z))
  }

  // ---------------------------------------------------------------- keys

  /** The angles an Euler key can name. */
  datatype Angle = Pitch | Roll | Yaw

  /** The keys the source accepts for each angle. */
  function AngleAliases(a: Angle): set<Key>
  {
    match a
    case Pitch => {Int(0), Str("pitch"), Str("p"), Str("P")}
    case Roll => {Int(1), Str("roll"), Str("r"), Str("R")}
    case Yaw => {Int(2), Str("yaw"), Str("y"), Str("Y")}
  }

  // `_is_key_for_pitch/roll/yaw`: each accepts exactly its angle's aliases,
  // the only integer key of an angle is its position, and no key names two
  // angles.

  function IsKeyForPitch(key: Key): (r: bool)
    ensures r <==> key in AngleAliases(Pitch)
    ensures r && key.Int? ==> key.i == 0
    ensures r ==> key !in AngleAliases(Roll) + AngleAliases(Yaw)
  { key == Int(0) || key == Str("pitch") || key == Str("p") || key == Str("P") }

  function IsKeyForRoll(key: Key): (r: bool)
    ensures r <==> key in AngleAliases(Roll)
    ensures r && key.Int? ==> key.i == 1
    ensures r ==> key !in AngleAliases(Pitch) + AngleAliases(Yaw)
  { key == Int(1) || key == Str("roll") || key == Str("r") || key == Str("R") }

  function IsKeyForYaw(key: Key): (r: bool)
    ensures r <==> key in AngleAliases(Yaw)
    ensures r && key.Int? ==> key.i == 2
    ensures r ==> key !in AngleAliases(Pitch) + AngleAliases(Roll)
  { key == Int(2) || key == Str("yaw") || key == Str("y") || key == Str("Y") }

  /** `EulerAngle.__getitem__`. */
  function GetAngle(pitch: real, roll: real, yaw: real, key: Key): (r: Result<real>)
    ensures key in AngleAliases(Pitch) ==> r == Ok(pitch)
    ensures key in AngleAliases(Roll) ==> r == Ok(roll)
    ensures key in AngleAliases(Yaw) ==> r == Ok(yaw)
    ensures r.Err? <==> key !in AngleAliases(Pitch) + AngleAliases(Roll) + AngleAliases(Yaw)
    ensures r.Err? ==> r.error == Unsupported(key)
  {
    if IsKeyForPitch(key) then Ok(pitch)
    else if IsKeyForRoll(key) then Ok(roll)
    else if IsKeyForYaw(key) then Ok(yaw)
    else Err(Unsupported(key))
  }

  /** What a quaternion key reads: the real part, the whole vector, or one component. */
  datatype Part = Scalar(value: real) | Vector(vec: Vec3)

  /** The parts a quaternion key can name. */
  datatype QuaternionPart = RealPart | ImaginaryPart | XPart | YPart | ZPart

  /** The keys the source accepts for each part. */
  function PartAliases(q: QuaternionPart): set<Key>
  {
    match q
    case RealPart => {Int(0), Str("w"), Str("s"), Str("r"), Str("real")}
    case ImaginaryPart => {Str("i"), Str("v"), Str("img"), Str("imaginary")}
    case XPart => {Int(1), Str("x")}
    case YPart => {Int(2), Str("y")}
    case ZPart => {Int(3), Str("z")}
  }

  // `_is_key_for_real/img/x/y/z`: each accepts exactly its part's aliases;
  // the real part and the components answer their position, the imaginary
  // vector only string keys, and no key names two parts.

  function IsKeyForReal(key: Key): (r: bool)
    ensures r <==> key in PartAliases(RealPart)
    ensures r && key.Int? ==> key.i == 0
    ensures r ==> key !in PartAliases(ImaginaryPart) + PartAliases(XPart) + PartAliases(YPart) + PartAliases(ZPart)
  { key == Int(0) || key == Str("w") || key == Str("s") || key == Str("r") || key == Str("real") }

  function IsKeyForImaginary(key: Key): (r: bool)
    ensures r <==> key in PartAliases(ImaginaryPart)
    ensures r ==> key.Str?
    ensures r ==> key !in PartAliases(RealPart) + PartAliases(XPart) + PartAliases(YPart) + PartAliases(ZPart)
  { key == Str("i") || key == Str("v") || key == Str("img") || key == Str("imaginary") }

  function IsKeyForVx(key: Key): (r: bool)
    ensures r <==> key in PartAliases(XPart)
    ensures r && key.Int? ==> key.i == 1
    ensures r ==> key !in PartAliases(RealPart) + PartAliases(ImaginaryPart) + PartAliases(YPart) + PartAliases(ZPart)
  { key == Int(1) || key == Str("x") }

  function IsKeyForVy(key: Key): (r: bool)
    ensures r <==> key in PartAliases(YPart)
    ensures r && key.Int? ==> key.i == 2
    ensures r ==> key !in PartAliases(RealPart) + PartAliases(ImaginaryPart) + PartAliases(XPart) + PartAliases(ZPart)
  { key == Int(2) || key == Str("y") }

  function IsKeyForVz(key: Key): (r: bool)
    ensures r <==> key in PartAliases(ZPart)
    ensures r && key.Int? ==> key.i == 3
    ensures r ==> key !in PartAliases(RealPart) + PartAliases(ImaginaryPart) + PartAliases(XPart) + PartAliases(YPart)
  { key == Int(3) || key == Str("z") }

  /** `Quaternion.__getitem__`. */
  function GetPart(w: real, v: Vec3, key: Key): (r: Result<Part>)
    ensures key in PartAliases(RealPart) ==> r == Ok(Scalar(w))
    ensures key in PartAliases(ImaginaryPart) ==> r == Ok(Vector(v))
    ensures key in PartAliases(XPart) ==> r == Ok(Scalar(v.x))
    ensures key in PartAliases(YPart) ==> r == Ok(Scalar(v.y))
    ensures key in PartAliases(ZPart) ==> r == Ok(Scalar(v.z))
    ensures key.Int? ==> (r.Ok? <==> 0 <= key.i <= 3)
    ensures key.Str? ==> (r.Ok? <==> key.s in {"w", "s", "r", "real", "i", "v", "img", "imaginary", "x", "y", "z"})
    ensures r.Err? ==> r.error == Unsupported(key)
  {
    if IsKeyForReal(key) then Ok(Scalar(w))
    else if IsKeyForImaginary(key) then Ok(Vector(v))
    else if IsKeyForVx(key) then Ok(Scalar(v.x))
    else if IsKeyForVy(key) then Ok(Scalar(v.y))
    else if IsKeyForVz(key) then Ok(Scalar(v.z))
    else Err(Unsupported(key))
  }

  /** `__getitem__` of either pose. */
  function Get(p: Pose, key: Key): (r: Result<Part>)
    ensures p.EulerAngle? ==> r == (match GetAngle(p.pitch, p.roll, p.yaw, key)
                                    case Ok(a) => Ok(Scalar(a))
                                    case Err(e) => Err(e))
    ensures p.Quaternion? ==> r == GetPart(p.w, p.v, key)
  {
    match p
    case EulerAngle(pitch, roll, yaw) =>
      (match GetAngle(pitch, roll, yaw, key)
       case Ok(a) => Ok(Scalar(a))
       case Err(e) => Err(e))
    case Quaternion(w, v) => GetPart(w, v, key)
  }

  /**
   * The Euler constructor's positional order is pitch, roll, yaw, and every
   * angle left out is 0: a default angle reads 0.0 under every key it accepts.
   */
  lemma EulerAngleDefaults(pitch: real, roll: real, yaw: real)
    ensures Get(EulerAngle(pitch, roll, yaw), Int(0)) == Ok(Scalar(pitch))
    ensures Get(EulerAngle(pitch, roll, yaw), Int(1)) == Ok(Scalar(roll))
    ensures Get(EulerAngle(pitch, roll, yaw), Int(2)) == Ok(Scalar(yaw))
    ensures forall key :: Get(EulerAngle(), key).Ok? ==> Get(EulerAngle(), key) == Ok(Scalar(0.0))
    ensures Get(EulerAngle(pitch), Str("roll")) == Get(EulerAngle(pitch, roll), Str("yaw")) == Ok(Scalar(0.0))
  {
  }

  // ---------------------------------------------------------------- products

  function Dot(a: Vec3, b: Vec3): real { a.x * b.x + a.y * b.y + a.z * b.z }
  function Cross(a: Vec3, b: Vec3): Vec3 { Vec3(a.y * b.z - a.z * b.y, a.z * b.x - a.x * b.z, a.x * b.y - a.y * b.x) }
  function Scale(k: real, a: Vec3): Vec3 { Vec3(k * a.x, k * a.y, k * a.z) }
  function Add(a: Vec3, b: Vec3): Vec3 { Vec3(a.x + b.x, a.y + b.y, a.z + b.z) }

  /** The right operand of `*`: a number, a quaternion, or any other value. */
  datatype Operand = Number(k: real) | Quat(w: real, v: Vec3) | Other

  /**
   * `Quaternion.__mul__` as written: a number scales every part; for a
   * quaternion the vector part `v2` is taken from the left operand.
   */
  function MulAsWritten(w1: real, v1: Vec3, other: Operand): (r: Result<Pose>)
    ensures r.Ok? <==> !other.Other?
    ensures r.Ok? ==> r.value.Quaternion?
    ensures r.Err? ==> r.error == TypeError
  {
    if other.Number? then Ok(Quaternion(other.k * w1, Scale(other.k, v1)))
    else if other.Quat? then
      var w2, v2 := other.w, v1;
      Ok(Quaternion(w1 * w2 - Dot(v1, v2), Add(Add(Scale(w1, v2), Scale(w2, v1)), Cross(v1, v2))))
    else Err(TypeError)
  }

  /**
   * As written, `q1 * q2` is the documented product of `q1` with the
   * quaternion made of `q2`'s scalar part and `q1`'s vector part: the
   * right operand's vector part never affects it.
   */
  lemma MulAsWrittenUsesLeftVector(w1: real, v1: Vec3, w2: real, v2: Vec3)
    ensures MulAsWritten(w1, v1, Quat(w2, v2)) == Mul(w1, v1, Quat(w2, v1))
  {
    var written, documented := MulAsWritten(w1, v1, Quat(w2, v2)), Mul(w1, v1, Quat(w2, v1));
    assert written.value.w == w1 * w2 - Dot(v1, v1) == documented.value.w;
    assert written.value.v == Add(Add(Scale(w1, v1), Scale(w2, v1)), Cross(v1, v1)) == documented.value.v;
  }

  /**
   * As written, the product of two quaternions is `(w1 w2 - |v1|^2, (w1 + w2) v1)`.
   */
  lemma MulAsWrittenClosedForm(w1: real, v1: Vec3, w2: real, v2: Vec3)
    ensures MulAsWritten(w1, v1, Quat(w2, v2)).Ok?
    ensures MulAsWritten(w1, v1, Quat(w2, v2)).value.w == w1 * w2 - Dot(v1, v1)
    ensures MulAsWritten(w1, v1, Quat(w2, v2)).value.v == Scale(w1 + w2, v1)
  {
    var r := MulAsWritten(w1, v1, Quat(w2, v2)).value;
    assert r.v == Add(Add(Scale(w1, v1), Scale(w2, v1)), Cross(v1, v1));
    CrossSelf(v1);
    ScaleDistributes(w1, w2, v1);
  }

  /** As written, the product of two pure quaternions is `(-|v1|^2, 0)`. */
  lemma MulAsWrittenPure(v1: Vec3, v2: Vec3)
    ensures MulAsWritten(0.0, v1, Quat(0.0, v2)) == Ok(Quaternion(-Dot(v1, v1), Vec3(0.0, 0.0, 0.0)))
  {
    MulAsWrittenUsesLeftVector(0.0, v1, 0.0, v2);
    MulPure(v1, v1);
    CrossSelf(v1);
  }

  /**
   * As written, two pure quaternions multiply to the documented product
   * only when their vectors are parallel: the code's vector part is 0
   * where the documented one is `v1 x v2`.
   */
  lemma MulAsWrittenDiffers(v1: Vec3, v2: Vec3)
    ensures Mul(0.0, v1, Quat(0.0, v2)) == MulAsWritten(0.0, v1, Quat(0.0, v2)) ==> Cross(v1, v2) == Vec3(0.0, 0.0, 0.0)
  {
    MulAsWrittenPure(v1, v2);
    MulPure(v1, v2);
  }

  /** As written, `1 * (w + v)` drops `v`. */
  lemma MulAsWrittenDropsVector(w: real, v: Vec3)
    ensures MulAsWritten(1.0, Vec3(0.0, 0.0, 0.0), Quat(w, v)) == Ok(Quaternion(w, Vec3(0.0, 0.0, 0.0)))
  {
    MulAsWrittenUsesLeftVector(1.0, Vec3(0.0, 0.0, 0.0), w, v);
    MulIdentity(w, Vec3(0.0, 0.0, 0.0));
  }

  /**
   * As written, the unit quaternion 1 is not a left identity: for every
   * quaternion with a non-zero vector part, such as i, the code's `1 * q`
   * differs from the documented `1 * q == q`.
   */
  lemma MulAsWrittenCounterexample(w: real, v: Vec3)
    requires v != Vec3(0.0, 0.0, 0.0)
    ensures MulAsWritten(1.0, Vec3(0.0, 0.0, 0.0), Quat(w, v)) != Mul(1.0, Vec3(0.0, 0.0, 0.0), Quat(w, v))
  {
    MulAsWrittenDropsVector(w, v);
    MulIdentity(w, v);
  }

  /**
   * The product the class documents, `q1 q2 = (w1 w2 - v1.v2) + w1 v2 + w2 v1 + v1 x v2`,
   * with `v2` taken from the right operand.
   */
  function Mul(w1: real, v1: Vec3, other: Operand): (r: Result<Pose>)
    ensures r.Ok? <==> !other.Other?
    ensures r.Ok? ==> r.value.Quaternion?
    ensures r.Err? ==> r.error == TypeError
  {
    if other.Number? then Ok(Quaternion(other.k * w1, Scale(other.k, v1)))
    else if other.Quat? then
      var w2, v2 := other.w, other.v;
      Ok(Quaternion(w1 * w2 - Dot(v1, v2), Add(Add(Scale(w1, v2), Scale(w2, v1)), Cross(v1, v2))))
    else Err(TypeError)
  }

  /** The unit quaternion is a two-sided identity of the documented product. */
  lemma MulIdentity(w: real, v: Vec3)
    ensures Mul(1.0, Vec3(0.0, 0.0, 0.0), Quat(w, v)) == Ok(Quaternion(w, v))
    ensures Mul(w, v, Quat(1.0, Vec3(0.0, 0.0, 0.0))) == Ok(Quaternion(w, v))
  {
  }

  /** The documented product of two pure quaternions is `(-v1.v2, v1 x v2)`. */
  lemma MulPure(v1: Vec3, v2: Vec3)
    ensures Mul(0.0, v1, Quat(0.0, v2)) == Ok(Quaternion(-Dot(v1, v2), Cross(v1, v2)))
  {
    var o := Vec3(0.0, 0.0, 0.0);
    ScaleByZero(v1);
    ScaleByZero(v2);
    assert Mul(0.0, v1, Quat(0.0, v2)) == Ok(Quaternion(0.0 * 0.0 - Dot(v1, v2), Add(Add(o, o), Cross(v1, v2))));
  }

  lemma ScaleByZero(v: Vec3)
    ensures Scale(0.0, v) == Vec3(0.0, 0.0, 0.0)
  {
  }

  lemma CrossSelf(v: Vec3)
    ensures Cross(v, v) == Vec3(0.0, 0.0, 0.0)
  {
  }

  lemma ScaleDistributes(a: real, b: real, v: Vec3)
    ensures Add(Add(Scale(a, v), Scale(b, v)), Vec3(0.0, 0.0, 0.0)) == Scale(a + b, v)
  {
    assert (a + b) * v.x == a * v.x + b * v.x;
    assert (a + b) * v.y == a * v.y + b * v.y;
    assert (a + b) * v.z == a * v.z + b * v.z;
  }

  /** Off quaternion operands the code and the documented product agree. */
  lemma MulAgreesOffQuaternions(w1: real, v1: Vec3, other: Operand)
    requires !other.Quat?
    ensures Mul(w1, v1, other) == MulAsWritten(w1, v1, other)
  {
  }

  /**
   * `q * k` for a number k multiplies the real part and every component of
   * the vector by k, so the norm's square is scaled by k's square.
   */
  lemma ScalarMulScalesNorm(w: real, v: Vec3, k: real)
    ensures Mul(w, v, Number(k)).Ok?
    ensures var r := Mul(w, v, Number(k)).value;
            r.w == w * k && r.v.x == v.x * k && r.v.y == v.y * k && r.v.z == v.z * k
    ensures var r := Mul(w, v, Number(k)).value;
            r.w * r.w + Dot(r.v, r.v) == k * k * (w * w + Dot(v, v))
  {
  }
}
