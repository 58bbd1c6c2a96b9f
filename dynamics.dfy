/**
 * Dynamics vectors (adept/vehicles/_dynamics.py): Vector2D and its
 * subclass Vector3D, with the same key dispatch as the coordinates.
 */
module Dynamics {
  import opened Lookup

  datatype Vector =
    | Vector2D(x: real := 0.0, y: real := 0.0)
    | Vector3D(x: real := 0.0, y: real := 0.0, z: real := 0.0)

  /** The components a key can name. */
  datatype VectorAxis = VX | VY | VZ

  /** The keys the source accepts for each component. */
  function VectorAliases(a: VectorAxis): set<Key>
  {
    match a
    case VX => {Int(0), Str("x"), Str("X")}
    case VY => {Int(1), Str("y"), Str("Y")}
    case VZ => {Int(2), Str("z"), Str("Z")}
  }

  // `_is_key_for_x/y/z`: each accepts exactly its component's aliases, the
  // only integer key of a component is its position, and no key names two
  // components.

  function IsKeyForX(key: Key): (r: bool)
    ensures r <==> key in VectorAliases(VX)
    ensures r && key.Int? ==> key.i == 0
    ensures r ==> key !in VectorAliases(VY) + VectorAliases(VZ)
  { key == Int(0) || key == Str("x") || key == Str("X") }

  function IsKeyForY(key: Key): (r: bool)
    ensures r <==> key in VectorAliases(VY)
    ensures r && key.Int? ==> key.i == 1
    ensures r ==> key !in VectorAliases(VX) + VectorAliases(VZ)
  { key == Int(1) || key == Str("y") || key == Str("Y") }

  function IsKeyForZ(key: Key): (r: bool)
    ensures r <==> key in VectorAliases(VZ)
    ensures r && key.Int? ==> key.i == 2
    ensures r ==> key !in VectorAliases(VX) + VectorAliases(VY)
  { key == Int(2) || key == Str("z") || key == Str("Z") }

  /** `Vector2D.__getitem__`: reads x and y of any vector. */
  function GetPlanar(v: Vector, key: Key): (r: Result<real>)
    ensures key in VectorAliases(VX) ==> r == Ok(v.x)
    ensures key in VectorAliases(VY) ==> r == Ok(v.y)
    ensures r.Err? <==> key !in VectorAliases(VX) + VectorAliases(VY)
    ensures r.Err? ==> r.error == Unsupported(key)
  {
    if IsKeyForX(key) then Ok(v.x)
    else if IsKeyForY(key) then Ok(v.y)
    else Err(Unsupported(key))
  }

  /**
   * `__getitem__` as written: Vector3D tries the 2-D lookup and reads z only
   * after a `KeyError`, so the `TypeError` raised for the integer 2 escapes.
   */
  function Get(v: Vector, key: Key): (r: Result<real>)
    ensures key in VectorAliases(VX) ==> r == Ok(v.x)
    ensures key in VectorAliases(VY) ==> r == Ok(v.y)
    ensures v.Vector3D? && key in {Str("z"), Str("Z")} ==> r == Ok(v.z)
    ensures v.Vector3D? && key == Int(2) ==> r == Err(TypeError)
    ensures v.Vector2D? ==> r == GetPlanar(v, key)
    ensures r.Ok? <==> key in VectorAliases(VX) + VectorAliases(VY)
                       || (v.Vector3D? && key in {Str("z"), Str("Z")})
    ensures key.Str? && r.Err? ==> r.error == KeyError
    ensures key.Int? && r.Err? ==> r.error == TypeError
  {
    match v
    case Vector2D(_, _) => GetPlanar(v, key)
    case Vector3D(_, _, z) =>
      match GetPlanar(v, key)
      case Ok(c) => Ok(c)
      case Err(e) =>
        if e != KeyError then Err(e)
        else if IsKeyForZ(key) then Ok(z)
        else Err(Unsupported(key))
  }

  /** The evidently intended lookup, in which 2 is an alias of z like "z" and "Z". */
  function GetIntended(v: Vector, key: Key): (r: Result<real>)
    ensures key != Int(2) ==> r == Get(v, key)
    ensures v.Vector3D? && IsKeyForZ(key) ==> r == Ok(v.z)
  {
    match v
    case Vector2D(_, _) => GetPlanar(v, key)
    case Vector3D(_, _, z) =>
      if IsKeyForX(key) || IsKeyForY(key) then GetPlanar(v, key)
      else if IsKeyForZ(key) then Ok(z)
      else Err(Unsupported(key))
  }

  /** As written, `v[2]` raises while `v["z"]` reads z; intended, both read z. */
  lemma OrdinalZRaises(x: real, y: real, z: real)
    ensures Get(Vector3D(x, y, z), Int(2)) == Err(TypeError)
    ensures Get(Vector3D(x, y, z), Str("z")) == Ok(z)
    ensures GetIntended(Vector3D(x, y, z), Int(2)) == GetIntended(Vector3D(x, y, z), Str("z")) == Ok(z)
  {
  }

  /** The constructors store their arguments unchanged and default every component to 0. */
  lemma ConstructorsReadBack(x: real, y: real, z: real)
    ensures Get(Vector3D(x, y, z), Str("x")) == Ok(x) && Get(Vector3D(x, y, z), Str("y")) == Ok(y)
    ensures Get(Vector3D(x, y, z), Str("Z")) == Ok(z)
    ensures Get(Vector2D(x), Str("Y")) == Ok(0.0) && Get(Vector3D(), Str("z")) == Ok(0.0)
  {
  }
}
