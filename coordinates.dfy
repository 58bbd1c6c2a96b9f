/**
 * Coordinates (adept/transforms/_coordinate.py).
 *
 * The class hierarchy Coordinate2D -> Coordinate3D -> World/Vehicle/Camera
 * (and Coordinate2D -> ImagePlane/ImagePixel) adds no behaviour beyond the
 * number of components, so it is one value type with a planar and a spatial
 * variant, each tagged with the frame its constructor stands for.
 */
module Coordinates {
  import opened Lookup

  datatype PlanarFrame = PlainPlanar | ImagePlane | ImagePixel
  datatype SpatialFrame = PlainSpatial | World | VehicleFrame | Camera

  datatype Coordinate =
    | Planar(planarFrame: PlanarFrame, x: real, y: real)
    | Spatial(spatialFrame: SpatialFrame, x: real, y: real, z: real)

  /** The components a key can name. */
  datatype Axis = X | Y | Z

  /** The keys the source accepts for each component. */
  function Aliases(a: Axis): set<Key>
  {
    match a
    case X => {Int(0), Str("x"), Str("X")}
    case Y => {Int(1), Str("y"), Str("Y")}
    case Z => {Int(2), Str("z"), Str("Z")}
  }

  /** The components a coordinate of this variant has. */
  predicate HasAxis(c: Coordinate, a: Axis)
  {
    a != Z || c.Spatial?
  }

  function Component(c: Coordinate, a: Axis): real
    requires HasAxis(c, a)
  {
    match a
    case X => c.x
    case Y => c.y
    case Z => c.z
  }

  // Constructors: components are stored unchanged, every one defaults to 0;
  // the frame subclasses only forward to the 2-D or 3-D constructor.

  function Coordinate2D(x: real := 0.0, y: real := 0.0): Coordinate { Planar(PlainPlanar, x, y) }
  function Coordinate3D(x: real := 0.0, y: real := 0.0, z: real := 0.0): Coordinate { Spatial(PlainSpatial, x, y, z) }
  function WorldCoordinate(x: real := 0.0, y: real := 0.0, z: real := 0.0): Coordinate { Spatial(World, x, y, z) }
  function VehicleCoordinate(x: real := 0.0, y: real := 0.0, z: real := 0.0): Coordinate { Spatial(VehicleFrame, x, y, z) }
  function CameraCoordinate(x: real := 0.0, y: real := 0.0, z: real := 0.0): Coordinate { Spatial(Camera, x, y, z) }
  function ImagePlaneCoordinate(x: real := 0.0, y: real := 0.0): Coordinate { Planar(ImagePlane, x, y) }
  function ImagePixelCoordinate(x: real := 0.0, y: real := 0.0): Coordinate { Planar(ImagePixel, x, y) }

  // `_is_key_for_x/y/z`: each accepts exactly its axis's aliases, and no key
  // names two axes, so the order of the tests in `__getitem__` is immaterial.

  function IsKeyForX(key: Key): (r: bool)
    ensures r <==> key in Aliases(X)
    ensures r ==> key !in Aliases(Y) + Aliases(Z)
  { key == Int(0) || key == Str("x") || key == Str("X") }

  function IsKeyForY(key: Key): (r: bool)
    ensures r <==> key in Aliases(Y)
    ensures r ==> key !in Aliases(X) + Aliases(Z)
  { key == Int(1) || key == Str("y") || key == Str("Y") }

  function IsKeyForZ(key: Key): (r: bool)
    ensures r <==> key in Aliases(Z)
    ensures r ==> key !in Aliases(X) + Aliases(Y)
  { key == Int(2) || key == Str("z") || key == Str("Z") }

  /** `Coordinate2D.__getitem__`: reads x and y of any coordinate. */
  function GetPlanar(c: Coordinate, key: Key): (r: Result<real>)
    ensures key in Aliases(X) ==> r == Ok(c.x)
    ensures key in Aliases(Y) ==> r == Ok(c.y)
    ensures r.Err? <==> key !in Aliases(X) + Aliases(Y)
    ensures r.Err? ==> r.error == Unsupported(key)
  {
    if IsKeyForX(key) then Ok(c.x)
    else if IsKeyForY(key) then Ok(c.y)
    else Err(Unsupported(key))
  }

  /**
   * `__getitem__` of a coordinate as written: a planar coordinate uses the
   * 2-D lookup; a spatial one tries it and falls back to z only when it
   * raised `KeyError`, so the `TypeError` an integer key causes escapes.
   */
  function Get(c: Coordinate, key: Key): (r: Result<real>)
    ensures key in Aliases(X) ==> r == Ok(c.x)
    ensures key in Aliases(Y) ==> r == Ok(c.y)
    ensures c.Spatial? && key in {Str("z"), Str("Z")} ==> r == Ok(c.z)
    ensures c.Spatial? && key == Int(2) ==> r == Err(TypeError)
    ensures c.Planar? ==> r == GetPlanar(c, key)
    ensures r.Ok? <==> key in Aliases(X) + Aliases(Y) || (c.Spatial? && key in {Str("z"), Str("Z")})
    ensures key.Str? && r.Err? ==> r.error == KeyError
    ensures key.Int? && r.Err? ==> r.error == TypeError
  {
    match c
    case Planar(_, _, _) => GetPlanar(c, key)
    case Spatial(_, _, _, z) =>
      match GetPlanar(c, key)
      case Ok(v) => Ok(v)
      case Err(e) =>
        if e != KeyError then Err(e)
        else if IsKeyForZ(key) then Ok(z)
        else Err(Unsupported(key))
  }

  /** The evidently intended lookup: every alias of z, including 2, reads z. */
  function GetIntended(c: Coordinate, key: Key): (r: Result<real>)
    ensures c.Planar? ==> r == Get(c, key)
    ensures c.Spatial? && key != Int(2) ==> r == Get(c, key)
  {
    match c
    case Planar(_, _, _) => GetPlanar(c, key)
    case Spatial(_, _, _, z) =>
      if IsKeyForX(key) || IsKeyForY(key) then GetPlanar(c, key)
      else if IsKeyForZ(key) then Ok(z)
      else Err(Unsupported(key))
  }

  /** With the intended lookup, every alias of a component reads that component. */
  lemma IntendedAliasesAgree(c: Coordinate, a: Axis, key: Key)
    requires HasAxis(c, a) && key in Aliases(a)
    ensures GetIntended(c, key) == Ok(Component(c, a))
  {
  }

  /** As written, the ordinal alias 2 of z raises where its named aliases read z. */
  lemma OrdinalZRaises(c: Coordinate)
    requires c.Spatial?
    ensures Int(2) in Aliases(Z) && Str("z") in Aliases(Z)
    ensures Get(c, Int(2)) == Err(TypeError)
    ensures Get(c, Str("z")) == Ok(c.z)
  {
  }

  /** Every constructor reads back the components it was given, through every alias. */
  lemma ConstructorsReadBack(x: real, y: real, z: real, a: Axis, key: Key)
    requires key in Aliases(a) && a != Z
    ensures Get(Coordinate2D(x, y), key) == Get(Coordinate3D(x, y, z), key)
    ensures Get(WorldCoordinate(x, y, z), key) == Get(Coordinate3D(x, y, z), key)
    ensures Get(VehicleCoordinate(x, y, z), key) == Get(Coordinate3D(x, y, z), key)
    ensures Get(CameraCoordinate(x, y, z), key) == Get(Coordinate3D(x, y, z), key)
    ensures Get(ImagePlaneCoordinate(x, y), key) == Get(Coordinate2D(x, y), key)
    ensures Get(ImagePixelCoordinate(x, y), key) == Get(Coordinate2D(x, y), key)
    ensures Get(Coordinate3D(x, y, z), key) == Ok(if a == X then x else y)
    ensures Get(Coordinate3D(), key) == Ok(0.0) && Get(Coordinate2D(), key) == Ok(0.0)
  {
  }
}
