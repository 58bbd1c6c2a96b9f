/**
 * Vehicles (adept/vehicles/_vehicle.py): the configuration lookup every
 * vehicle offers and the two vehicle states with their key dispatch.
 */
module Vehicles {
  import opened Lookup
  import opened Coordinates
  import opened Poses
  import opened Dynamics

  /** `Vehicle.get_config`: the configured value, or `None` for an attribute never configured. */
  function GetConfig<T>(configMap: map<string, T>, attr: string): (r: Option<T>)
    ensures r.Some? <==> attr in configMap
    ensures r.Some? ==> r.value == configMap[attr]
  {
    if attr in configMap then Some(configMap[attr]) else None
  }

  /**
   * `BaseVehicleState(coord, pose)` and its subclass
   * `SimpleDynamicsVehicleState(coord, pose, velocity)`.
   */
  datatype VehicleState =
    | BaseState(coord: Coordinate, pose: Pose)
    | SimpleDynamicsState(coord: Coordinate, pose: Pose, velocity: Vector)

  /** What a key of a vehicle state reads. */
  datatype StatePart = CoordPart(coord: Coordinate) | PosePart(pose: Pose) | VelocityPart(velocity: Vector)

  /** The parts a key can name. */
  datatype Component = CoordComponent | PoseComponent | VelocityComponent

  function Aliases(c: Component): set<Key>
  {
    match c
    case CoordComponent => {Int(0), Str("c"), Str("coord")}
    case PoseComponent => {Int(1), Str("p"), Str("pose")}
    case VelocityComponent => {Int(2), Str("v"), Str("velocity")}
  }

  predicate HasComponent(s: VehicleState, c: Component)
  {
    c != VelocityComponent || s.SimpleDynamicsState?
  }

  function Part(s: VehicleState, c: Component): StatePart
    requires HasComponent(s, c)
  {
    match c
    case CoordComponent => CoordPart(s.coord)
    case PoseComponent => PosePart(s.pose)
    case VelocityComponent => VelocityPart(s.velocity)
  }

  // `_is_key_for_coord/pose/velocity`: each accepts exactly its component's
  // aliases, and no key names two components.

  function IsKeyForCoord(key: Key): (r: bool)
    ensures r <==> key in Aliases(CoordComponent)
    ensures r ==> key !in Aliases(PoseComponent) + Aliases(VelocityComponent)
  { key == Int(0) || key == Str("c") || key == Str("coord") }

  function IsKeyForPose(key: Key): (r: bool)
    ensures r <==> key in Aliases(PoseComponent)
    ensures r ==> key !in Aliases(CoordComponent) + Aliases(VelocityComponent)
  { key == Int(1) || key == Str("p") || key == Str("pose") }

  function IsKeyForVelocity(key: Key): (r: bool)
    ensures r <==> key in Aliases(VelocityComponent)
    ensures r ==> key !in Aliases(CoordComponent) + Aliases(PoseComponent)
  { key == Int(2) || key == Str("v") || key == Str("velocity") }

  /** `BaseVehicleState.__getitem__`, which the dynamics state calls first. */
  function BaseGet(s: VehicleState, key: Key): (r: Result<StatePart>)
    ensures key in Aliases(CoordComponent) ==> r == Ok(CoordPart(s.coord))
    ensures key in Aliases(PoseComponent) ==> r == Ok(PosePart(s.pose))
    ensures r.Err? <==> key !in Aliases(CoordComponent) + Aliases(PoseComponent)
    ensures r.Err? ==> r.error == Unsupported(key)
  {
    if IsKeyForCoord(key) then Ok(CoordPart(s.coord))
    else if IsKeyForPose(key) then Ok(PosePart(s.pose))
    else Err(Unsupported(key))
  }

  /**
   * `__getitem__` as written: the dynamics state retries the velocity
   * aliases only after the base lookup raised `KeyError`; for the integer
   * key 2 the base lookup raises `TypeError`, which escapes.
   */
  function Get(s: VehicleState, key: Key): (r: Result<StatePart>)
    ensures key in Aliases(CoordComponent) ==> r == Ok(CoordPart(s.coord))
    ensures key in Aliases(PoseComponent) ==> r == Ok(PosePart(s.pose))
    ensures s.SimpleDynamicsState? && key in {Str("v"), Str("velocity")} ==> r == Ok(VelocityPart(s.velocity))
    ensures s.SimpleDynamicsState? && key == Int(2) ==> r == Err(TypeError)
    ensures s.BaseState? ==> r == BaseGet(s, key)
    ensures r.Ok? <==> key in Aliases(CoordComponent) + Aliases(PoseComponent)
                        || (s.SimpleDynamicsState? && key in {Str("v"), Str("velocity")})
    ensures r.Err? ==> r.error == Unsupported(key)
  {
    match s
    case BaseState(_, _) => BaseGet(s, key)
    case SimpleDynamicsState(_, _, velocity) =>
      match BaseGet(s, key)
      case Ok(part) => Ok(part)
      case Err(e) =>
        if e != KeyError then Err(e)
        else if IsKeyForVelocity(key) then Ok(VelocityPart(velocity))
        else Err(Unsupported(key))
  }

  /** The evidently intended lookup: every alias of the velocity, 2 included, reads it. */
  function GetIntended(s: VehicleState, key: Key): (r: Result<StatePart>)
    ensures s.BaseState? ==> r == Get(s, key)
    ensures key != Int(2) ==> r == Get(s, key)
  {
    match s
    case BaseState(_, _) => BaseGet(s, key)
    case SimpleDynamicsState(_, _, velocity) =>
      if IsKeyForCoord(key) || IsKeyForPose(key) then BaseGet(s, key)
      else if IsKeyForVelocity(key) then Ok(VelocityPart(velocity))
      else Err(Unsupported(key))
  }

  /** With the intended lookup, every alias of a part reads that part. */
  lemma IntendedAliasesAgree(s: VehicleState, c: Component, key: Key)
    requires HasComponent(s, c) && key in Aliases(c)
    ensures GetIntended(s, key) == Ok(Part(s, c))
  {
  }

  /** As written, `state[2]` raises where `state["v"]` reads the velocity. */
  lemma OrdinalVelocityRaises(coord: Coordinate, pose: Pose, velocity: Vector)
    ensures Int(2) in Aliases(VelocityComponent)
    ensures Get(SimpleDynamicsState(coord, pose, velocity), Int(2)) == Err(TypeError)
    ensures Get(SimpleDynamicsState(coord, pose, velocity), Str("v")) == Ok(VelocityPart(velocity))
  {
  }
}
