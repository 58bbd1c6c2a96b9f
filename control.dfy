/**
 * Control (adept/vehicles/_control.py): the clipped control record with its
 * key dispatch, and the pure pursuit controller that follows the planner's
 * reference path.
 *
 * The controller's trigonometry (the look-forward angle and the steering
 * angle computed from it) is the parameter `steering`, given the key point,
 * the look-forward distance and the wheel base. The look-forward angle also
 * depends on the vehicle's x, y and yaw; `steering` closes over that pose,
 * which is fixed for one call of `path_following`. `dist` is the distance
 * `SamplePath2D.get_nearest_point` measures with.
 */
module Control {
  import opened Lookup
  import opened Coordinates
  import opened Entities
  import opened Planning
  import opened Vehicles

  /** `np.clip(v, lo, hi)` on a number. */
  function Clip(v: real, lo: real, hi: real): (r: real)
    requires lo <= hi
    ensures lo <= r <= hi
    ensures lo <= v <= hi ==> r == v
    ensures v < lo ==> r == lo
    ensures v > hi ==> r == hi
  {
    if v < lo then lo else if v > hi then hi else v
  }

  /** The fields of a `ControlInput` as its constructor stores them. */
  datatype ControlInput = ControlInput(steer: real, throttle: real, brake: real)

  /** The ranges the constructor clips to: steer in [-1, 1], throttle and brake in [0, 1]. */
  predicate InRange(c: ControlInput)
  {
    -1.0 <= c.steer <= 1.0 && 0.0 <= c.throttle <= 1.0 && 0.0 <= c.brake <= 1.0
  }

  /** `ControlInput(steer=0.0, throttle=0.0, brake=0.0)`: every field clipped to its range. */
  function NewControlInput(steer: real := 0.0, throttle: real := 0.0, brake: real := 0.0): (c: ControlInput)
    ensures InRange(c)
    ensures InRange(ControlInput(steer, throttle, brake)) ==> c == ControlInput(steer, throttle, brake)
    ensures steer < -1.0 ==> c.steer == -1.0
    ensures steer > 1.0 ==> c.steer == 1.0
    ensures throttle < 0.0 ==> c.throttle == 0.0
    ensures throttle > 1.0 ==> c.throttle == 1.0
    ensures brake < 0.0 ==> c.brake == 0.0
    ensures brake > 1.0 ==> c.brake == 1.0
  {
    ControlInput(Clip(steer, -1.0, 1.0), Clip(throttle, 0.0, 1.0), Clip(brake, 0.0, 1.0))
  }

  /** Clipping is idempotent: rebuilding a control input from its own fields changes nothing. */
  lemma NewControlInputIdempotent(steer: real, throttle: real, brake: real)
    ensures var c := NewControlInput(steer, throttle, brake);
      NewControlInput(c.steer, c.throttle, c.brake) == c
  {
  }

  datatype Field = Steer | Throttle | Brake

  /** The keys the source accepts for each field. */
  function Aliases(f: Field): set<Key>
  {
    match f
    case Steer => {Int(0), Str("s"), Str("steer"), Str("angle"), Str("theta")}
    case Throttle => {Int(1), Str("t"), Str("throttle")}
    case Brake => {Int(2), Str("b"), Str("brake")}
  }

  function FieldOf(c: ControlInput, f: Field): real
  {
    match f
    case Steer => c.steer
    case Throttle => c.throttle
    case Brake => c.brake
  }

  // `_is_key_for_steer/throttle/brake`: each accepts exactly its field's
  // aliases, and no key names two fields.

  function IsKeyForSteer(key: Key): (r: bool)
    ensures r <==> key in Aliases(Steer)
    ensures r ==> key !in Aliases(Throttle) + Aliases(Brake)
  {
    key == Int(0) || key == Str("s") || key == Str("steer") || key == Str("angle") || key == Str("theta")
  }

  function IsKeyForThrottle(key: Key): (r: bool)
    ensures r <==> key in Aliases(Throttle)
    ensures r ==> key !in Aliases(Steer) + Aliases(Brake)
  { key == Int(1) || key == Str("t") || key == Str("throttle") }

  function IsKeyForBrake(key: Key): (r: bool)
    ensures r <==> key in Aliases(Brake)
    ensures r ==> key !in Aliases(Steer) + Aliases(Throttle)
  { key == Int(2) || key == Str("b") || key == Str("brake") }

  /** `ControlInput.__getitem__`: every alias of a field reads that field. */
  function Get(c: ControlInput, key: Key): (r: Result<real>)
    ensures forall f :: key in Aliases(f) ==> r == Ok(FieldOf(c, f))
    ensures r.Err? <==> key !in Aliases(Steer) + Aliases(Throttle) + Aliases(Brake)
    ensures r.Err? ==> r.error == Unsupported(key)
  {
    if IsKeyForSteer(key) then Ok(c.steer)
    else if IsKeyForThrottle(key) then Ok(c.throttle)
    else if IsKeyForBrake(key) then Ok(c.brake)
    else Err(Unsupported(key))
  }

  /**
   * `get_control_from(steer, velocity)`: no brake, the steering angle
   * clipped, and the larger throttle 0.3 exactly below the speed 1.0
   * (0.2 otherwise).
   */
  function GetControlFrom(steer: real, velocity: real): (c: ControlInput)
    ensures InRange(c) && c.brake == 0.0
    ensures c.steer == Clip(steer, -1.0, 1.0)
    ensures -1.0 <= steer <= 1.0 ==> c.steer == steer
    ensures c.throttle == 0.2 || c.throttle == 0.3
    ensures c.throttle == 0.3 <==> velocity < 1.0
  {
    NewControlInput(steer, if velocity < 1.0 then 0.3 else 0.2, 0.0)
  }

  /** The point `get_nearest_point` returns for an index it found. */
  function FoundPoint(plist: seq<Point>, idx: int): Point
    requires -1 <= idx < |plist|
  {
    if idx == -1 then Point(Coordinate2D(0.0, 0.0))
    else Point(Coordinate2D(plist[idx].coord.x, plist[idx].coord.y))
  }

  /**
   * Lines 78-84 of `path_following`: the steering angle needs the wheel
   * base from the vehicle's configuration; when none is configured the
   * product `2 * None` raises `TypeError`.
   */
  function SteerTowards(config: map<string, real>, steering: (real, real, real, real) -> real,
                        p: Point, lf: real, v: real): (r: Result<ControlInput>)
    ensures r.Err? <==> "wheel_base" !in config
    ensures r.Err? ==> r.error == TypeError
    ensures r.Ok? ==> r.value == GetControlFrom(steering(p.coord.x, p.coord.y, lf, config["wheel_base"]), v)
  {
    match GetConfig(config, "wheel_base")
    case None => Err(TypeError)
    case Some(wheelBase) => Ok(GetControlFrom(steering(p.coord.x, p.coord.y, lf, wheelBase), v))
  }

  /**
   * The index into the whole path of point `idx` of the target path from
   * `from`, or -1 when the search found nothing.
   */
  function Advance(from: int, idx: int, length: nat): int
  {
    if idx == -1 then -1 else SliceStart(from, length) + idx
  }

  /**
   * What one steering step promises: `idx` is the nearest point of
   * `target` at least `lf` away (or -1), and the result steers towards the
   * point the search returned for it with look-forward distance `lf`.
   */
  ghost predicate SteeredTowards(target: seq<Point>, config: map<string, real>, dist: (Point, real, real) -> real,
                                 steering: (real, real, real, real) -> real, x: real, y: real, lf: real, v: real,
                                 idx: int, r: Result<ControlInput>)
  {
    && -1 <= idx < |target|
    && IsNearest(target, dist, x, y, lf, idx)
    && r == SteerTowards(config, steering, FoundPoint(target, idx), lf, v)
  }

  /** `Advance` turns an index into the target path from `from` into the index of the same point in the whole path. */
  lemma AdvanceKeepsPoint(plist: seq<Point>, from: int, idx: int)
    requires TargetPathFrom(plist, from).Some? && 0 <= idx < |TargetPathFrom(plist, from).value|
    ensures 0 <= Advance(from, idx, |plist|) < |plist|
    ensures TargetPathFrom(plist, from).value[idx] == plist[Advance(from, idx, |plist|)]
    ensures from >= 0 ==> Advance(from, idx, |plist|) >= from
  {
  }

  class PurePursuitController {
    const planner: ReferencePlanner
    /** The lookahead distance. */
    const ld: real
    /** The look-forward gain applied to the speed. */
    const lfGain: real
    /** The index of the current key point in the reference path. */
    var start: int

    constructor(planner: ReferencePlanner, ld: real := 2.6, lfGain: real := 0.0)
      ensures this.planner == planner && this.ld == ld && this.lfGain == lfGain
      ensures start == 0
    {
      this.planner := planner;
      this.ld := ld;
      this.lfGain := lfGain;
      start := 0;
    }

    /** Step 1 of `path_following`: the look-forward distance grows with the speed. */
    function LookForward(v: real): (lf: real)
      reads this
      ensures lfGain == 0.0 || v == 0.0 ==> lf == ld
    {
      lfGain * v + ld
    }

    /** With a positive gain the look-forward distance exceeds `ld` when moving forwards and falls short of it when reversing. */
    lemma LookForwardGrows(v: real)
      ensures lfGain > 0.0 && v > 0.0 ==> LookForward(v) > ld
      ensures lfGain > 0.0 && v < 0.0 ==> LookForward(v) < ld
    {
    }

    /**
     * `get_current_key_point`: the point at `start` of the planner's path,
     * the last one for -1, and an error for an empty path or an index
     * outside it.
     */
    function CurrentKeyPoint(): (r: Result<Point>)
      reads this, planner, planner.path
      ensures 0 <= start < |planner.path.plist| ==> r == Ok(planner.path.plist[start])
      ensures start == -1 && planner.path.plist != [] ==> r == Ok(planner.path.plist[|planner.path.plist| - 1])
      ensures r.Ok? <==> planner.path.plist != [] && -1 <= start < |planner.path.plist|
    {
      planner.GetTargetPath().Get(At(Int(start)))
    }

    /**
     * `self.planner.get_target_path_from(from).get_nearest_point(x, y, away_from)`,
     * with the intended `get_target_path_from`: the nearest qualifying point
     * of the target path and its index in that target path; calling the
     * search on the `None` returned past the end raises `AttributeError`.
     */
    method SearchFrom(from: int, dist: (Point, real, real) -> real, x: real, y: real, awayFrom: real)
      returns (r: Result<(Point, int)>)
      ensures r.Err? <==> TargetPathFrom(planner.path.plist, from).None?
      ensures r.Err? ==> r.error == AttributeError
      ensures r.Ok? ==> IsNearest(TargetPathFrom(planner.path.plist, from).value, dist, x, y, awayFrom, r.value.1)
      ensures r.Ok? ==> -1 <= r.value.1 < |TargetPathFrom(planner.path.plist, from).value|
      ensures r.Ok? ==> r.value.0 == FoundPoint(TargetPathFrom(planner.path.plist, from).value, r.value.1)
    {
      match TargetPathFrom(planner.path.plist, from)
      case None =>
        r := Err(AttributeError);
      case Some(suffix) =>
        var target := new SamplePath2D(suffix);
        var p, idx := target.GetNearestPoint(dist, x, y, awayFrom);
        r := Ok((p, idx));
    }

    /**
     * Lines 74-84 of `path_following`, given the index the second search
     * starts at: the nearest point of the target path from `from` at least
     * the look-forward distance away becomes the key point and the vehicle
     * steers towards it. `idx` is the index the search found, counted from
     * the start of that target path; the callers decide where it is stored.
     */
    method SteerFrom(from: int, config: map<string, real>, dist: (Point, real, real) -> real,
                     steering: (real, real, real, real) -> real, x: real, y: real, v: real)
      returns (r: Result<ControlInput>, idx: int)
      ensures from >= |planner.path.plist| ==> r == Err(AttributeError)
      ensures from < |planner.path.plist| ==>
                SteeredTowards(TargetPathFrom(planner.path.plist, from).value, config, dist, steering, x, y, LookForward(v), v, idx, r)
    {
      var lf := lfGain * v + ld;
      idx := -1;
      var found := SearchFrom(from, dist, x, y, lf);
      if found.Err? {
        r := Err(found.error);
        return;
      }
      idx := found.value.1;
      r := SteerTowards(config, steering, found.value.0, lf, v);
    }

    /**
     * `path_following` with the intended target path and with the key
     * point index kept relative to the whole path: when `start` is 0 a
     * first search from the beginning places it; the second search then
     * moves it and the vehicle steers. `from` is the index the second
     * search starts at, `idx` the index it found within that target path.
     */
    method PathFollowing(config: map<string, real>, dist: (Point, real, real) -> real,
                         steering: (real, real, real, real) -> real, x: real, y: real, v: real)
      returns (r: Result<ControlInput>, ghost from: int, ghost idx: int)
      modifies this`start
      ensures old(start) != 0 ==> from == old(start)
      ensures old(start) == 0 && planner.path.plist == [] ==> from == 0
      ensures old(start) == 0 && planner.path.plist != [] ==> IsNearest(planner.path.plist, dist, x, y, 0.0, from)
      ensures from >= |planner.path.plist| ==> r == Err(AttributeError) && start == from
      ensures from < |planner.path.plist| ==>
                SteeredTowards(TargetPathFrom(planner.path.plist, from).value, config, dist, steering, x, y, LookForward(v), v, idx, r)
      ensures from < |planner.path.plist| ==> start == Advance(from, idx, |planner.path.plist|)
    {
      var key := start;
      idx := -1;
      if key == 0 {
        var first := SearchFrom(0, dist, x, y, 0.0);
        if first.Err? {
          from := key;
          r := Err(first.error);
          return;
        }
        TargetPathFromZero(planner.path.plist);
        key := first.value.1;
      }
      from := key;
      var found;
      r, found := SteerFrom(key, config, dist, steering, x, y, v);
      idx := found;
      if key < |planner.path.plist| {
        key := Advance(key, found, |planner.path.plist|);
      }
      start := key;
    }

    /**
     * `path_following` as written (with the intended target path): both
     * searches store the index `get_nearest_point` returns, which counts
     * from the start of the target path rather than of the whole path.
     */
    method PathFollowingAsWritten(config: map<string, real>, dist: (Point, real, real) -> real,
                                  steering: (real, real, real, real) -> real, x: real, y: real, v: real)
      returns (r: Result<ControlInput>, ghost from: int)
      modifies this`start
      ensures old(start) != 0 ==> from == old(start)
      ensures old(start) == 0 && planner.path.plist == [] ==> from == 0
      ensures old(start) == 0 && planner.path.plist != [] ==> IsNearest(planner.path.plist, dist, x, y, 0.0, from)
      ensures from >= |planner.path.plist| ==> r == Err(AttributeError) && start == from
      ensures from < |planner.path.plist| ==>
                SteeredTowards(TargetPathFrom(planner.path.plist, from).value, config, dist, steering, x, y, LookForward(v), v, start, r)
    {
      if start == 0 {
        var first := SearchFrom(start, dist, x, y, 0.0);
        if first.Err? {
          from := start;
          r := Err(first.error);
          return;
        }
        TargetPathFromZero(planner.path.plist);
        start := first.value.1;
      }
      from := start;
      var found;
      r, found := SteerFrom(start, config, dist, steering, x, y, v);
      if start < |planner.path.plist| {
        start := found;
      }
    }
  }

  /** The distance along the x axis, enough to exhibit the relative index. */
  function AxisDistance(p: Point, x: real, y: real): real
  {
    if p.coord.x >= x then p.coord.x - x else x - p.coord.x
  }

  /** The path of four points (0, 0), (1, 0), (2, 0), (3, 0). */
  function Straight(): seq<Point>
  {
    [Point(Coordinate2D(0.0, 0.0)), Point(Coordinate2D(1.0, 0.0)), Point(Coordinate2D(2.0, 0.0)), Point(Coordinate2D(3.0, 0.0))]
  }

  /**
   * On the path `Straight()`, with the key point at index 2 and the vehicle
   * at (3, 0) with no look-forward distance, the search from index 2 finds
   * the point (3, 0) at index 1 of the target path. As written the
   * controller stores 1, which names (1, 0), a point already passed; the
   * whole-path index the intended version stores is 3.
   */
  lemma RelativeIndexCounterexample(idx: int)
    requires IsNearest(Straight()[2..], AxisDistance, 3.0, 0.0, 0.0, idx)
    ensures idx == 1
    ensures FoundPoint(Straight()[2..], idx) == Point(Coordinate2D(3.0, 0.0))
    ensures Straight()[idx] == Point(Coordinate2D(1.0, 0.0))
    ensures Advance(2, idx, |Straight()|) == 3 && Straight()[3] == Point(Coordinate2D(3.0, 0.0))
  {
    var target := Straight()[2..];
    assert AxisDistance(target[1], 3.0, 0.0) == 0.0;
    assert AxisDistance(target[0], 3.0, 0.0) == 1.0;
    assert IsNearest(target, AxisDistance, 3.0, 0.0, 0.0, 1);
    NearestUnique(target, AxisDistance, 3.0, 0.0, 0.0, idx, 1);
  }
}
