/**
 * Entities described by coordinates (adept/transforms/_entity.py): points,
 * lines, 2-D and 3-D boxes with their key dispatch, and the sampled path
 * the planner and the controller share.
 */
module Entities {
  import opened Lookup
  import opened Coordinates

  datatype Point = Point(coord: Coordinate)
  datatype Line = Line(p0: Point, p1: Point)
  /** Corners in counter-clockwise order from the top left. */
  datatype Box2D = Box2D(topLeft: Point, topRight: Point, bottomRight: Point, bottomLeft: Point)
  datatype Box3D = Box3D(front: Box2D, back: Box2D)

  /** `Point.__getitem__`: only 0, "c" and "coord" name the coordinate. */
  function PointGet(p: Point, key: Key): (r: Result<Coordinate>)
    ensures key in {Int(0), Str("c"), Str("coord")} <==> r == Ok(p.coord)
    ensures r.Err? <==> key !in {Int(0), Str("c"), Str("coord")}
    ensures r.Err? ==> r.error == Unsupported(key)
  {
    if key == Int(0) || key == Str("c") || key == Str("coord") then Ok(p.coord)
    else Err(Unsupported(key))
  }

  /** `Line.__getitem__`. */
  function LineGet(l: Line, key: Key): (r: Result<Point>)
    ensures key in {Int(0), Str("p0")} ==> r == Ok(l.p0)
    ensures key in {Int(1), Str("p1")} ==> r == Ok(l.p1)
    ensures r.Err? <==> key !in {Int(0), Str("p0"), Int(1), Str("p1")}
    ensures r.Err? ==> r.error == Unsupported(key)
  {
    if key == Int(0) || key == Str("p0") then Ok(l.p0)
    else if key == Int(1) || key == Str("p1") then Ok(l.p1)
    else Err(Unsupported(key))
  }

  datatype Corner = TopLeft | TopRight | BottomRight | BottomLeft

  /** The keys naming each corner: its position in counter-clockwise order, a short name and two long ones. */
  function CornerAliases(c: Corner): set<Key>
  {
    match c
    case TopLeft => {Int(0), Str("tl"), Str("top_left"), Str("top left")}
    case TopRight => {Int(1), Str("tr"), Str("top_right"), Str("top right")}
    case BottomRight => {Int(2), Str("br"), Str("bottom_right"), Str("bottom right")}
    case BottomLeft => {Int(3), Str("bl"), Str("bottom_left"), Str("bottom left")}
  }

  function CornerOf(b: Box2D, c: Corner): Point
  {
    match c
    case TopLeft => b.topLeft
    case TopRight => b.topRight
    case BottomRight => b.bottomRight
    case BottomLeft => b.bottomLeft
  }

  /** `Box2D.__getitem__`. */
  function BoxGet(b: Box2D, key: Key): (r: Result<Point>)
    ensures forall c :: key in CornerAliases(c) ==> r == Ok(CornerOf(b, c))
    ensures r.Err? <==> forall c :: key !in CornerAliases(c)
    ensures r.Err? ==> r.error == Unsupported(key)
  {
    if key in CornerAliases(TopLeft) then Ok(b.topLeft)
    else if key in CornerAliases(TopRight) then Ok(b.topRight)
    else if key in CornerAliases(BottomRight) then Ok(b.bottomRight)
    else if key in CornerAliases(BottomLeft) then Ok(b.bottomLeft)
    else Err(Unsupported(key))
  }

  /** The positions 0 to 3 walk the corners counter-clockwise from the top left. */
  lemma OrdinalCorners(b: Box2D)
    ensures BoxGet(b, Int(0)) == Ok(b.topLeft) && BoxGet(b, Int(1)) == Ok(b.topRight)
    ensures BoxGet(b, Int(2)) == Ok(b.bottomRight) && BoxGet(b, Int(3)) == Ok(b.bottomLeft)
    ensures BoxGet(b, Int(4)) == Err(TypeError) && BoxGet(b, Str("center")) == Err(KeyError)
  {
    assert Int(0) in CornerAliases(TopLeft) && Int(1) in CornerAliases(TopRight);
    assert Int(2) in CornerAliases(BottomRight) && Int(3) in CornerAliases(BottomLeft);
  }

  /** `Box3D.__getitem__`. */
  function Box3DGet(b: Box3D, key: Key): (r: Result<Box2D>)
    ensures key in {Int(0), Str("f"), Str("front")} ==> r == Ok(b.front)
    ensures key in {Int(1), Str("b"), Str("back")} ==> r == Ok(b.back)
    ensures r.Err? <==> key !in {Int(0), Str("f"), Str("front"), Int(1), Str("b"), Str("back")}
    ensures r.Err? ==> r.error == Unsupported(key)
  {
    if key == Int(0) || key == Str("f") || key == Str("front") then Ok(b.front)
    else if key == Int(1) || key == Str("b") || key == Str("back") then Ok(b.back)
    else Err(Unsupported(key))
  }

  // ---------------------------------------------------------------- SamplePath2D

  /** What `append` accepts: a point, or a list or tuple of coordinate components. */
  datatype PointArg = AsPoint(point: Point) | AsItems(items: seq<real>)

  /** A key of `SamplePath2D.__getitem__`; a slice reaches it from `path[start:]`. */
  datatype PathKey = At(key: Key) | Slice(start: int)

  /** `_is_key_for_start`: the ordinal 0 and two names; never a slice. */
  function IsKeyForStart(key: PathKey): (r: bool)
    ensures r ==> key.At? && (key.key.Int? ==> key.key.i == 0)
  {
    key in {At(Int(0)), At(Str("begin")), At(Str("start"))}
  }

  /** `_is_key_for_end`: the last index, -1 and two names; never a slice. */
  function IsKeyForEnd(key: PathKey, length: nat): (r: bool)
    ensures r ==> key.At? && (key.key.Int? ==> key.key.i == length - 1 || key.key.i == -1)
  {
    key in {At(Int(length - 1)), At(Int(-1)), At(Str("end")), At(Str("last"))}
  }

  /** `Coordinate2D(*items)`: missing components default to 0. */
  function FromItems(items: seq<real>): (c: Coordinate)
    requires |items| <= 2
    ensures c == Coordinate2D(if |items| > 0 then items[0] else 0.0, if |items| > 1 then items[1] else 0.0)
  {
    if |items| == 0 then Coordinate2D()
    else if |items| == 1 then Coordinate2D(items[0])
    else Coordinate2D(items[0], items[1])
  }

  /** The order `ord` that `Point.distance_from` hands to numpy's `norm`. */
  datatype NormOrder = Frobenius | Euclidean

  /**
   * `Point.distance_from(x, y, ord='fro')`: the norm of the offset between
   * the point and (x, y). numpy defines the Frobenius order only for
   * matrices, so for this two-component vector it raises `ValueError`.
   * `norm2` is the Euclidean norm numpy computes for `ord=None` or 2.
   */
  function DistanceFrom(norm2: (Point, real, real) -> real, p: Point, x: real, y: real, ord: NormOrder := Frobenius): (r: Result<real>)
    ensures r.Err? <==> ord == Frobenius
    ensures r.Err? ==> r.error == ValueError
    ensures r.Ok? ==> r.value == norm2(p, x, y)
  {
    match ord
    case Frobenius => Err(ValueError)
    case Euclidean => Ok(norm2(p, x, y))
  }

  /** Whether point i of the path is at least `awayFrom` from (x, y). */
  predicate Qualifies(plist: seq<Point>, dist: (Point, real, real) -> real, x: real, y: real, awayFrom: real, i: int)
    requires 0 <= i < |plist|
  {
    awayFrom <= dist(plist[i], x, y)
  }

  /**
   * What `get_nearest_point` promises about its index: -1 when no point
   * qualifies; otherwise a qualifying point no farther than any other
   * qualifying point and strictly nearer than every qualifying point before it.
   */
  ghost predicate IsNearest(plist: seq<Point>, dist: (Point, real, real) -> real, x: real, y: real, awayFrom: real, idx: int)
  {
    if idx == -1 then forall i :: 0 <= i < |plist| ==> !Qualifies(plist, dist, x, y, awayFrom, i)
    else
      && 0 <= idx < |plist| && Qualifies(plist, dist, x, y, awayFrom, idx)
      && (forall i :: 0 <= i < |plist| && Qualifies(plist, dist, x, y, awayFrom, i) ==> dist(plist[idx], x, y) <= dist(plist[i], x, y))
      && (forall i :: 0 <= i < idx && Qualifies(plist, dist, x, y, awayFrom, i) ==> dist(plist[idx], x, y) < dist(plist[i], x, y))
  }

  /** The characterisation leaves no choice: at most one index satisfies it. */
  lemma NearestUnique(plist: seq<Point>, dist: (Point, real, real) -> real, x: real, y: real, awayFrom: real, i: int, j: int)
    requires IsNearest(plist, dist, x, y, awayFrom, i) && IsNearest(plist, dist, x, y, awayFrom, j)
    ensures i == j
  {
  }

  class SamplePath2D {
    var plist: seq<Point>

    constructor(plist: seq<Point>)
      ensures this.plist == plist
    {
      this.plist := plist;
    }

    /** `append`: a point is added as it is, components become a new 2-D point; too many components raise. */
    method Append(p: PointArg) returns (err: Option<Error>)
      modifies this
      ensures p.AsPoint? ==> err == None && plist == old(plist) + [p.point]
      ensures p.AsItems? && |p.items| <= 2 ==> err == None && plist == old(plist) + [Point(FromItems(p.items))]
      ensures p.AsItems? && |p.items| > 2 ==> err == Some(TypeError) && plist == old(plist)
      ensures err == None ==> Length() == old(Length()) + 1 && plist[..old(Length())] == old(plist)
    {
      match p
      case AsPoint(q) =>
        plist := plist + [q];
        err := None;
      case AsItems(items) =>
        if |items| <= 2 {
          plist := plist + [Point(FromItems(items))];
          err := None;
        } else {
          err := Some(TypeError);
        }
    }

    /**
     * `get_nearest_point(x, y, away_from)`: the first point at least
     * `away_from` from (x, y) among the nearest such points, as a new 2-D
     * point with its index, or the origin with index -1 when none qualifies.
     * `dist` is the intended distance, `distance_from` with the Euclidean
     * order (`DistanceFrom(norm2, p, x, y, Euclidean)`).
     */
    method GetNearestPoint(dist: (Point, real, real) -> real, x: real, y: real, awayFrom: real := 0.0) returns (p: Point, idx: int)
      ensures IsNearest(plist, dist, x, y, awayFrom, idx)
      ensures idx == -1 ==> p == Point(Coordinate2D(0.0, 0.0))
      ensures idx != -1 ==> p == Point(Coordinate2D(plist[idx].coord.x, plist[idx].coord.y))
    {
      var nd: Option<real> := None;
      var npx, npy := 0.0, 0.0;
      idx := -1;
      for i := 0 to |plist|
        invariant idx == -1 <==> nd.None?
        invariant idx == -1 ==> npx == 0.0 && npy == 0.0
        invariant idx == -1 ==> forall j :: 0 <= j < i ==> !Qualifies(plist, dist, x, y, awayFrom, j)
        invariant idx != -1 ==> 0 <= idx < i && Qualifies(plist, dist, x, y, awayFrom, idx)
        invariant idx != -1 ==> nd == Some(dist(plist[idx], x, y))
        invariant idx != -1 ==> npx == plist[idx].coord.x && npy == plist[idx].coord.y
        invariant idx != -1 ==> forall j :: 0 <= j < i && Qualifies(plist, dist, x, y, awayFrom, j) ==> nd.value <= dist(plist[j], x, y)
        invariant idx != -1 ==> forall j :: 0 <= j < idx && Qualifies(plist, dist, x, y, awayFrom, j) ==> nd.value < dist(plist[j], x, y)
      {
        var d := dist(plist[i], x, y);
        if awayFrom <= d && (nd.None? || d < nd.value) {
          nd, npx, npy, idx := Some(d), plist[i].coord.x, plist[i].coord.y, i;
        }
      }
      p := Point(Coordinate2D(npx, npy));
    }

    /**
     * `get_nearest_point` as written: its loop calls `distance_from(x, y)`
     * with the default Frobenius order, so the first point already raises
     * `ValueError` and the loop never completes an iteration. Only an empty
     * path returns, with the origin and index -1.
     */
    method GetNearestPointAsWritten(norm2: (Point, real, real) -> real, x: real, y: real, awayFrom: real := 0.0)
      returns (r: Result<(Point, int)>)
      ensures r.Ok? <==> plist == []
      ensures r.Ok? ==> r.value == (Point(Coordinate2D(0.0, 0.0)), -1)
      ensures r.Err? ==> r.error == ValueError
    {
      if plist == [] {
        r := Ok((Point(Coordinate2D(0.0, 0.0)), -1));
      } else {
        var d := DistanceFrom(norm2, plist[0], x, y);
        r := Err(d.error);
      }
    }

    /** `__len__`: the path is empty exactly when its first point cannot be read. */
    function Length(): (n: nat)
      reads this
      ensures n == 0 <==> Get(At(Str("start"))) == Err(IndexError)
      ensures n == 0 <==> Get(At(Int(-1))).Err?
    {
      |plist|
    }

    /**
     * `__getitem__`. The start keys read the first point and the end keys,
     * including `len - 1` and -1, the last one (`IndexError` on an empty
     * path); an integer from 1 below the length reads that point. A string
     * that is no alias, or a slice, fails the comparison `1 <= key` with a
     * `TypeError`; an integer out of range reaches the message
     * concatenation, also a `TypeError`.
     */
    function Get(key: PathKey): (r: Result<Point>)
      reads this
      ensures IsKeyForStart(key) && plist != [] ==> r == Ok(plist[0])
      ensures IsKeyForEnd(key, |plist|) && plist != [] ==> r == Ok(plist[|plist| - 1])
      ensures key.At? && key.key.Int? && 0 <= key.key.i < |plist| ==> r == Ok(plist[key.key.i])
      ensures r.Ok? <==> plist != [] && (IsKeyForStart(key) || IsKeyForEnd(key, |plist|)
                                         || (key.At? && key.key.Int? && 0 <= key.key.i < |plist|))
      ensures r.Err? ==> r.error == (if plist == [] && (IsKeyForStart(key) || IsKeyForEnd(key, 0)) then IndexError else TypeError)
    {
      if IsKeyForStart(key) then
        if plist == [] then Err(IndexError) else Ok(plist[0])
      else if IsKeyForEnd(key, |plist|) then
        if plist == [] then Err(IndexError) else Ok(plist[|plist| - 1])
      else if !(key.At? && key.key.Int?) then Err(TypeError)
      else if 1 <= key.key.i < |plist| then Ok(plist[key.key.i])
      else Err(Unsupported(key.key))
    }
  }
}
