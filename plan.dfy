/**
 * The reference planner (adept/vehicles/_plan.py): a path read from a
 * file of coordinates separated by `split` (one space by default, so two
 * consecutive spaces leave an empty field that `float` rejects), keeping
 * every `sample_rate`-th line, and the views of that path the controller
 * and the loops query.
 *
 * The file is given as its lines, each already split and converted to
 * numbers; the planner is built for two-dimensional paths.
 */
module Planning {
  import opened Lookup
  import opened Coordinates
  import opened Entities

  /** `[float(i) for i in line.split(split)[:2]]`: at most the first two fields of a line. */
  function FirstFields(row: seq<real>): (items: seq<real>)
    ensures |items| == if |row| < 2 then |row| else 2
    ensures items == row[..|items|]
  {
    if |row| <= 2 then row else row[..2]
  }

  /** The point one line contributes: its first two fields, missing ones read as 0. */
  function RowPoint(row: seq<real>): (p: Point)
    ensures p.coord == Coordinate2D(if |row| > 0 then row[0] else 0.0, if |row| > 1 then row[1] else 0.0)
  {
    Point(FromItems(FirstFields(row)))
  }

  /**
   * The points read from the first `n` lines: line `cnt` is kept when
   * `cnt % k == 0`. Dafny's remainder agrees with Python's on being zero
   * for negative `k` too, so a negative rate keeps every `|k|`-th line.
   */
  function Sampled(rows: seq<seq<real>>, k: int, n: nat): (r: seq<Point>)
    requires k != 0 && n <= |rows|
    ensures |r| <= n
    ensures n > 0 ==> |r| > 0 && r[0] == RowPoint(rows[0])
  {
    if n == 0 then []
    else Sampled(rows, k, n - 1) + (if (n - 1) % k == 0 then [RowPoint(rows[n - 1])] else [])
  }

  lemma MulMonotone(a: int, b: int, m: int)
    requires a <= b && m > 0
    ensures a * m <= b * m
  {
  }

  lemma MulCancel(a: int, b: int, m: int)
    requires m > 0 && a * m < b * m
    ensures a < b
  {
    if a >= b { MulMonotone(b, a, m); }
  }

  lemma MulSucc(c: int, m: int)
    ensures (c + 1) * m == c * m + m && (c - 1) * m == c * m - m
  {
  }

  /** The only multiple of `m` in the window (c - 1) * m < x <= c * m is c * m itself. */
  lemma MultipleInWindow(c: int, x: int, m: int)
    requires m > 0 && c * m >= x > (c - 1) * m
    ensures x % m == 0 <==> x == c * m
  {
    var q, r := x / m, x % m;
    assert x == q * m + r && 0 <= r < m;
    MulSucc(c, m);
    MulSucc(q, m);
    if r == 0 {
      MulCancel(c - 1, q, m);
      if q > c {
        MulMonotone(c + 1, q, m);
      }
    } else if x == c * m {
      MulCancel(q, c, m);
      MulMonotone(q + 1, c, m);
    }
  }

  /** With a positive sample rate `m`, reading `n` lines yields ceil(n / m) points. */
  lemma {:induction false} SampledCount(rows: seq<seq<real>>, m: int, n: nat)
    requires m > 0 && n <= |rows|
    ensures |Sampled(rows, m, n)| * m >= n > (|Sampled(rows, m, n)| - 1) * m
  {
    if n > 0 {
      SampledCount(rows, m, n - 1);
      var c := |Sampled(rows, m, n - 1)|;
      MultipleInWindow(c, n - 1, m);
      MulSucc(c, m);
      if (n - 1) % m == 0 {
        assert |Sampled(rows, m, n)| == c + 1;
      } else {
        assert |Sampled(rows, m, n)| == c;
      }
    }
  }

  /** A kept line is appended at the position counting the lines kept before it. */
  lemma KeptLinePosition(rows: seq<seq<real>>, m: int, n: nat)
    requires m > 0 && 0 < n <= |rows| && (n - 1) % m == 0
    ensures |Sampled(rows, m, n - 1)| * m == n - 1
  {
    SampledCount(rows, m, n - 1);
    MultipleInWindow(|Sampled(rows, m, n - 1)|, n - 1, m);
  }

  /** With a positive sample rate `m`, point `j` of the path is line `j * m`: lines 0, m, 2m, ... in file order. */
  lemma {:induction false} SampledPositions(rows: seq<seq<real>>, m: int, n: nat)
    requires m > 0 && n <= |rows|
    ensures forall j :: 0 <= j < |Sampled(rows, m, n)| ==>
              0 <= j * m < n && Sampled(rows, m, n)[j] == RowPoint(rows[j * m])
  {
    if n > 0 {
      SampledPositions(rows, m, n - 1);
      if (n - 1) % m == 0 {
        KeptLinePosition(rows, m, n);
      }
    }
  }

  /** With the default rate 1 every line becomes a point, in order. */
  lemma SampleRateOneKeepsAll(rows: seq<seq<real>>)
    ensures |Sampled(rows, 1, |rows|)| == |rows|
    ensures forall j :: 0 <= j < |rows| ==> Sampled(rows, 1, |rows|)[j] == RowPoint(rows[j])
  {
    var sampled := Sampled(rows, 1, |rows|);
    SampledCount(rows, 1, |rows|);
    SampledPositions(rows, 1, |rows|);
    MulOne(|sampled|);
    MulOne(|sampled| - 1);
    forall j | 0 <= j < |rows|
      ensures sampled[j] == RowPoint(rows[j])
    {
      MulOne(j);
    }
  }

  lemma MulOne(x: int)
    ensures x * 1 == x
  {
  }

  /**
   * The start index `path[start:]` uses: a negative start counts from the
   * end and stops at 0, a start past the end stops at the length.
   */
  function SliceStart(start: int, length: nat): (s: nat)
    ensures s <= length
    ensures 0 <= start <= length ==> s == start
    ensures start < 0 && length + start >= 0 ==> s == length + start
  {
    if start < 0 then (if length + start < 0 then 0 else length + start)
    else if start > length then length
    else start
  }

  /**
   * The evidently intended `get_target_path_from(start)` on the planner's
   * path `plist`: `None` from the length on, otherwise `plist[start:]`, the
   * points from `start` to the end, a suffix of the path that is non-empty
   * when the path is.
   */
  function TargetPathFrom(plist: seq<Point>, start: int): (r: Option<seq<Point>>)
    ensures r.None? <==> start >= |plist|
    ensures r.Some? ==> |r.value| <= |plist| && |plist| - |r.value| == SliceStart(start, |plist|)
    ensures r.Some? ==> forall i :: 0 <= i < |r.value| ==> r.value[i] == plist[|plist| - |r.value| + i]
    ensures r.Some? && plist != [] ==> r.value != []
    ensures r.Some? && 0 <= start ==> |r.value| == |plist| - start
  {
    if start >= |plist| then None
    else Some(plist[SliceStart(start, |plist|)..])
  }

  /** From index 0 the target path is the whole path. */
  lemma TargetPathFromZero(plist: seq<Point>)
    requires plist != []
    ensures TargetPathFrom(plist, 0) == Some(plist)
  {
    assert plist[SliceStart(0, |plist|)..] == plist;
  }

  class ReferencePlanner {
    var path: SamplePath2D

    /** Stores a path already read; `NewReferencePlanner` is the source's constructor. */
    constructor(path: SamplePath2D)
      ensures this.path == path
    {
      this.path := path;
    }

    /** `in_final_states(idx)`: the index is past the last point of the path. */
    function InFinalStates(idx: int): (r: bool)
      reads this, path
      ensures r <==> TargetPathFrom(path.plist, idx).None?
      ensures r <==> GetTargetPathFromAsWritten(idx) == Ok(None)
      ensures !r && idx >= 0 ==> path.Get(At(Int(idx))).Ok?
    {
      idx >= path.Length()
    }

    /** `get_target_path`: the planner's own path object, not a copy. */
    function GetTargetPath(): (r: SamplePath2D)
      reads this
      ensures r == path
    {
      path
    }

    /**
     * `get_target_path_from(start)` as written: `None` from the length on;
     * below it `self.path[start:]` hands a slice to `SamplePath2D.__getitem__`,
     * whose comparison `1 <= key` raises `TypeError`.
     */
    function GetTargetPathFromAsWritten(start: int): (r: Result<Option<seq<Point>>>)
      reads this, path
      ensures r.Ok? <==> start >= |path.plist|
      ensures r.Ok? ==> r.value == None
      ensures r.Err? ==> r.error == TypeError
    {
      if start >= |path.plist| then Ok(None)
      else
        Err(path.Get(Slice(start)).error)
    }
  }

  /**
   * `ReferencePlanner(ref_path_file, dim=2, sample_rate)`: reads the lines in
   * order and appends the first two fields of every kept line to a new
   * path. A rate of 0 raises `ZeroDivisionError` at the first line.
   */
  method NewReferencePlanner(rows: seq<seq<real>>, sampleRate: int := 1) returns (r: Result<ReferencePlanner>)
    ensures r.Err? <==> rows != [] && sampleRate == 0
    ensures r.Err? ==> r.error == ZeroDivisionError
    ensures r.Ok? ==> fresh(r.value) && fresh(r.value.path)
    ensures r.Ok? ==> r.value.path.plist == if sampleRate == 0 then [] else Sampled(rows, sampleRate, |rows|)
  {
    var path := new SamplePath2D([]);
    for cnt := 0 to |rows|
      invariant fresh(path)
      invariant sampleRate == 0 ==> cnt == 0 && path.plist == []
      invariant sampleRate != 0 ==> path.plist == Sampled(rows, sampleRate, cnt)
    {
      if sampleRate == 0 {
        return Err(ZeroDivisionError);
      }
      if cnt % sampleRate == 0 {
        var err := path.Append(AsItems(FirstFields(rows[cnt])));
      }
    }
    var planner := new ReferencePlanner(path);
    r := Ok(planner);
  }

  /**
   * The discrepancy of `get_target_path_from`: on a non-empty path, asking
   * from the first point raises where the suffix is the whole path.
   */
  lemma TargetPathFromRaises(planner: ReferencePlanner)
    requires planner.path.plist != []
    ensures planner.GetTargetPathFromAsWritten(0) == Err(TypeError)
    ensures TargetPathFrom(planner.path.plist, 0) == Some(planner.path.plist)
  {
  }
}
