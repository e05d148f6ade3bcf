/**
 The path check of scripts/prepare_staged_nav2_goal_evidence.py over exact reals: a planned
 polyline is sampled at most half a cell apart and every sample must lie in a known free cell.
 Rounding a length up to whole steps is stated on squares, so no root is taken.
 */
module PathSampling {
  datatype Point = Point(x: real, y: real)

  datatype Result<+T> = Ok(value: T) | Err(error: Error)

  datatype Error = EmptyPath | WrongFrame | BadDimensions | BadLength | Outside(index: nat) | Unknown(index: nat) | Occupied(index: nat)

  const LETHAL: int := 65

  /** The yaw of the map enters through its cosine and sine. */
  datatype Grid = Grid(
    inMapFrame: bool, width: int, height: int, resolution: real, data: seq<int>, origin: Point, cosine: real, sine: real)

  ghost predicate Rigid(g: Grid) {
    g.cosine * g.cosine + g.sine * g.sine == 1.0
  }

  datatype Summary = Summary(samples: nat, width: int, height: int, resolution: real)

  function Square(x: real): (s: real)
    ensures s >= 0.0
  {
    x * x
  }

  function SquaredDistance(p: Point, q: Point): (d: real)
    ensures d >= 0.0
  {
    Square(q.x - p.x) + Square(q.y - p.y)
  }

  // ----- Subdividing a segment -----

  /** So many steps of a length, given by its square, span a distance, given by its square. */
  predicate Spans(n: nat, unit: real, squared: real) {
    (n * n) as real * unit >= squared
  }

  lemma Ordered(a: real, b: real, d: real)
    requires a <= b && d >= 0.0
    ensures a * d <= b * d
  {
    assert (b - a) * d >= 0.0;
  }

  /** While n steps do not suffice, n is below a fixed bound. */
  lemma FewStepsLeft(n: nat, unit: real, squared: real)
    requires unit > 0.0 && n >= 1 && !Spans(n, unit, squared)
    ensures n <= (squared / unit).Floor
  {
    Ordered(n as real, (n * n) as real, unit);
    var q := squared / unit;
    assert q * unit == squared;
    if q < n as real { Ordered(q, n as real, unit); }
    assert n as real <= q;
  }

  function StepsLeft(n: nat, unit: real, squared: real): nat
    requires unit > 0.0
  {
    if Spans(n, unit, squared) || (squared / unit).Floor < n then 0 else (squared / unit).Floor + 1 - n
  }

  /** The least number of steps, at least n, that spans the distance. */
  function StepsFrom(n: nat, unit: real, squared: real): (steps: nat)
    requires unit > 0.0 && n >= 1
    ensures steps >= n && Spans(steps, unit, squared)
    ensures steps == n || !Spans(steps - 1, unit, squared)
    decreases StepsLeft(n, unit, squared)
  {
    if Spans(n, unit, squared) then n
    else
      FewStepsLeft(n, unit, squared);
      StepsFrom(n + 1, unit, squared)
  }

  function Subdivisions(p: Point, q: Point, unit: real): (n: nat)
    requires unit > 0.0
    ensures n >= 1 && Spans(n, unit, SquaredDistance(p, q))
    ensures n == 1 || !Spans(n - 1, unit, SquaredDistance(p, q))
  {
    StepsFrom(1, unit, SquaredDistance(p, q))
  }

  /** The point at a ratio of the way from p to q. */
  function At(p: Point, q: Point, ratio: real): Point {
    Point(p.x + (q.x - p.x) * ratio, p.y + (q.y - p.y) * ratio)
  }

  lemma SquareOfProduct(a: real, b: real)
    ensures Square(a * b) == Square(a) * Square(b)
  {
    assert (a * b) * (a * b) == (a * a) * (b * b);
  }

  lemma Between(p: Point, q: Point, s: real, t: real)
    ensures SquaredDistance(At(p, q, s), At(p, q, t)) == Square(t - s) * SquaredDistance(p, q)
  {
    var dx, dy, r := q.x - p.x, q.y - p.y, t - s;
    assert At(p, q, t).x - At(p, q, s).x == dx * r;
    assert At(p, q, t).y - At(p, q, s).y == dy * r;
    SquareOfProduct(dx, r);
    SquareOfProduct(dy, r);
    assert Square(dx) * Square(r) + Square(dy) * Square(r) == Square(r) * (Square(dx) + Square(dy));
  }

  lemma SquareOrder(a: real, b: real)
    requires -b <= a <= b
    ensures Square(a) <= Square(b)
  {
    assert (b - a) * (b + a) >= 0.0;
    assert (b - a) * (b + a) == b * b - a * a;
  }

  /** Pure arithmetic of the next lemma. */
  lemma ShareOfSpan(r: real, d: real, unit: real, squared: real, share: real)
    requires unit >= 0.0 && squared <= Square(d) * unit && -share <= r * d <= share
    ensures Square(r) * squared <= Square(share) * unit
  {
    Ordered(squared, Square(d) * unit, Square(r));
    SquareOfProduct(r, d);
    assert (Square(d) * unit) * Square(r) == (Square(r) * Square(d)) * unit;
    SquareOrder(r * d, share);
    Ordered(Square(r * d), Square(share), unit);
  }

  /** A part of a segment that is a share of one of its n steps is as much shorter than the unit. */
  lemma ShareIsShort(p: Point, q: Point, n: nat, unit: real, s: real, t: real, share: real)
    requires unit >= 0.0 && Spans(n, unit, SquaredDistance(p, q))
    requires -share <= (t - s) * n as real <= share
    ensures SquaredDistance(At(p, q, s), At(p, q, t)) <= Square(share) * unit
  {
    Between(p, q, s, t);
    assert Square(n as real) == (n * n) as real;
    ShareOfSpan(t - s, n as real, unit, SquaredDistance(p, q), share);
  }

  // ----- Sampling a polyline -----

  /** The first k samples behind the start of a segment that is walked in n steps. */
  function Walked(p: Point, q: Point, n: nat, k: nat): (samples: seq<Point>)
    requires n >= 1
    ensures |samples| == k
  {
    seq(k, j requires 0 <= j < k => At(p, q, (j + 1) as real / n as real))
  }

  /** The samples that a segment adds. */
  type Cut = (Point, Point) -> seq<Point>

  function Segment(p: Point, q: Point, unit: real): (samples: seq<Point>)
    requires unit > 0.0
    ensures |samples| == Subdivisions(p, q, unit)
  {
    var n := Subdivisions(p, q, unit);
    Walked(p, q, n, n)
  }

  function CutAt(unit: real): Cut
    requires unit > 0.0
  {
    (p, q) => Segment(p, q, unit)
  }

  /** The start, then the samples of each segment. */
  function Sampled(points: seq<Point>, cut: Cut): (samples: seq<Point>)
    requires points != []
    ensures samples != []
  {
    if |points| == 1 then points
    else Sampled(points[..|points| - 1], cut) + cut(points[|points| - 2], points[|points| - 1])
  }

  method CutSegment(p: Point, q: Point, unit: real) returns (samples: seq<Point>)
    requires unit > 0.0
    ensures samples == Segment(p, q, unit)
  {
    var subdivisions := Subdivisions(p, q, unit);
    samples := [];
    for index := 1 to subdivisions + 1
      invariant samples == Walked(p, q, subdivisions, index - 1)
    {
      samples := samples + [At(p, q, index as real / subdivisions as real)];
    }
  }

  method SamplePath(points: seq<Point>, unit: real) returns (sampled: seq<Point>)
    requires points != [] && unit > 0.0
    ensures sampled == Sampled(points, CutAt(unit))
  {
    sampled := [points[0]];
    ghost var cut := CutAt(unit);
    for i := 1 to |points|
      invariant sampled == Sampled(points[..i], cut)
    {
      var samples := CutSegment(points[i - 1], points[i], unit);
      assert points[..i + 1][..i] == points[..i];
      assert samples == cut(points[i - 1], points[i]);
      sampled := sampled + samples;
    }
    assert points[..|points|] == points;
  }

  // ----- What is known of the samples of one segment -----

  /** Each step is short, from the start on, and the last one ends at the end. */
  ghost predicate WellCut(p: Point, q: Point, samples: seq<Point>, unit: real) {
    && samples != [] && samples[|samples| - 1] == q
    && SquaredDistance(p, samples[0]) <= unit
    && forall j :: 0 <= j < |samples| - 1 ==> SquaredDistance(samples[j], samples[j + 1]) <= unit
  }

  lemma EndOfSegment(p: Point, q: Point, unit: real)
    requires unit > 0.0
    ensures var samples := Segment(p, q, unit); samples[|samples| - 1] == q
  {
    var n := Subdivisions(p, q, unit);
    assert n as real / n as real == 1.0;
    assert At(p, q, 1.0) == q;
  }

  lemma RatioGap(j: nat, n: nat)
    requires n >= 1
    ensures ((j + 1) as real / n as real - j as real / n as real) * n as real == 1.0
  {
    var d, s, t := n as real, j as real / n as real, (j + 1) as real / n as real;
    assert s * d == j as real && t * d == (j + 1) as real;
    assert (t - s) * d == t * d - s * d;
  }

  lemma StepIsShort(p: Point, q: Point, unit: real, j: nat)
    requires unit > 0.0
    ensures var n := Subdivisions(p, q, unit);
      SquaredDistance(At(p, q, j as real / n as real), At(p, q, (j + 1) as real / n as real)) <= unit
  {
    var n := Subdivisions(p, q, unit);
    RatioGap(j, n);
    ShareIsShort(p, q, n, unit, j as real / n as real, (j + 1) as real / n as real, 1.0);
    assert Square(1.0) == 1.0;
  }

  lemma FirstStep(p: Point, q: Point, unit: real)
    requires unit > 0.0
    ensures SquaredDistance(p, Segment(p, q, unit)[0]) <= unit
  {
    var n := Subdivisions(p, q, unit);
    StepIsShort(p, q, unit, 0);
    assert 0 as real / n as real == 0.0;
    assert At(p, q, 0.0) == p;
  }

  lemma SegmentIsWellCut(p: Point, q: Point, unit: real)
    requires unit > 0.0
    ensures WellCut(p, q, Segment(p, q, unit), unit)
  {
    var samples := Segment(p, q, unit);
    EndOfSegment(p, q, unit);
    FirstStep(p, q, unit);
    forall j | 0 <= j < |samples| - 1 ensures SquaredDistance(samples[j], samples[j + 1]) <= unit {
      StepIsShort(p, q, unit, j + 1);
    }
  }

  // ----- The whole polyline -----

  ghost predicate CutsWell(cut: Cut, unit: real) {
    forall p, q :: WellCut(p, q, cut(p, q), unit)
  }

  lemma CutAtCutsWell(unit: real)
    requires unit > 0.0
    ensures CutsWell(CutAt(unit), unit)
  {
    forall p, q ensures WellCut(p, q, CutAt(unit)(p, q), unit) {
      SegmentIsWellCut(p, q, unit);
    }
  }

  lemma {:induction false} LastIsLast(points: seq<Point>, cut: Cut, unit: real)
    requires points != [] && CutsWell(cut, unit)
    ensures var samples := Sampled(points, cut); samples[|samples| - 1] == points[|points| - 1]
  {
    if |points| > 1 {
      assert WellCut(points[|points| - 2], points[|points| - 1], cut(points[|points| - 2], points[|points| - 1]), unit);
    }
  }

  /** Every vertex of the path is a sample. */
  lemma {:induction false} VerticesAreSampled(points: seq<Point>, cut: Cut, unit: real, i: nat)
    requires i < |points| && CutsWell(cut, unit)
    ensures points[i] in Sampled(points, cut)
  {
    if i == |points| - 1 {
      LastIsLast(points, cut, unit);
    } else {
      VerticesAreSampled(points[..|points| - 1], cut, unit, i);
    }
  }

  /** No two samples in a row are more than the maximum step apart. */
  lemma {:induction false} StepsAreShort(points: seq<Point>, cut: Cut, unit: real, k: nat)
    requires points != [] && CutsWell(cut, unit) && k + 1 < |Sampled(points, cut)|
    ensures SquaredDistance(Sampled(points, cut)[k], Sampled(points, cut)[k + 1]) <= unit
    decreases |points|
  {
    if |points| >= 2 {
      var init, p, q := points[..|points| - 1], points[|points| - 2], points[|points| - 1];
      var before, more := Sampled(init, cut), cut(p, q);
      assert WellCut(p, q, more, unit);
      if k + 1 < |before| {
        StepsAreShort(init, cut, unit, k);
      } else if k + 1 == |before| {
        LastIsLast(init, cut, unit);
      } else {
        var j := k - |before|;
        assert SquaredDistance(more[j], more[j + 1]) <= unit;
      }
    }
  }

  /** The step whose end is nearest to a ratio of the way. */
  lemma NearestStep(n: nat, t: real) returns (j: nat)
    requires n >= 1 && 0.0 <= t <= 1.0
    ensures j <= n && -0.5 <= (j as real / n as real - t) * n as real <= 0.5
  {
    var x := t * n as real;
    Ordered(t, 1.0, n as real);
    assert x >= 0.0;
    j := (x + 0.5).Floor;
    var s := j as real / n as real;
    assert s * n as real == j as real;
    assert (s - t) * n as real == s * n as real - t * n as real;
  }

  lemma NearAStep(p: Point, q: Point, unit: real, t: real) returns (j: nat)
    requires unit > 0.0 && 0.0 <= t <= 1.0
    ensures var n := Subdivisions(p, q, unit);
      j <= n && SquaredDistance(At(p, q, t), At(p, q, j as real / n as real)) <= Square(0.5) * unit
  {
    var n := Subdivisions(p, q, unit);
    j := NearestStep(n, t);
    ShareIsShort(p, q, n, unit, t, j as real / n as real, 0.5);
  }

  /** Every point of a segment is within half a step of its start or of one of its samples. */
  ghost predicate CoveredBy(p: Point, q: Point, t: real, sample: Point, samples: seq<Point>, unit: real) {
    (sample == p || sample in samples) && SquaredDistance(At(p, q, t), sample) <= Square(0.5) * unit
  }

  lemma SegmentIsCovered(p: Point, q: Point, unit: real, t: real) returns (sample: Point)
    requires unit > 0.0 && 0.0 <= t <= 1.0
    ensures CoveredBy(p, q, t, sample, Segment(p, q, unit), unit)
  {
    var n := Subdivisions(p, q, unit);
    var j := NearAStep(p, q, unit, t);
    sample := At(p, q, j as real / n as real);
    if j == 0 {
      assert 0 as real / n as real == 0.0;
      assert At(p, q, 0.0) == p;
    } else {
      assert Segment(p, q, unit)[j - 1] == sample;
    }
  }

  /** Every point of the polyline is within half a step of a sample. */
  lemma {:induction false} PolylineIsCovered(points: seq<Point>, unit: real, i: nat, t: real) returns (sample: Point)
    requires i + 1 < |points| && unit > 0.0 && 0.0 <= t <= 1.0
    ensures sample in Sampled(points, CutAt(unit))
    ensures SquaredDistance(At(points[i], points[i + 1], t), sample) <= Square(0.5) * unit
  {
    var cut := CutAt(unit);
    sample := SegmentIsCovered(points[i], points[i + 1], unit, t);
    CutAtCutsWell(unit);
    SamplesOfSegment(points, cut, unit, i, sample);
  }

  lemma {:induction false} SamplesOfSegment(points: seq<Point>, cut: Cut, unit: real, i: nat, sample: Point)
    requires i + 1 < |points| && CutsWell(cut, unit)
    requires sample == points[i] || sample in cut(points[i], points[i + 1])
    ensures sample in Sampled(points, cut)
  {
    if sample == points[i] {
      VerticesAreSampled(points, cut, unit, i);
    } else if i + 2 < |points| {
      SamplesOfSegment(points[..|points| - 1], cut, unit, i, sample);
    }
  }

  // ----- Cells -----

  /** A point in the axes of the map. */
  function Local(g: Grid, p: Point): Point {
    var dx, dy := p.x - g.origin.x, p.y - g.origin.y;
    Point(g.cosine * dx + g.sine * dy, -g.sine * dx + g.cosine * dy)
  }

  function CellOf(g: Grid, p: Point): (int, int)
    requires g.resolution > 0.0
  {
    var local := Local(g, p);
    ((local.x / g.resolution).Floor, (local.y / g.resolution).Floor)
  }

  predicate ValidGrid(g: Grid) {
    g.inMapFrame && g.width > 0 && g.height > 0 && g.resolution > 0.0 && |g.data| == g.width * g.height
  }

  predicate Inside(g: Grid, cell: (int, int)) {
    0 <= cell.0 < g.width && 0 <= cell.1 < g.height
  }

  function Index(g: Grid, cell: (int, int)): (i: nat)
    requires ValidGrid(g) && Inside(g, cell)
    ensures i < |g.data|
  {
    IndexInside(g, cell);
    cell.1 * g.width + cell.0
  }

  lemma ProductOrder(a: int, b: int, w: int)
    requires a <= b && w >= 0
    ensures a * w <= b * w
  {
    assert (b - a) * w >= 0;
  }

  lemma IndexInside(g: Grid, cell: (int, int))
    requires ValidGrid(g) && Inside(g, cell)
    ensures 0 <= cell.1 * g.width + cell.0 < |g.data|
  {
    ProductOrder(cell.1 + 1, g.height, g.width);
    ProductOrder(0, cell.1, g.width);
  }

  /** The cell of the point is known, free, and inside the map. */
  predicate Free(g: Grid, p: Point)
    requires ValidGrid(g)
  {
    var cell := CellOf(g, p);
    Inside(g, cell) && 0 <= g.data[Index(g, cell)] < LETHAL
  }

  /** A turn keeps distances. */
  lemma LocalKeepsDistance(g: Grid, p: Point, q: Point)
    requires Rigid(g)
    ensures SquaredDistance(Local(g, p), Local(g, q)) == SquaredDistance(p, q)
  {
    var c, s, dx, dy := g.cosine, g.sine, q.x - p.x, q.y - p.y;
    var u, v := Local(g, q).x - Local(g, p).x, Local(g, q).y - Local(g, p).y;
    assert u == c * dx + s * dy && v == -s * dx + c * dy;
    assert u * u == c * c * (dx * dx) + 2.0 * (c * s * (dx * dy)) + s * s * (dy * dy);
    assert v * v == s * s * (dx * dx) - 2.0 * (c * s * (dx * dy)) + c * c * (dy * dy);
    assert u * u + v * v == (c * c + s * s) * (dx * dx) + (c * c + s * s) * (dy * dy);
  }

  lemma PositiveProduct(a: real, b: real)
    requires a > 0.0 && b > 0.0
    ensures a * b > 0.0
  {
  }

  lemma SmallSquare(d: real, r: real)
    requires Square(d) <= Square(r) && r > 0.0
    ensures -r <= d <= r
  {
    assert (d - r) * (d + r) == d * d - r * r;
    if d > r { PositiveProduct(d - r, d + r); }
    if d < -r { PositiveProduct(r - d, -d - r); }
  }

  lemma QuotientGap(a: real, b: real, d: real)
    requires d > 0.0 && -d < b - a < d
    ensures -1.0 < b / d - a / d < 1.0
  {
    var gap := b / d - a / d;
    assert b / d * d == b && a / d * d == a;
    assert gap * d == b - a;
    if gap >= 1.0 { Ordered(1.0, gap, d); }
    if gap <= -1.0 { Ordered(gap, -1.0, d); }
  }

  lemma FloorsAreNear(a: real, b: real, resolution: real)
    requires resolution > 0.0 && -resolution < b - a < resolution
    ensures -1 <= (b / resolution).Floor - (a / resolution).Floor <= 1
  {
    QuotientGap(a, b, resolution);
  }

  predicate Adjacent(a: (int, int), b: (int, int)) {
    -1 <= a.0 - b.0 <= 1 && -1 <= a.1 - b.1 <= 1
  }

  /** Points within a quarter of a cell lie in the same or in neighbouring cells, however the map is turned. */
  lemma NearPointsAreAdjacent(g: Grid, p: Point, q: Point)
    requires Rigid(g) && g.resolution > 0.0 && SquaredDistance(p, q) <= Square(g.resolution * 0.25)
    ensures Adjacent(CellOf(g, p), CellOf(g, q))
  {
    LocalKeepsDistance(g, p, q);
    var a, b, r := Local(g, p), Local(g, q), g.resolution * 0.25;
    SmallSquare(b.x - a.x, r);
    SmallSquare(b.y - a.y, r);
    FloorsAreNear(a.x, b.x, g.resolution);
    FloorsAreNear(a.y, b.y, g.resolution);
  }

  // ----- The check -----

  /** The square of the longest step between samples, half a cell. */
  function Unit(g: Grid): (u: real)
    requires g.resolution > 0.0
    ensures u > 0.0
  {
    SquareIsPositive(g.resolution * 0.5);
    Square(g.resolution * 0.5)
  }

  lemma SquareIsPositive(x: real)
    requires x > 0.0
    ensures Square(x) > 0.0
  {
    var inverse := 1.0 / x;
    assert inverse * x == 1.0;
    assert inverse * Square(x) == (inverse * x) * x;
    FactorIsPositive(Square(x), inverse, x);
  }

  lemma FactorIsPositive(s: real, factor: real, product: real)
    requires factor * s == product && factor > 0.0 && product > 0.0
    ensures s > 0.0
  {
    if s <= 0.0 { Ordered(s, 0.0, factor); }
  }

  method CheckSamples(samples: seq<Point>, g: Grid) returns (refused: Option<Error>, ghost at: nat)
    requires ValidGrid(g)
    ensures refused.None? <==> forall k :: 0 <= k < |samples| ==> Free(g, samples[k])
    ensures refused.Some? ==> at < |samples| && IsFirstRefusal(samples, g, at, refused.value)
  {
    for k: nat := 0 to |samples|
      invariant forall j :: 0 <= j < k ==> Free(g, samples[j])
    {
      at := k;
      var cell := CellOf(g, samples[k]);
      if !Inside(g, cell) { return Some(Outside(k)), at; }
      var occupancy := g.data[Index(g, cell)];
      if occupancy < 0 { return Some(Unknown(k)), at; }
      if occupancy >= LETHAL { return Some(Occupied(k)), at; }
    }
    return None, 0;
  }

  datatype Option<+T> = None | Some(value: T)

  /** The first sample that is not free, and why. */
  ghost predicate IsFirstRefusal(samples: seq<Point>, g: Grid, k: nat, error: Error)
    requires ValidGrid(g) && k < |samples|
  {
    && (forall j :: 0 <= j < k ==> Free(g, samples[j]))
    && var cell := CellOf(g, samples[k]);
      error == (
        if !Inside(g, cell) then Outside(k)
        else if g.data[Index(g, cell)] < 0 then Unknown(k)
        else Occupied(k))
      && !Free(g, samples[k])
  }

  method ValidatePathAgainstMap(points: seq<Point>, g: Grid) returns (r: Result<Summary>, ghost at: nat)
    ensures r.Ok? <==> points != [] && ValidGrid(g) && forall s :: s in Sampled(points, CutAt(Unit(g))) ==> Free(g, s)
    ensures r.Ok? ==> r.value == Summary(|Sampled(points, CutAt(Unit(g)))|, g.width, g.height, g.resolution)
    ensures points != [] && ValidGrid(g) && r.Err? ==>
      at < |Sampled(points, CutAt(Unit(g)))| && IsFirstRefusal(Sampled(points, CutAt(Unit(g))), g, at, r.error)
  {
    at := 0;
    if !g.inMapFrame { return Err(WrongFrame), at; }
    if g.width <= 0 || g.height <= 0 || g.resolution <= 0.0 { return Err(BadDimensions), at; }
    if |g.data| != g.width * g.height { return Err(BadLength), at; }
    if points == [] { return Err(EmptyPath), at; }
    var sampled := SamplePath(points, Unit(g));
    var refused;
    refused, at := CheckSamples(sampled, g);
    if refused.Some? { return Err(refused.value), at; }
    r := Ok(Summary(|sampled|, g.width, g.height, g.resolution));
  }

  lemma QuarterCell(g: Grid)
    requires g.resolution > 0.0
    ensures Square(0.5) * Unit(g) == Square(g.resolution * 0.25)
  {
    SquareOfProduct(0.5, g.resolution * 0.5);
  }

  /**
   What acceptance means for the whole polyline: each of its points is within a quarter of a cell
   of a sample in a known free cell, and lies in that cell or in one that touches it.
   */
  lemma AcceptedPathIsNearFreeCells(points: seq<Point>, g: Grid, i: nat, t: real) returns (sample: Point)
    requires ValidGrid(g) && Rigid(g) && i + 1 < |points| && 0.0 <= t <= 1.0
    requires forall s :: s in Sampled(points, CutAt(Unit(g))) ==> Free(g, s)
    ensures sample in Sampled(points, CutAt(Unit(g))) && Free(g, sample)
    ensures SquaredDistance(At(points[i], points[i + 1], t), sample) <= Square(g.resolution * 0.25)
    ensures Adjacent(CellOf(g, At(points[i], points[i + 1], t)), CellOf(g, sample))
  {
    sample := PolylineIsCovered(points, Unit(g), i, t);
    QuarterCell(g);
    NearPointsAreAdjacent(g, At(points[i], points[i + 1], t), sample);
  }
}
