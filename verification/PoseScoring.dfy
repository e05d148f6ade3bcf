/**
 The beam score of scripts/refine_initialpose_offline.py over exact reals.  Cosine, sine and the
 likelihood of a squared distance are functions of which only stated bounds are used.
 */
module PoseScoring {
  import opened OccupancyGrid
  import opened Angles
  import DistanceTransform

  datatype Pose = Pose(x: real, y: real, yaw: real)

  datatype BeamSet = BeamSet(endpointX: seq<real>, endpointY: seq<real>)

  datatype Config = Config(
    searchXy: real, searchYaw: real, xyStep: real, yawStep: real, refinementLevels: nat,
    hitSigma: real, hitDistance: real, unknownPenalty: real, outOfBoundsPenalty: real, footprintRadius: real,
    minBeams: int, minScore: real, minKnownFraction: real, minHitFraction: real, minImprovement: real,
    uniqueTranslation: real, uniqueYaw: real, minUniqueMargin: real)

  /** The likelihood takes the squared distance and the spread. */
  datatype Mathematics = Mathematics(
    pi: real, cosine: real -> real, sine: real -> real, likelihood: (real, real) -> real, ring: seq<(real, real)>)

  ghost predicate Sane(m: Mathematics) {
    m.pi > 0.0 && forall d, s {:trigger m.likelihood(d, s)} :: 0.0 < m.likelihood(d, s) <= 1.0
  }

  datatype PoseScore = PoseScore(
    pose: Pose, score: real, beams: nat, known: nat, unknown: nat, outOfBounds: nat, hit: nat, occupied: nat, clear: bool)

  // ----- Cells -----

  /** The cell of a point, possibly outside the map. */
  function WorldToCell(grid: GridMap, x: real, y: real): (int, int)
    requires grid.resolution > 0.0
  {
    var dx, dy := x - grid.originX, y - grid.originY;
    var localX := grid.originCos * dx + grid.originSin * dy;
    var localY := -grid.originSin * dx + grid.originCos * dy;
    ((localX / grid.resolution).Floor, (localY / grid.resolution).Floor)
  }

  predicate Inside(grid: GridMap, cell: (int, int)) {
    0 <= cell.0 < grid.width && 0 <= cell.1 < grid.height
  }

  ghost predicate FreeAt(grid: GridMap, x: real, y: real)
    requires grid.Valid()
  {
    var cell := WorldToCell(grid, x, y);
    Inside(grid, cell) && 0 <= grid.occupancy[grid.Cell(cell.0, cell.1)] < grid.occupiedThreshold
  }

  /** The centre, and for a positive radius the points of two rings. */
  function Samples(pose: Pose, radius: real, ring: seq<(real, real)>): (points: seq<(real, real)>)
    ensures points != []
  {
    [(pose.x, pose.y)] + if radius > 0.0 then RingAt(pose, radius * 0.5, ring) + RingAt(pose, radius, ring) else []
  }

  function RingAt(pose: Pose, radius: real, ring: seq<(real, real)>): seq<(real, real)> {
    seq(|ring|, i requires 0 <= i < |ring| => (pose.x + radius * ring[i].0, pose.y + radius * ring[i].1))
  }

  ghost predicate FootprintClear(grid: GridMap, pose: Pose, radius: real, ring: seq<(real, real)>)
    requires grid.Valid()
  {
    forall p :: p in Samples(pose, radius, ring) ==> FreeAt(grid, p.0, p.1)
  }

  method FootprintIsClear(grid: GridMap, pose: Pose, radius: real, ring: seq<(real, real)>) returns (clear: bool)
    requires grid.Valid()
    ensures clear == FootprintClear(grid, pose, radius, ring)
  {
    var samples := Samples(pose, radius, ring);
    for i := 0 to |samples|
      invariant forall j :: 0 <= j < i ==> FreeAt(grid, samples[j].0, samples[j].1)
    {
      var cell := WorldToCell(grid, samples[i].0, samples[i].1);
      if !Inside(grid, cell) {
        assert samples[i] in samples && !FreeAt(grid, samples[i].0, samples[i].1);
        return false;
      }
      var value := grid.occupancy[grid.Cell(cell.0, cell.1)];
      if value < 0 || value >= grid.occupiedThreshold {
        assert samples[i] in samples && !FreeAt(grid, samples[i].0, samples[i].1);
        return false;
      }
    }
    return true;
  }

  // ----- Beams -----

  datatype Tally = Tally(total: real, known: nat, unknown: nat, outOfBounds: nat, hit: nat, occupied: nat)

  const EMPTY: Tally := Tally(0.0, 0, 0, 0, 0, 0)

  function EndpointCell(grid: GridMap, pose: Pose, m: Mathematics, localX: real, localY: real): (int, int)
    requires grid.resolution > 0.0
  {
    var c, s := m.cosine(pose.yaw), m.sine(pose.yaw);
    WorldToCell(grid, pose.x + c * localX - s * localY, pose.y + s * localX + c * localY)
  }

  /** The squared distance of a cell in metres; the field holds squared cells. */
  function SquaredMetres(grid: GridMap, squaredCells: real): real {
    squaredCells * (grid.resolution * grid.resolution)
  }

  /** The distance is at most the hit distance; none is at most a negative one. */
  predicate IsHit(grid: GridMap, squaredCells: real, hitDistance: real) {
    hitDistance >= 0.0 && SquaredMetres(grid, squaredCells) <= hitDistance * hitDistance
  }

  /** One endpoint adds its penalty or its likelihood. */
  function AddBeam(grid: GridMap, field: seq<real>, cell: (int, int), t: Tally, config: Config, m: Mathematics): Tally
    requires grid.Valid() && |field| == |grid.occupancy|
  {
    if !Inside(grid, cell) then t.(outOfBounds := t.outOfBounds + 1, total := t.total + config.outOfBoundsPenalty)
    else
      var i := grid.Cell(cell.0, cell.1);
      if grid.occupancy[i] < 0 then t.(unknown := t.unknown + 1, total := t.total + config.unknownPenalty)
      else
        t.(known := t.known + 1,
           total := t.total + m.likelihood(SquaredMetres(grid, field[i]), config.hitSigma),
           hit := t.hit + if IsHit(grid, field[i], config.hitDistance) then 1 else 0,
           occupied := t.occupied + if grid.occupancy[i] >= grid.occupiedThreshold then 1 else 0)
  }

  function EndpointCells(grid: GridMap, pose: Pose, m: Mathematics, beams: BeamSet): seq<(int, int)>
    requires grid.resolution > 0.0 && |beams.endpointX| == |beams.endpointY|
  {
    seq(|beams.endpointX|, i requires 0 <= i < |beams.endpointX| =>
      EndpointCell(grid, pose, m, beams.endpointX[i], beams.endpointY[i]))
  }

  type Adder = (Tally, (int, int)) -> Tally

  function BeamAdder(grid: GridMap, field: seq<real>, config: Config, m: Mathematics): Adder
    requires grid.Valid() && |field| == |grid.occupancy|
  {
    (t, cell) => AddBeam(grid, field, cell, t, config, m)
  }

  /** The beams up to a number, added one by one. */
  function TallyOf(cells: seq<(int, int)>, n: nat, add: Adder): Tally
    requires n <= |cells|
  {
    if n == 0 then EMPTY else add(TallyOf(cells, n - 1, add), cells[n - 1])
  }

  function Min(a: real, b: real): real {
    if a <= b then a else b
  }

  /** The score that an unclear footprint is given instead of its beams. */
  function UnclearScore(config: Config): real {
    Min(config.unknownPenalty, config.outOfBoundsPenalty) - 1.0
  }

  ghost function Score(
    grid: GridMap, field: seq<real>, beams: BeamSet, pose: Pose, config: Config, m: Mathematics): PoseScore
    requires grid.Valid() && |field| == |grid.occupancy|
    requires 0 < |beams.endpointX| == |beams.endpointY|
  {
    var n := |beams.endpointX|;
    var t := TallyOf(EndpointCells(grid, pose, m, beams), n, BeamAdder(grid, field, config, m));
    var clear := FootprintClear(grid, pose, config.footprintRadius, m.ring);
    PoseScore(pose, if clear then t.total / n as real else UnclearScore(config),
      n, t.known, t.unknown, t.outOfBounds, t.hit, t.occupied, clear)
  }

  method ScorePose(
    grid: GridMap, field: seq<real>, beams: BeamSet, pose: Pose, config: Config, m: Mathematics) returns (r: Result<PoseScore>)
    requires grid.Valid()
    ensures r.Ok? <==> 0 < |beams.endpointX| == |beams.endpointY| && |field| == |grid.occupancy|
    ensures r.Ok? ==> r.value == Score(grid, field, beams, pose, config, m)
  {
    var count := |beams.endpointX|;
    if count <= 0 { return Err("beam denominator must be positive"); }
    if |beams.endpointY| != count { return Err("beam endpoint coordinate lengths differ"); }
    if |field| != grid.width * grid.height { return Err("distance field size does not match map"); }
    var clear := FootprintIsClear(grid, pose, config.footprintRadius, m.ring);
    var t := TallyBeams(grid, field, beams, pose, config, m);
    var score := t.total / count as real;
    if !clear {
      score := Min(config.unknownPenalty, config.outOfBoundsPenalty) - 1.0;
    }
    r := Ok(PoseScore(pose, score, count, t.known, t.unknown, t.outOfBounds, t.hit, t.occupied, clear));
  }

  method TallyBeams(
    grid: GridMap, field: seq<real>, beams: BeamSet, pose: Pose, config: Config, m: Mathematics) returns (t: Tally)
    requires grid.Valid() && |field| == |grid.occupancy| && |beams.endpointX| == |beams.endpointY|
    ensures t == TallyOf(EndpointCells(grid, pose, m, beams), |beams.endpointX|, BeamAdder(grid, field, config, m))
  {
    t := EMPTY;
    ghost var cells, add := EndpointCells(grid, pose, m, beams), BeamAdder(grid, field, config, m);
    for n := 0 to |beams.endpointX|
      invariant t == TallyOf(cells, n, add)
    {
      var cell := EndpointCell(grid, pose, m, beams.endpointX[n], beams.endpointY[n]);
      t := Count(grid, field, cell, t, config, m);
    }
  }

  method Count(grid: GridMap, field: seq<real>, cell: (int, int), t: Tally, config: Config, m: Mathematics) returns (r: Tally)
    requires grid.Valid() && |field| == |grid.occupancy|
    ensures r == AddBeam(grid, field, cell, t, config, m)
  {
    var total, known, hit, occupied := t.total, t.known, t.hit, t.occupied;
    if !Inside(grid, cell) {
      return t.(outOfBounds := t.outOfBounds + 1, total := total + config.outOfBoundsPenalty);
    }
    var index := grid.Cell(cell.0, cell.1);
    var value := grid.occupancy[index];
    if value < 0 {
      return t.(unknown := t.unknown + 1, total := total + config.unknownPenalty);
    }
    known := known + 1;
    total := total + m.likelihood(SquaredMetres(grid, field[index]), config.hitSigma);
    if IsHit(grid, field[index], config.hitDistance) { hit := hit + 1; }
    if value >= grid.occupiedThreshold { occupied := occupied + 1; }
    r := Tally(total, known, t.unknown, t.outOfBounds, hit, occupied);
  }

  // ----- What the counts and the score mean -----

  lemma OccupiedIsHit(grid: GridMap, field: seq<real>, cell: (int, int), hitDistance: real)
    requires grid.Valid() && DistanceTransform.IsField(grid, field) && Inside(grid, cell)
    ensures var i := grid.Cell(cell.0, cell.1);
      grid.occupancy[i] >= grid.occupiedThreshold && hitDistance >= 0.0 ==> IsHit(grid, field[i], hitDistance)
  {
    DistanceTransform.FieldZeroOnOccupied(grid, field, cell.0, cell.1);
    var i := grid.Cell(cell.0, cell.1);
    if grid.occupancy[i] >= grid.occupiedThreshold && hitDistance >= 0.0 {
      assert grid.Occupied(cell.0, cell.1);
      ZeroIsHit(grid, hitDistance);
    }
  }

  lemma ZeroIsHit(grid: GridMap, hitDistance: real)
    requires hitDistance >= 0.0
    ensures IsHit(grid, 0.0, hitDistance)
  {
    assert hitDistance * hitDistance >= 0.0;
  }

  /** Every beam is counted once; occupied endpoints are hits unless no distance is. */
  predicate Conserved(t: Tally, n: nat, hitDistance: real) {
    && t.known + t.unknown + t.outOfBounds == n && t.hit <= t.known && t.occupied <= t.known
    && (hitDistance >= 0.0 ==> t.occupied <= t.hit)
    && (hitDistance < 0.0 ==> t.hit == 0)
  }

  lemma {:induction false} TallyConserves(cells: seq<(int, int)>, n: nat, add: Adder, hitDistance: real)
    requires n <= |cells|
    requires forall t: Tally, k: nat, i :: 0 <= i < |cells| && Conserved(t, k, hitDistance) ==>
      Conserved(add(t, cells[i]), k + 1, hitDistance)
    ensures Conserved(TallyOf(cells, n, add), n, hitDistance)
  {
    if n > 0 {
      TallyConserves(cells, n - 1, add, hitDistance);
    }
  }

  /** Every beam is counted once; an occupied endpoint is a hit because the field is zero there. */
  lemma CountsAreConserved(grid: GridMap, field: seq<real>, beams: BeamSet, pose: Pose, config: Config, m: Mathematics)
    requires grid.Valid() && DistanceTransform.IsField(grid, field)
    requires 0 < |beams.endpointX| == |beams.endpointY|
    ensures var s := Score(grid, field, beams, pose, config, m);
      && s.known + s.unknown + s.outOfBounds == s.beams == |beams.endpointX| && s.hit <= s.known && s.occupied <= s.known
      && (config.hitDistance >= 0.0 ==> s.occupied <= s.hit) && (config.hitDistance < 0.0 ==> s.hit == 0)
  {
    var cells, add, d := EndpointCells(grid, pose, m, beams), BeamAdder(grid, field, config, m), config.hitDistance;
    forall t: Tally, k: nat, i | 0 <= i < |cells| && Conserved(t, k, d) ensures Conserved(add(t, cells[i]), k + 1, d) {
      if Inside(grid, cells[i]) {
        OccupiedIsHit(grid, field, cells[i], d);
      }
      AddConserves(grid, field, cells[i], t, k, config, m);
    }
    TallyConserves(cells, |cells|, add, d);
  }

  lemma AddConserves(grid: GridMap, field: seq<real>, cell: (int, int), t: Tally, n: nat, config: Config, m: Mathematics)
    requires grid.Valid() && |field| == |grid.occupancy| && Conserved(t, n, config.hitDistance)
    requires Inside(grid, cell) ==>
      var i := grid.Cell(cell.0, cell.1);
      grid.occupancy[i] >= grid.occupiedThreshold && config.hitDistance >= 0.0 ==> IsHit(grid, field[i], config.hitDistance)
    ensures Conserved(AddBeam(grid, field, cell, t, config, m), n + 1, config.hitDistance)
  {
  }

  function WorstBeam(config: Config): real {
    Min(Min(config.unknownPenalty, config.outOfBoundsPenalty), 0.0)
  }

  function BestBeam(config: Config): real {
    var top := if config.unknownPenalty >= config.outOfBoundsPenalty then config.unknownPenalty else config.outOfBoundsPenalty;
    if top >= 1.0 then top else 1.0
  }

  /** A total is between the worst and the best contribution of its beams. */
  lemma {:induction false} TotalBounds(cells: seq<(int, int)>, n: nat, add: Adder, low: real, high: real, growing: bool)
    requires n <= |cells|
    requires forall t: Tally, i :: 0 <= i < |cells| ==>
      && t.total + low <= add(t, cells[i]).total <= t.total + high
      && (growing ==> add(t, cells[i]).total > t.total)
    ensures n as real * low <= TallyOf(cells, n, add).total <= n as real * high
    ensures growing && n > 0 ==> TallyOf(cells, n, add).total > 0.0
  {
    if n > 0 {
      TotalBounds(cells, n - 1, add, low, high, growing);
      Accumulate(n - 1, TallyOf(cells, n - 1, add).total, TallyOf(cells, n, add).total, low, high);
    }
  }

  lemma Accumulate(n: nat, before: real, after: real, low: real, high: real)
    requires n as real * low <= before <= n as real * high
    requires before + low <= after <= before + high
    ensures (n + 1) as real * low <= after <= (n + 1) as real * high
  {
    var d := n as real;
    assert (d + 1.0) * low == d * low + low && (d + 1.0) * high == d * high + high;
  }

  lemma AddBounds(grid: GridMap, field: seq<real>, cell: (int, int), t: Tally, config: Config, m: Mathematics)
    requires grid.Valid() && |field| == |grid.occupancy| && Sane(m)
    ensures var t' := AddBeam(grid, field, cell, t, config, m);
      && t.total + WorstBeam(config) <= t'.total <= t.total + BestBeam(config)
      && (Min(config.unknownPenalty, config.outOfBoundsPenalty) > 0.0 ==> t'.total > t.total)
  {
  }

  lemma MeanBounds(total: real, n: nat, low: real, high: real)
    requires n > 0 && n as real * low <= total <= n as real * high
    ensures low <= total / n as real <= high
    ensures total > 0.0 ==> total / n as real > 0.0
  {
    var q, d := total / n as real, n as real;
    assert q * d == total;
    if q < low { MulOrder(q, low, d); }
    if high < q { MulOrder(high, q, d); }
    if total > 0.0 && q <= 0.0 { if q < 0.0 { MulOrder(q, 0.0, d); } }
  }

  lemma ClearScoreBounds(grid: GridMap, field: seq<real>, beams: BeamSet, pose: Pose, config: Config, m: Mathematics)
    requires grid.Valid() && |field| == |grid.occupancy| && Sane(m)
    requires 0 < |beams.endpointX| == |beams.endpointY|
    requires FootprintClear(grid, pose, config.footprintRadius, m.ring)
    ensures WorstBeam(config) <= Score(grid, field, beams, pose, config, m).score <= BestBeam(config)
    ensures Min(config.unknownPenalty, config.outOfBoundsPenalty) > 0.0 ==>
      Score(grid, field, beams, pose, config, m).score > 0.0
  {
    var n := |beams.endpointX|;
    var cells, add := EndpointCells(grid, pose, m, beams), BeamAdder(grid, field, config, m);
    var low, high, growing := WorstBeam(config), BestBeam(config), Min(config.unknownPenalty, config.outOfBoundsPenalty) > 0.0;
    forall t: Tally, i | 0 <= i < |cells|
      ensures t.total + low <= add(t, cells[i]).total <= t.total + high && (growing ==> add(t, cells[i]).total > t.total)
    {
      AddBounds(grid, field, cells[i], t, config, m);
    }
    TotalBounds(cells, n, add, low, high, growing);
    MeanBounds(TallyOf(cells, n, add).total, n, low, high);
  }

  /** Any clear pose outscores any unclear one, as long as one of the penalties is at most one. */
  lemma ClearOutscoresUnclear(
    grid: GridMap, field: seq<real>, beams: BeamSet, clear: Pose, unclear: Pose, config: Config, m: Mathematics)
    requires grid.Valid() && |field| == |grid.occupancy| && Sane(m)
    requires 0 < |beams.endpointX| == |beams.endpointY|
    requires Min(config.unknownPenalty, config.outOfBoundsPenalty) <= 1.0
    requires FootprintClear(grid, clear, config.footprintRadius, m.ring)
    requires !FootprintClear(grid, unclear, config.footprintRadius, m.ring)
    ensures Score(grid, field, beams, clear, config, m).score > Score(grid, field, beams, unclear, config, m).score
  {
    var high, low := Score(grid, field, beams, clear, config, m).score, Score(grid, field, beams, unclear, config, m).score;
    ClearScoreBounds(grid, field, beams, clear, config, m);
    assert low == UnclearScore(config);
    PenaltyBelow(config, high);
  }

  lemma PenaltyBelow(config: Config, score: real)
    requires WorstBeam(config) <= score && Min(config.unknownPenalty, config.outOfBoundsPenalty) <= 1.0
    requires Min(config.unknownPenalty, config.outOfBoundsPenalty) > 0.0 ==> score > 0.0
    ensures score > UnclearScore(config)
  {
  }

  // ----- When an unclear pose can win -----

  /** The map of one free and one occupied cell, large enough for the footprint. */
  function TinyMap(side: real): GridMap {
    GridMap(2, 1, side, 0.0, 0.0, 1.0, 0.0, [0, 100], 65)
  }

  function Side(config: Config): real {
    if config.footprintRadius > 0.0 then 4.0 * config.footprintRadius else 1.0
  }

  /** The middle of the free cell, or of the occupied one. */
  function Middle(side: real, wall: bool): Pose {
    Pose(if wall then side * 1.5 else side * 0.5, side * 0.5, 0.0)
  }

  lemma FloorIs(x: real, d: real, n: int)
    requires d > 0.0 && n as real * d <= x < n as real * d + d
    ensures (x / d).Floor == n
  {
    var q, f := x / d, n as real;
    assert q * d == x;
    assert (f + 1.0) * d == f * d + d;
    MulOrder(q, f, d);
    MulOrder(q, f + 1.0, d);
    assert f <= q < f + 1.0;
  }

  lemma TinyCell(side: real, wall: bool, dx: real, dy: real)
    requires side > 0.0 && -side / 4.0 <= dx <= side / 4.0 && -side / 4.0 <= dy <= side / 4.0
    ensures var p := Middle(side, wall); WorldToCell(TinyMap(side), p.x + dx, p.y + dy) == (if wall then 1 else 0, 0)
  {
    var p := Middle(side, wall);
    FloorIs(p.x + dx, side, if wall then 1 else 0);
    FloorIs(p.y + dy, side, 0);
  }

  /** The components of the ring directions are those of points of the unit circle. */
  predicate UnitRing(ring: seq<(real, real)>) {
    forall i :: 0 <= i < |ring| ==> -1.0 <= ring[i].0 <= 1.0 && -1.0 <= ring[i].1 <= 1.0
  }

  lemma ScaledOffset(radius: real, u: real, side: real)
    requires 0.0 < radius && radius * 4.0 <= side && -1.0 <= u <= 1.0
    ensures -side / 4.0 <= radius * u <= side / 4.0
  {
    if u < 1.0 { MulOrder(u, 1.0, radius); }
    if -1.0 < u { MulOrder(-1.0, u, radius); }
    assert u * radius == radius * u;
  }

  lemma SampleOffsets(pose: Pose, radius: real, ring: seq<(real, real)>, side: real, p: (real, real))
    requires side > 0.0 && UnitRing(ring) && (radius > 0.0 ==> radius * 4.0 <= side) && p in Samples(pose, radius, ring)
    ensures -side / 4.0 <= p.0 - pose.x <= side / 4.0 && -side / 4.0 <= p.1 - pose.y <= side / 4.0
  {
    if p != (pose.x, pose.y) {
      assert radius > 0.0;
      if p in RingAt(pose, radius, ring) {
        RingOffsets(pose, radius, ring, side, p);
      } else {
        RingOffsets(pose, radius * 0.5, ring, side, p);
      }
    }
  }

  lemma RingOffsets(pose: Pose, radius: real, ring: seq<(real, real)>, side: real, p: (real, real))
    requires 0.0 < radius && radius * 4.0 <= side && UnitRing(ring) && p in RingAt(pose, radius, ring)
    ensures -side / 4.0 <= p.0 - pose.x <= side / 4.0 && -side / 4.0 <= p.1 - pose.y <= side / 4.0
  {
    var i :| 0 <= i < |ring| && p == RingAt(pose, radius, ring)[i];
    ScaledOffset(radius, ring[i].0, side);
    ScaledOffset(radius, ring[i].1, side);
  }

  lemma TinyFootprint(config: Config, ring: seq<(real, real)>, wall: bool)
    requires UnitRing(ring)
    ensures var side := Side(config);
      TinyMap(side).Valid() && (FootprintClear(TinyMap(side), Middle(side, wall), config.footprintRadius, ring) <==> !wall)
  {
    var side := Side(config);
    var pose, grid := Middle(side, wall), TinyMap(side);
    var points := Samples(pose, config.footprintRadius, ring);
    forall p | p in points ensures FreeAt(grid, p.0, p.1) <==> !wall {
      SampleOffsets(pose, config.footprintRadius, ring, side, p);
      TinyCell(side, wall, p.0 - pose.x, p.1 - pose.y);
    }
    assert points[0] in points;
  }

  lemma TinyTotal(config: Config, field: seq<real>, m: Mathematics, value: real)
    requires |field| == 2 && UnitRing(m.ring) && forall d, s :: m.likelihood(d, s) == value
    ensures var side := Side(config);
      && TinyMap(side).Valid()
      && Score(TinyMap(side), field, BeamSet([0.0], [0.0]), Middle(side, false), config, m).score == value
  {
    var side := Side(config);
    var grid, beams, pose := TinyMap(side), BeamSet([0.0], [0.0]), Middle(side, false);
    TinyFootprint(config, m.ring, false);
    TinyCell(side, false, 0.0, 0.0);
    var cells, add := EndpointCells(grid, pose, m, beams), BeamAdder(grid, field, config, m);
    assert cells == [(0, 0)];
    FreeBeam(grid, field, config, m, value);
    assert TallyOf(cells, 1, add) == add(EMPTY, (0, 0));
  }

  lemma FreeBeam(grid: GridMap, field: seq<real>, config: Config, m: Mathematics, value: real)
    requires grid.Valid() && |field| == |grid.occupancy|
    requires grid.occupancy[grid.Cell(0, 0)] >= 0 && forall d, s :: m.likelihood(d, s) == value
    ensures AddBeam(grid, field, (0, 0), EMPTY, config, m).total == value
  {
  }

  /** Whenever both penalties are above one, a pose inside the wall outscores a clear one for some likelihood. */
  lemma LargePenaltiesInvert(config: Config, base: Mathematics, field: seq<real>) returns (m: Mathematics)
    requires Min(config.unknownPenalty, config.outOfBoundsPenalty) > 1.0 && base.pi > 0.0 && UnitRing(base.ring) && |field| == 2
    ensures Sane(m) && m == base.(likelihood := m.likelihood)
    ensures var side := Side(config);
      && TinyMap(side).Valid()
      && FootprintClear(TinyMap(side), Middle(side, false), config.footprintRadius, m.ring)
      && !FootprintClear(TinyMap(side), Middle(side, true), config.footprintRadius, m.ring)
      && Score(TinyMap(side), field, BeamSet([0.0], [0.0]), Middle(side, false), config, m).score
         < Score(TinyMap(side), field, BeamSet([0.0], [0.0]), Middle(side, true), config, m).score
  {
    var value := Min((Min(config.unknownPenalty, config.outOfBoundsPenalty) - 1.0) * 0.5, 1.0);
    m := base.(likelihood := (_: real, _: real) => value);
    TinyFootprint(config, m.ring, false);
    TinyFootprint(config, m.ring, true);
    TinyTotal(config, field, m, value);
  }

  /** On every map and beam set, and for every likelihood, every clear pose beats every unclear one. */
  ghost predicate ClearAlwaysWins(config: Config, base: Mathematics) {
    forall grid: GridMap, field: seq<real>, beams: BeamSet, clear: Pose, unclear: Pose, m: Mathematics
      {:trigger Score(grid, field, beams, clear, config, m), Score(grid, field, beams, unclear, config, m)} ::
      && grid.Valid() && |field| == |grid.occupancy| && 0 < |beams.endpointX| == |beams.endpointY|
      && Sane(m) && m == base.(likelihood := m.likelihood)
      && FootprintClear(grid, clear, config.footprintRadius, m.ring)
      && !FootprintClear(grid, unclear, config.footprintRadius, m.ring)
      ==> Score(grid, field, beams, clear, config, m).score > Score(grid, field, beams, unclear, config, m).score
  }

  /** That is so exactly when one of the penalties is at most one. */
  lemma ClearWinsExactly(config: Config, base: Mathematics)
    requires base.pi > 0.0 && UnitRing(base.ring)
    ensures ClearAlwaysWins(config, base) <==> Min(config.unknownPenalty, config.outOfBoundsPenalty) <= 1.0
  {
    if Min(config.unknownPenalty, config.outOfBoundsPenalty) <= 1.0 {
      forall grid: GridMap, field: seq<real>, beams: BeamSet, clear: Pose, unclear: Pose, m: Mathematics
        | && grid.Valid() && |field| == |grid.occupancy| && 0 < |beams.endpointX| == |beams.endpointY|
          && Sane(m) && m == base.(likelihood := m.likelihood)
          && FootprintClear(grid, clear, config.footprintRadius, m.ring)
          && !FootprintClear(grid, unclear, config.footprintRadius, m.ring)
        ensures Score(grid, field, beams, clear, config, m).score > Score(grid, field, beams, unclear, config, m).score
      {
        ClearOutscoresUnclear(grid, field, beams, clear, unclear, config, m);
      }
    } else {
      var m := LargePenaltiesInvert(config, base, [1.0, 0.0]);
    }
  }
}
