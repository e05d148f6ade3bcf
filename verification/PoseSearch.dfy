/**
 The memoised grid and refinement search of scripts/refine_initialpose_offline.py over the exact
 beam score.  Comparing hypotenuses is comparing their squares.
 */
module PoseSearch {
  import opened OccupancyGrid
  import opened Angles
  import opened PoseScoring
  import DistanceTransform

  datatype Option<+T> = None | Some(value: T)

  // ----- Rounding -----

  /** Nearest integer; a tie goes to the even neighbour. */
  function RoundHalfEven(x: real): (n: int)
    ensures Abs(n as real - x) <= 0.5
  {
    var f := x.Floor;
    var rest := x - f as real;
    if rest < 0.5 || (rest == 0.5 && f % 2 == 0) then f else f + 1
  }

  /** Opposite numbers round to opposite integers. */
  lemma RoundMirrors(x: real)
    ensures RoundHalfEven(-x) == -RoundHalfEven(x)
  {
    var f := x.Floor;
    if x == f as real {
      assert (-x).Floor == -f;
    } else {
      assert (-x).Floor == -f - 1;
    }
  }

  function Round12(x: real): (r: real)
    ensures Abs(r - x) <= 0.000_000_000_000_5
  {
    RoundHalfEven(x * 1_000_000_000_000.0) as real / 1_000_000_000_000.0
  }

  datatype Key = Key(x: int, y: int, yaw: int)

  function KeyOf(p: Pose, pi: real): Key
    requires pi > 0.0
  {
    Key(RoundHalfEven(p.x * 1_000_000_000.0), RoundHalfEven(p.y * 1_000_000_000.0),
      RoundHalfEven(Normalize(p.yaw, pi) * 1_000_000_000.0))
  }

  // ----- Offsets along one axis -----

  function StepCount(radius: real, step: real): (n: int)
    requires step > 0.0
    ensures n >= 1
  {
    var n := (radius / step + 0.000_000_001).Floor;
    if n >= 1 then n else 1
  }

  type Rounding = real -> real

  ghost predicate Near(round: Rounding) {
    forall x {:trigger round(x)} :: Abs(round(x) - x) <= 0.000_000_000_000_5
  }

  function Multiple(i: int, step: real, round: Rounding): real {
    round(i as real * step)
  }

  ghost predicate IsOffset(v: real, radius: real, step: real, round: Rounding)
    requires step > 0.0
  {
    || v == 0.0 || v == round(radius) || v == round(-radius)
    || exists i: int :: -StepCount(radius, step) <= i <= StepCount(radius, step) && v == Multiple(i, step, round)
  }

  predicate Ascending(s: seq<real>) {
    forall i, j :: 0 <= i < j < |s| ==> s[i] < s[j]
  }

  /** Keeps a sorted list without repetitions. */
  method Insert(s: seq<real>, v: real) returns (r: seq<real>)
    requires Ascending(s)
    ensures Ascending(r) && forall x :: x in r <==> x in s || x == v
  {
    var k := 0;
    while k < |s| && s[k] < v
      invariant k <= |s| && forall i :: 0 <= i < k ==> s[i] < v
    {
      k := k + 1;
    }
    if k < |s| && s[k] == v { return s; }
    r := s[..k] + [v] + s[k..];
    assert s == s[..k] + s[k..];
  }

  method AxisOffsets(radius: real, step: real, round: Rounding) returns (offsets: seq<real>)
    requires radius > 0.0 && step > 0.0
    ensures Ascending(offsets) && forall v :: v in offsets <==> IsOffset(v, radius, step, round)
  {
    var count := StepCount(radius, step);
    offsets := [];
    var index := -count;
    while index <= count
      invariant -count <= index <= count + 1 && Ascending(offsets)
      invariant forall v :: v in offsets <==> exists i: int :: -count <= i < index && v == Multiple(i, step, round)
    {
      offsets := Insert(offsets, Multiple(index, step, round));
      index := index + 1;
    }
    offsets := Insert(offsets, round(-radius));
    offsets := Insert(offsets, 0.0);
    offsets := Insert(offsets, round(radius));
  }

  function Slack(step: real): real {
    0.000_000_001 * step + 0.000_000_000_000_5
  }

  lemma AbsOfProduct(i: int, step: real)
    requires step > 0.0
    ensures Abs(i as real * step) == Abs(i as real) * step
  {
    if i < 0 {
      MulOrder(i as real, 0.0, step);
      assert (-(i as real)) * step == -(i as real * step);
    } else if i > 0 {
      MulOrder(0.0, i as real, step);
    }
  }

  lemma StepsReach(radius: real, step: real, i: int)
    requires 0.0 < step <= radius
    requires -StepCount(radius, step) <= i <= StepCount(radius, step)
    ensures Abs(i as real * step) <= radius + 0.000_000_001 * step
  {
    var q, a := radius / step, Abs(i as real);
    assert q * step == radius;
    if q < 1.0 { MulOrder(q, 1.0, step); }
    var top := q + 0.000_000_001;
    assert a <= StepCount(radius, step) as real <= top;
    ScaleOrder(a, top, step);
    Distribute(q, 0.000_000_001, step);
    AbsOfProduct(i, step);
  }

  lemma ScaleOrder(a: real, b: real, d: real)
    requires a <= b && d > 0.0
    ensures a * d <= b * d
  {
    if a < b { MulOrder(a, b, d); }
  }

  lemma Distribute(a: real, b: real, d: real)
    ensures (a + b) * d == a * d + b * d
  {
  }

  /** With a step no longer than the extent, all offsets stay within it, up to rounding. */
  lemma OffsetsStayInside(v: real, radius: real, step: real, round: Rounding)
    requires 0.0 < step <= radius && Near(round) && IsOffset(v, radius, step, round)
    ensures Abs(v) <= radius + Slack(step)
  {
    if v != 0.0 && v != round(radius) && v != round(-radius) {
      var i: int :| -StepCount(radius, step) <= i <= StepCount(radius, step) && v == Multiple(i, step, round);
      StepsReach(radius, step, i);
    }
  }

  lemma Round12Mirrors(x: real)
    ensures Round12(-x) == -Round12(x)
  {
    var scaled := x * 1_000_000_000_000.0;
    assert -x * 1_000_000_000_000.0 == -scaled;
    RoundMirrors(scaled);
  }

  lemma LongStepIsCountedOnce(radius: real, step: real)
    requires 0.0 < radius < step
    ensures StepCount(radius, step) == 1
  {
    var q := radius / step;
    assert q * step == radius;
    MulOrder(q, 1.0, step);
    assert q < 1.0;
  }

  /** With a longer step only the extent, zero and one whole step are tried. */
  lemma OffsetsOfLongStep(v: real, radius: real, step: real)
    requires 0.0 < radius < step && IsOffset(v, radius, step, Round12)
    ensures v == 0.0 || v == Round12(radius) || v == Round12(-radius) || v == Round12(step) || v == -Round12(step)
  {
    LongStepIsCountedOnce(radius, step);
    Round12Mirrors(step);
    assert Round12(0.0) == 0.0;
    if v != 0.0 && v != Round12(radius) && v != Round12(-radius) {
      var i: int :| -1 <= i <= 1 && v == Multiple(i, step, Round12);
      UnitMultiple(i, step);
    }
  }

  lemma UnitMultiple(i: int, step: real)
    requires -1 <= i <= 1
    ensures Multiple(i, step, Round12) == Round12(if i == 0 then 0.0 else if i == 1 then step else -step)
  {
    assert i as real * step == if i == 0 then 0.0 else if i == 1 then step else -step;
  }

  /** One whole step is always tried. */
  lemma StepIsOffset(radius: real, step: real, round: Rounding)
    requires 0.0 < radius && 0.0 < step
    ensures IsOffset(round(step), radius, step, round)
  {
    assert 1 as real * step == step;
    assert Multiple(1, step, round) == round(step);
  }

  // ----- The search box -----

  /** How far beyond an extent a pose may be: rounding of offsets, and the slack of the refinement. */
  function Tolerance(step: real): real {
    Slack(if step > 1.0 then step else 1.0)
  }

  function Reach(extent: real, step: real): real {
    extent + Tolerance(step)
  }

  /** The step of an axis does not leave the extent; a step beyond it is tried once all the same. */
  predicate XyFits(c: Config) {
    c.xyStep <= c.searchXy || Round12(c.xyStep) <= Reach(c.searchXy, c.xyStep)
  }

  /** A yaw step beyond the extent may come round to it again. */
  predicate YawFits(c: Config, pi: real)
    requires pi > 0.0
  {
    c.yawStep <= c.searchYaw || Abs(Normalize(Round12(c.yawStep), pi)) <= Reach(c.searchYaw, c.yawStep)
  }

  predicate XyWithin(p: Pose, initial: Pose, c: Config) {
    Abs(p.x - initial.x) <= Reach(c.searchXy, c.xyStep) && Abs(p.y - initial.y) <= Reach(c.searchXy, c.xyStep)
  }

  predicate YawWithin(p: Pose, initial: Pose, c: Config, pi: real)
    requires pi > 0.0
  {
    AngularDistance(p.yaw, initial.yaw, pi) <= Reach(c.searchYaw, c.yawStep)
  }

  lemma SlackWithinTolerance(step: real)
    requires step > 0.0
    ensures Slack(step) <= Tolerance(step) && Tolerance(step) >= 0.000_000_001 + 0.000_000_000_000_5
  {
  }

  lemma XyOffsetsFit(v: real, c: Config)
    requires ValidConfig(c) && XyFits(c) && IsOffset(v, c.searchXy, c.xyStep, Round12)
    ensures Abs(v) <= Reach(c.searchXy, c.xyStep)
  {
    SlackWithinTolerance(c.xyStep);
    if c.xyStep <= c.searchXy {
      OffsetsStayInside(v, c.searchXy, c.xyStep, Round12);
    } else {
      OffsetsOfLongStep(v, c.searchXy, c.xyStep);
    }
  }

  lemma YawOffsetsFit(v: real, c: Config, pi: real)
    requires pi > 0.0 && ValidConfig(c) && YawFits(c, pi) && IsOffset(v, c.searchYaw, c.yawStep, Round12)
    ensures Abs(Normalize(v, pi)) <= Reach(c.searchYaw, c.yawStep)
  {
    SlackWithinTolerance(c.yawStep);
    NormalizeSmallest(v, pi);
    if c.yawStep <= c.searchYaw {
      OffsetsStayInside(v, c.searchYaw, c.yawStep, Round12);
    } else {
      OffsetsOfLongStep(v, c.searchYaw, c.yawStep);
      NormalizeMirrors(Round12(c.yawStep), pi);
    }
  }

  /** A yaw step of almost a whole turn is far beyond the extent and fits all the same. */
  lemma WholeTurnFits(c: Config)
    requires c.searchYaw == 0.2 && c.yawStep == 6.28
    ensures c.yawStep > c.searchYaw && YawFits(c, 3.14)
  {
    assert Round12(6.28) == 6.28 by {
      assert 6.28 * 1_000_000_000_000.0 == 6_280_000_000_000.0;
    }
    NormalizeUnique(6.28, 1, 3.14);
  }

  // ----- Ranking -----

  function SquaredTranslation(a: Pose, b: Pose): real {
    (a.x - b.x) * (a.x - b.x) + (a.y - b.y) * (a.y - b.y)
  }

  datatype Rank = Rank(score: real, squaredTranslation: real, yawDistance: real)

  /** Score first, then nearness to the manual pose, then nearness in yaw. */
  predicate AtMost(a: Rank, b: Rank) {
    || a.score < b.score
    || (a.score == b.score && a.squaredTranslation > b.squaredTranslation)
    || (a.score == b.score && a.squaredTranslation == b.squaredTranslation && a.yawDistance >= b.yawDistance)
  }

  type Ranking = PoseScore -> Rank

  function RankTo(initial: Pose, pi: real): Ranking
    requires pi > 0.0
  {
    (s: PoseScore) => Rank(s.score, SquaredTranslation(s.pose, initial), AngularDistance(s.pose.yaw, initial.yaw, pi))
  }

  /** Apart by the unique translation or by the unique yaw. */
  predicate Distinct(a: Pose, b: Pose, config: Config, pi: real)
    requires pi > 0.0
  {
    || config.uniqueTranslation <= 0.0
    || SquaredTranslation(a, b) >= config.uniqueTranslation * config.uniqueTranslation
    || AngularDistance(a.yaw, b.yaw, pi) >= config.uniqueYaw
  }

  predicate ValidConfig(c: Config) {
    && c.hitSigma > 0.0 && c.hitDistance > 0.0 && c.searchXy > 0.0 && c.searchYaw > 0.0 && c.xyStep > 0.0 && c.yawStep > 0.0
  }

  datatype Decision = Accept | KeepInitial | RejectBoundary | RejectAmbiguous | RejectInsufficientGain | RejectQuality

  datatype Report = Report(
    decision: Decision, current: PoseScore, best: PoseScore, alternative: Option<PoseScore>, candidates: nat,
    xyStep: real, yawStep: real)

  predicate OnBoundary(best: Pose, initial: Pose, xyStep: real, yawStep: real, c: Config, pi: real)
    requires pi > 0.0
  {
    || Abs(best.x - initial.x) >= c.searchXy - xyStep * 0.51
    || Abs(best.y - initial.y) >= c.searchXy - xyStep * 0.51
    || AngularDistance(best.yaw, initial.yaw, pi) >= c.searchYaw - yawStep * 0.51
  }

  predicate Quality(s: PoseScore, c: Config) {
    && s.beams > 0
    && s.score >= c.minScore
    && s.known as real / s.beams as real >= c.minKnownFraction
    && s.hit as real / s.beams as real >= c.minHitFraction
  }

  type Memo = map<Key, PoseScore>

  predicate Keeps(memo: Memo, k: Key, keep: PoseScore -> bool) {
    k in memo && memo[k].clear && keep(memo[k])
  }

  ghost predicate IsBest(memo: Memo, best: Key, keep: PoseScore -> bool, rank: Ranking) {
    Keeps(memo, best, keep) && forall k :: Keeps(memo, k, keep) ==> AtMost(rank(memo[k]), rank(memo[best]))
  }

  /** The first of the highest-ranked clear entries that pass a filter. */
  method BestWhere(memo: Memo, order: seq<Key>, keep: PoseScore -> bool, rank: Ranking) returns (best: Option<Key>)
    requires forall k :: k in order <==> k in memo
    ensures best.Some? ==> IsBest(memo, best.value, keep, rank)
    ensures best.None? ==> forall k :: !Keeps(memo, k, keep)
  {
    best := None;
    for i := 0 to |order|
      invariant best.Some? ==> Keeps(memo, best.value, keep)
      invariant forall j :: 0 <= j < i && Keeps(memo, order[j], keep) ==>
        best.Some? && AtMost(rank(memo[order[j]]), rank(memo[best.value]))
    {
      var candidate := memo[order[i]];
      if candidate.clear && keep(candidate) && (best.None? || !AtMost(rank(candidate), rank(memo[best.value]))) {
        best := Some(order[i]);
      }
    }
  }

  predicate Any(s: PoseScore) {
    true
  }

  /** The best entries of successive levels, none ranked below the one before. */
  ghost predicate NeverWorse(memo: Memo, bests: seq<Key>, rank: Ranking) {
    && (forall i :: 0 <= i < |bests| ==> bests[i] in memo)
    && (forall i :: 0 < i < |bests| ==> AtMost(rank(memo[bests[i - 1]]), rank(memo[bests[i]])))
  }

  lemma NeverWorseGrows(before: Memo, after: Memo, bests: seq<Key>, rank: Ranking)
    requires NeverWorse(before, bests, rank)
    requires forall k :: k in before ==> k in after && after[k] == before[k]
    ensures NeverWorse(after, bests, rank)
  {
  }

  function Halved(step: real, times: nat): real {
    if times == 0 then step else Halved(step, times - 1) * 0.5
  }

  /** The clear candidates that a pose has to stand out from. */
  predicate IsRival(memo: Memo, best: Key, k: Key, c: Config, pi: real)
    requires best in memo && pi > 0.0
  {
    k in memo && memo[k].clear && k != best && Distinct(memo[k].pose, memo[best].pose, c, pi)
  }

  /** The best pose beats every rival by the unique margin, and there is a rival to beat. */
  ghost predicate StandsOut(memo: Memo, best: Key, c: Config, pi: real)
    requires best in memo && pi > 0.0
  {
    && (exists k :: IsRival(memo, best, k, c, pi))
    && forall k :: IsRival(memo, best, k, c, pi) ==> memo[best].score - memo[k].score >= c.minUniqueMargin
  }

  // ----- The search -----

  class Search {
    const grid: GridMap
    const field: seq<real>
    const beams: BeamSet
    const initial: Pose
    const config: Config
    const m: Mathematics

    /** The memo, with its keys in the order of their first evaluation. */
    var evaluated: map<Key, PoseScore>
    var order: seq<Key>
    /** The poses that were asked for. */
    ghost var asked: set<Pose>

    constructor (grid: GridMap, field: seq<real>, beams: BeamSet, initial: Pose, config: Config, m: Mathematics)
      requires grid.Valid() && DistanceTransform.IsField(grid, field) && Sane(m) && ValidConfig(config)
      requires 0 < |beams.endpointX| == |beams.endpointY|
      ensures Valid() && evaluated == map[] && asked == {}
      ensures this.grid == grid && this.field == field && this.beams == beams && this.initial == initial
      ensures this.config == config && this.m == m
    {
      this.grid, this.field, this.beams, this.initial, this.config, this.m := grid, field, beams, initial, config, m;
      evaluated, order, asked := map[], [], {};
    }

    ghost predicate Ready() {
      && grid.Valid() && DistanceTransform.IsField(grid, field) && Sane(m) && ValidConfig(config)
      && 0 < |beams.endpointX| == |beams.endpointY|
    }

    /** Each entry is the score of its own pose, under the key of that pose, inside the box. */
    ghost predicate Coherent(k: Key, s: PoseScore)
      requires Ready()
    {
      && s == Score(grid, field, beams, s.pose, config, m)
      && k == KeyOf(s.pose, m.pi)
      && Inside(s.pose)
    }

    /** On each axis whose step fits, the pose is within reach. */
    predicate Inside(p: Pose)
      requires m.pi > 0.0
    {
      && (XyFits(config) ==> XyWithin(p, initial, config))
      && (YawFits(config, m.pi) ==> YawWithin(p, initial, config, m.pi))
    }

    ghost predicate Valid() reads this {
      && Ready()
      && (forall k {:trigger Coherent(k, evaluated[k])} :: k in evaluated ==> Coherent(k, evaluated[k]))
      && (forall k :: k in order <==> k in evaluated)
      && (forall i, j :: 0 <= i < j < |order| ==> order[i] != order[j])
      && (forall p {:trigger p in asked} :: p in asked ==> Slot(p) in evaluated && Inside(p))
    }

    /** Entries are only ever added. */
    twostate predicate Grown() reads this {
      && old(asked) <= asked
      && forall k :: k in old(evaluated) ==> k in evaluated && evaluated[k] == old(evaluated)[k]
    }

    method ScoreNormalized(pose: Pose) returns (s: PoseScore)
      requires Ready()
      requires Inside(pose)
      ensures Coherent(KeyOf(pose, m.pi), s)
    {
      var r := ScorePose(grid, field, beams, pose, config, m);
      s := r.value;
    }

    method Evaluate(pose: Pose) returns (s: PoseScore)
      requires Valid()
      requires Inside(pose)
      modifies this
      ensures Valid() && Grown()
      ensures var k := Slot(pose); k in evaluated && s == evaluated[k] && evaluated.Keys == old(evaluated).Keys + {k}
      ensures asked == old(asked) + {pose}
    {
      var normalized := Pose(pose.x, pose.y, Normalize(pose.yaw, m.pi));
      var key := KeyOf(normalized, m.pi);
      if key !in evaluated {
        DistanceOfNormalized(pose.yaw, initial.yaw, m.pi);
        var scored := ScoreNormalized(normalized);
        evaluated := evaluated[key := scored];
        order := order + [key];
      }
      asked := asked + {pose};
      s := evaluated[key];
    }

    /** Offsets of x or y that stay within reach if the step fits. */
    ghost predicate XyReaches(v: real) {
      XyFits(config) ==> Abs(v) <= Reach(config.searchXy, config.xyStep)
    }

    ghost predicate YawReaches(v: real)
      requires m.pi > 0.0
    {
      YawFits(config, m.pi) ==> Abs(Normalize(v, m.pi)) <= Reach(config.searchYaw, config.yawStep)
    }

    lemma ShiftedInside(dx: real, dy: real, dyaw: real)
      requires Ready() && XyReaches(dx) && XyReaches(dy) && YawReaches(dyaw)
      ensures Inside(Shifted(dx, dy, dyaw))
    {
      assert initial.yaw + dyaw - initial.yaw == dyaw;
    }

    /** The key under which a pose is stored. */
    function Slot(p: Pose): Key
      requires m.pi > 0.0
    {
      KeyOf(Pose(p.x, p.y, Normalize(p.yaw, m.pi)), m.pi)
    }

    function Shifted(dx: real, dy: real, dyaw: real): Pose {
      Pose(initial.x + dx, initial.y + dy, initial.yaw + dyaw)
    }

    ghost predicate SweptYaw(poses: set<Pose>, dx: real, dy: real, yaws: seq<real>, n: nat)
      requires m.pi > 0.0 && n <= |yaws|
    {
      forall k: nat :: k < n ==> Shifted(dx, dy, yaws[k]) in poses
    }

    ghost predicate SweptRow(poses: set<Pose>, dx: real, ys: seq<real>, n: nat, yaws: seq<real>)
      requires m.pi > 0.0 && n <= |ys|
    {
      forall j: nat :: j < n ==> SweptYaw(poses, dx, ys[j], yaws, |yaws|)
    }

    /** Every combination of the offsets was asked for. */
    ghost predicate Swept(poses: set<Pose>, xs: seq<real>, n: nat, ys: seq<real>, yaws: seq<real>)
      requires m.pi > 0.0 && n <= |xs|
    {
      forall i: nat :: i < n ==> SweptRow(poses, xs[i], ys, |ys|, yaws)
    }

    lemma SweptGrows(before: set<Pose>, after: set<Pose>, dx: real, ys: seq<real>, n: nat, yaws: seq<real>)
      requires m.pi > 0.0 && n <= |ys| && SweptRow(before, dx, ys, n, yaws) && before <= after
      ensures SweptRow(after, dx, ys, n, yaws)
    {
      forall j: nat | j < n ensures SweptYaw(after, dx, ys[j], yaws, |yaws|) {
        assert SweptYaw(before, dx, ys[j], yaws, |yaws|);
      }
    }

    lemma SweptRowsGrow(before: set<Pose>, after: set<Pose>, xs: seq<real>, n: nat, ys: seq<real>, yaws: seq<real>)
      requires m.pi > 0.0 && n <= |xs| && Swept(before, xs, n, ys, yaws) && before <= after
      ensures Swept(after, xs, n, ys, yaws)
    {
      forall i: nat | i < n ensures SweptRow(after, xs[i], ys, |ys|, yaws) {
        SweptGrows(before, after, xs[i], ys, |ys|, yaws);
      }
    }

    method SweepYaw(dx: real, dy: real, yaws: seq<real>)
      requires Valid()
      requires XyReaches(dx) && XyReaches(dy) && forall v :: v in yaws ==> YawReaches(v)
      modifies this
      ensures Valid() && Grown()
      ensures SweptYaw(asked, dx, dy, yaws, |yaws|)
    {
      for k: nat := 0 to |yaws|
        invariant Valid() && Grown() && SweptYaw(asked, dx, dy, yaws, k)
      {
        assert yaws[k] in yaws;
        ShiftedInside(dx, dy, yaws[k]);
        var _ := Evaluate(Shifted(dx, dy, yaws[k]));
      }
    }

    method SweepRow(dx: real, ys: seq<real>, yaws: seq<real>)
      requires Valid()
      requires XyReaches(dx) && (forall v :: v in ys ==> XyReaches(v)) && (forall v :: v in yaws ==> YawReaches(v))
      modifies this
      ensures Valid() && Grown() && SweptRow(asked, dx, ys, |ys|, yaws)
    {
      for j: nat := 0 to |ys|
        invariant Valid() && Grown() && SweptRow(asked, dx, ys, j, yaws)
      {
        assert ys[j] in ys;
        ghost var before := asked;
        SweepYaw(dx, ys[j], yaws);
        SweptGrows(before, asked, dx, ys, j, yaws);
      }
    }

    /** All combinations of the offsets, each evaluated once per key. */
    method Sweep(xs: seq<real>, ys: seq<real>, yaws: seq<real>)
      requires Valid()
      requires forall v :: v in xs || v in ys ==> XyReaches(v)
      requires forall v :: v in yaws ==> YawReaches(v)
      modifies this
      ensures Valid() && Grown() && Swept(asked, xs, |xs|, ys, yaws)
    {
      for i: nat := 0 to |xs|
        invariant Valid() && Grown() && Swept(asked, xs, i, ys, yaws)
      {
        assert xs[i] in xs;
        ghost var before := asked;
        SweepRow(xs[i], ys, yaws);
        SweptRowsGrow(before, asked, xs, i, ys, yaws);
      }
    }

    predicate Proposable(p: Pose)
      requires m.pi > 0.0
    {
      && Abs(p.x - initial.x) <= config.searchXy + 0.000_000_001
      && Abs(p.y - initial.y) <= config.searchXy + 0.000_000_001
      && AngularDistance(p.yaw, initial.yaw, m.pi) <= config.searchYaw + 0.000_000_001
    }

    /** One of the 27 poses around a centre, counted in base three. */
    function Neighbour(center: Pose, xyStep: real, yawStep: real, n: nat): Pose
      requires n < 27
    {
      Pose(center.x + (n / 9 - 1) as real * xyStep, center.y + (n / 3 % 3 - 1) as real * xyStep,
        center.yaw + (n % 3 - 1) as real * yawStep)
    }

    /** Every neighbour that the search may propose was asked for. */
    ghost predicate Explored(poses: set<Pose>, center: Pose, xyStep: real, yawStep: real, n: nat)
      requires m.pi > 0.0 && n <= 27
    {
      forall i: nat :: i < n && Proposable(Neighbour(center, xyStep, yawStep, i)) ==>
        Neighbour(center, xyStep, yawStep, i) in poses
    }

    /** The proposals around a centre; those outside the box are skipped. */
    method Propose(center: Pose, xyStep: real, yawStep: real)
      requires Valid()
      modifies this
      ensures Valid() && Grown() && Explored(asked, center, xyStep, yawStep, 27)
    {
      for n: nat := 0 to 27
        invariant Valid() && Grown() && Explored(asked, center, xyStep, yawStep, n)
      {
        var proposal := Neighbour(center, xyStep, yawStep, n);
        if !Proposable(proposal) { continue; }
        SlackWithinTolerance(config.xyStep);
        SlackWithinTolerance(config.yawStep);
        var _ := Evaluate(proposal);
      }
    }

    ghost predicate ExploredAt(memo: Memo, poses: set<Pose>, bests: seq<Key>, i: nat)
      requires m.pi > 0.0 && i < |bests|
    {
      && bests[i] in memo
      && Explored(poses, memo[bests[i]].pose, Halved(config.xyStep, i + 1), Halved(config.yawStep, i + 1), 27)
    }

    /** At each level the neighbours of the best pose so far were evaluated, at half the step of the level before. */
    ghost predicate ExploredLevels(memo: Memo, poses: set<Pose>, bests: seq<Key>)
      requires m.pi > 0.0
    {
      forall i: nat :: i + 1 < |bests| ==> ExploredAt(memo, poses, bests, i)
    }

    lemma ExploredGrows(before: Memo, after: Memo, asked: set<Pose>, asked': set<Pose>, bests: seq<Key>, next: Key)
      requires m.pi > 0.0 && bests != [] && ExploredLevels(before, asked, bests)
      requires asked <= asked' && forall k :: k in before ==> k in after && after[k] == before[k]
      requires ExploredAt(after, asked', bests, |bests| - 1)
      ensures ExploredLevels(after, asked', bests + [next])
    {
      forall i: nat | i + 1 < |bests + [next]| ensures ExploredAt(after, asked', bests + [next], i) {
        if i + 1 < |bests| {
          assert ExploredAt(before, asked, bests, i);
        } else {
          assert ExploredAt(after, asked', bests, i);
        }
      }
    }

    /** One level: the best stays or is replaced by a better one. */
    method Level(best: Key, xyStep: real, yawStep: real, rank: Ranking, ghost bests: seq<Key>) returns (next: Key)
      requires Valid() && IsBest(evaluated, best, Any, rank) && NeverWorse(evaluated, bests, rank)
      requires bests != [] && bests[|bests| - 1] == best
      modifies this
      ensures Valid() && Grown()
      ensures IsBest(evaluated, next, Any, rank) && NeverWorse(evaluated, bests + [next], rank)
      ensures old(evaluated)[best] == evaluated[best] && Explored(asked, evaluated[best].pose, xyStep, yawStep, 27)
    {
      ghost var before := evaluated;
      Propose(evaluated[best].pose, xyStep, yawStep);
      NeverWorseGrows(before, evaluated, bests, rank);
      var found := BestWhere(evaluated, order, Any, rank);
      assert Keeps(evaluated, best, Any);
      next := found.value;
    }

    /** Each level looks around the best pose so far at half the step; the best never gets worse. */
    method Levels(first: Key, rank: Ranking) returns (best: Key, xyStep: real, yawStep: real, ghost bests: seq<Key>)
      requires Valid() && IsBest(evaluated, first, Any, rank)
      modifies this
      ensures Valid() && Grown()
      ensures IsBest(evaluated, best, Any, rank)
      ensures |bests| == config.refinementLevels + 1 && bests[0] == first && bests[|bests| - 1] == best
      ensures NeverWorse(evaluated, bests, rank)
      ensures xyStep == Halved(config.xyStep, config.refinementLevels) && yawStep == Halved(config.yawStep, config.refinementLevels)
      ensures ExploredLevels(evaluated, asked, bests)
    {
      best, xyStep, yawStep, bests := first, config.xyStep, config.yawStep, [first];
      for level := 0 to config.refinementLevels
        invariant Valid() && Grown()
        invariant IsBest(evaluated, best, Any, rank)
        invariant |bests| == level + 1 && bests[0] == first && bests[level] == best
        invariant NeverWorse(evaluated, bests, rank)
        invariant xyStep == Halved(config.xyStep, level) && yawStep == Halved(config.yawStep, level)
        invariant ExploredLevels(evaluated, asked, bests)
      {
        xyStep, yawStep := xyStep * 0.5, yawStep * 0.5;
        ghost var before, poses := evaluated, asked;
        best := Level(best, xyStep, yawStep, rank, bests);
        ExploredGrows(before, evaluated, poses, asked, bests, best);
        bests := bests + [best];
      }
    }

    predicate IsRivalScore(s: PoseScore, best: Key, bestPose: Pose)
      requires m.pi > 0.0
    {
      KeyOf(s.pose, m.pi) != best && Distinct(s.pose, bestPose, config, m.pi)
    }

    /** The best of the rivals decides for all of them. */
    method FindRival(best: Key, rank: Ranking) returns (rival: Option<Key>)
      requires Valid() && best in evaluated && forall s :: rank(s).score == s.score
      ensures rival.Some? ==> IsRival(evaluated, best, rival.value, config, m.pi)
      ensures StandsOut(evaluated, best, config, m.pi) <==>
        rival.Some? && evaluated[best].score - evaluated[rival.value].score >= config.minUniqueMargin
    {
      var bestPose := evaluated[best].pose;
      var keep := (s: PoseScore) => m.pi > 0.0 && IsRivalScore(s, best, bestPose);
      rival := BestWhere(evaluated, order, keep, rank);
      forall k | k in evaluated ensures Keeps(evaluated, k, keep) <==> IsRival(evaluated, best, k, config, m.pi) {
        assert Coherent(k, evaluated[k]);
      }
    }

    predicate Boundary(best: PoseScore, xyStep: real, yawStep: real)
      requires m.pi > 0.0
    {
      OnBoundary(best.pose, initial, xyStep, yawStep, config, m.pi)
    }

    /** The correction is recommended. */
    predicate Accepts(current: PoseScore, best: PoseScore, xyStep: real, yawStep: real, standsOut: bool)
      requires m.pi > 0.0
    {
      && current.beams == best.beams == |beams.endpointX| && |beams.endpointX| >= config.minBeams
      && best.clear && !Boundary(best, xyStep, yawStep) && Quality(best, config)
      && standsOut
      && best.score - current.score >= config.minImprovement
    }

    predicate AlreadyThere(current: PoseScore, best: PoseScore, xyStep: real, yawStep: real)
      requires m.pi > 0.0
    {
      && current.clear && Quality(current, config)
      && SquaredTranslation(best.pose, initial) <= xyStep * 1.01 * (xyStep * 1.01)
      && AngularDistance(best.pose.yaw, initial.yaw, m.pi) <= yawStep * 1.01
    }

    function Decide(current: PoseScore, best: PoseScore, xyStep: real, yawStep: real, standsOut: bool): Decision
      requires m.pi > 0.0
    {
      if Accepts(current, best, xyStep, yawStep, standsOut) then Accept
      else if AlreadyThere(current, best, xyStep, yawStep) then KeepInitial
      else if Boundary(best, xyStep, yawStep) then RejectBoundary
      else if !standsOut then RejectAmbiguous
      else if best.score - current.score < config.minImprovement then RejectInsufficientGain
      else RejectQuality
    }

    lemma OffsetsReach()
      requires Ready()
      ensures forall v :: IsOffset(v, config.searchXy, config.xyStep, Round12) ==> XyReaches(v)
      ensures forall v :: IsOffset(v, config.searchYaw, config.yawStep, Round12) ==> YawReaches(v)
    {
      forall v | IsOffset(v, config.searchXy, config.xyStep, Round12) ensures XyReaches(v) {
        if XyFits(config) { XyOffsetsFit(v, config); }
      }
      forall v | IsOffset(v, config.searchYaw, config.yawStep, Round12) ensures YawReaches(v) {
        if YawFits(config, m.pi) { YawOffsetsFit(v, config, m.pi); }
      }
    }

    method EvaluateAll() returns (current: PoseScore)
      requires Valid() && evaluated == map[]
      modifies this
      ensures Valid() && Slot(initial) in evaluated && current == evaluated[Slot(initial)]
      ensures GridAsked()
    {
      OffsetsReach();
      assert IsOffset(0.0, config.searchXy, config.xyStep, Round12) && IsOffset(0.0, config.searchYaw, config.yawStep, Round12);
      ShiftedInside(0.0, 0.0, 0.0);
      assert Shifted(0.0, 0.0, 0.0) == initial;
      current := Evaluate(initial);
      var xs := AxisOffsets(config.searchXy, config.xyStep, Round12);
      var ys := AxisOffsets(config.searchXy, config.xyStep, Round12);
      var yaws := AxisOffsets(config.searchYaw, config.yawStep, Round12);
      Sweep(xs, ys, yaws);
      forall dx, dy, dyaw
        | && IsOffset(dx, config.searchXy, config.xyStep, Round12) && IsOffset(dy, config.searchXy, config.xyStep, Round12)
          && IsOffset(dyaw, config.searchYaw, config.yawStep, Round12)
        ensures Shifted(dx, dy, dyaw) in asked
      {
        assert dx in xs && dy in ys && dyaw in yaws;
        var i: nat, j: nat, k: nat :|
          i < |xs| && j < |ys| && k < |yaws| && xs[i] == dx && ys[j] == dy && yaws[k] == dyaw;
        assert SweptRow(asked, xs[i], ys, |ys|, yaws);
        assert SweptYaw(asked, dx, ys[j], yaws, |yaws|);
        assert Shifted(dx, dy, yaws[k]) in asked;
      }
    }

    /** The whole grid of offsets around the manual pose was asked for. */
    ghost predicate GridAsked()
      requires Ready()
      reads this
    {
      forall dx, dy, dyaw ::
        && IsOffset(dx, config.searchXy, config.xyStep, Round12) && IsOffset(dy, config.searchXy, config.xyStep, Round12)
        && IsOffset(dyaw, config.searchYaw, config.yawStep, Round12)
        ==> Shifted(dx, dy, dyaw) in asked
    }

    /** The whole search; acceptance says something about every pose that was evaluated. */
    method Run() returns (r: Result<Report>, best: Key, ghost bests: seq<Key>)
      requires Valid() && evaluated == map[]
      modifies this
      ensures Valid() && Slot(initial) in evaluated && GridAsked()
      ensures r.Err? ==> forall k :: k in evaluated ==> !evaluated[k].clear
      ensures r.Ok? ==>
        && IsBest(evaluated, best, Any, RankTo(initial, m.pi))
        && NeverWorse(evaluated, bests, RankTo(initial, m.pi)) && |bests| == config.refinementLevels + 1 && ExploredLevels(evaluated, asked, bests)
        && r.value.best == evaluated[best] && r.value.current == evaluated[Slot(initial)]
        && r.value.candidates == |evaluated|
        && r.value.xyStep == Halved(config.xyStep, config.refinementLevels)
        && r.value.yawStep == Halved(config.yawStep, config.refinementLevels)
        && r.value.decision == Decide(r.value.current, r.value.best, r.value.xyStep, r.value.yawStep,
             StandsOut(evaluated, best, config, m.pi))
    {
      var current := EvaluateAll();
      var rank := RankTo(initial, m.pi);
      best, bests := Slot(initial), [];
      var first := BestWhere(evaluated, order, Any, rank);
      if first.None? {
        forall k | k in evaluated ensures !evaluated[k].clear {
          assert !Keeps(evaluated, k, Any);
        }
        return Err("no search candidate has a clear known-space footprint"), best, bests;
      }
      var xyStep, yawStep;
      best, xyStep, yawStep, bests := Levels(first.value, rank);
      r := Conclude(current, best, xyStep, yawStep, rank);
    }

    method Conclude(current: PoseScore, best: Key, xyStep: real, yawStep: real, rank: Ranking) returns (r: Result<Report>)
      requires Valid() && Slot(initial) in evaluated && current == evaluated[Slot(initial)] && best in evaluated
      requires forall s :: rank(s).score == s.score
      ensures r.Ok?
      ensures r.value.best == evaluated[best] && r.value.current == current && r.value.candidates == |evaluated|
      ensures r.value.xyStep == xyStep && r.value.yawStep == yawStep
      ensures r.value.decision == Decide(current, evaluated[best], xyStep, yawStep, StandsOut(evaluated, best, config, m.pi))
    {
      var rival := FindRival(best, rank);
      var standsOut := rival.Some? && evaluated[best].score - evaluated[rival.value].score >= config.minUniqueMargin;
      var decision := Decide(current, evaluated[best], xyStep, yawStep, standsOut);
      var alternative := if rival.Some? then Some(evaluated[rival.value]) else None;
      r := Ok(Report(decision, current, evaluated[best], alternative, |evaluated|, xyStep, yawStep));
    }
  }

  /** The report is the one of this search for its best entry. */
  ghost predicate Reports(s: Search, r: Report, best: Key)
    reads s
  {
    && s.Valid() && best in s.evaluated && s.Slot(s.initial) in s.evaluated
    && IsBest(s.evaluated, best, Any, RankTo(s.initial, s.m.pi))
    && r.best == s.evaluated[best] && r.current == s.evaluated[s.Slot(s.initial)]
    && r.decision == s.Decide(r.current, r.best, r.xyStep, r.yawStep, StandsOut(s.evaluated, best, s.config, s.m.pi))
  }

  lemma BestIsMaximal(s: Search, r: Report, best: Key)
    requires Reports(s, r, best)
    ensures forall k :: k in s.evaluated && s.evaluated[k].clear ==> s.evaluated[k].score <= r.best.score
    ensures r.best.clear && r.best.beams == r.current.beams == |s.beams.endpointX| > 0
  {
    var rank := RankTo(s.initial, s.m.pi);
    forall k | k in s.evaluated && s.evaluated[k].clear ensures s.evaluated[k].score <= r.best.score {
      assert Keeps(s.evaluated, k, Any);
      assert AtMost(rank(s.evaluated[k]), rank(s.evaluated[best]));
    }
    assert s.Coherent(best, s.evaluated[best]) && s.Coherent(s.Slot(s.initial), s.evaluated[s.Slot(s.initial)]);
  }

  /** What an accepted correction claims about everything that was evaluated. */
  lemma AcceptedPeak(s: Search, r: Report, best: Key)
    requires Reports(s, r, best) && r.decision == Accept
    ensures forall k :: k in s.evaluated && s.evaluated[k].clear ==> s.evaluated[k].score <= r.best.score
    ensures forall k :: IsRival(s.evaluated, best, k, s.config, s.m.pi) ==>
      s.evaluated[k].score <= r.best.score - s.config.minUniqueMargin
    ensures exists k :: IsRival(s.evaluated, best, k, s.config, s.m.pi)
    ensures r.best.score >= r.current.score + s.config.minImprovement
    ensures !OnBoundary(r.best.pose, s.initial, r.xyStep, r.yawStep, s.config, s.m.pi)
    ensures r.best.known + r.best.unknown + r.best.outOfBounds == r.best.beams && r.best.occupied <= r.best.hit <= r.best.known
  {
    BestIsMaximal(s, r, best);
    assert s.Coherent(best, s.evaluated[best]);
    CountsAreConserved(s.grid, s.field, s.beams, r.best.pose, s.config, s.m);
  }

  /** Some rival is within the unique margin of the best entry. */
  ghost predicate Contested(s: Search, r: Report, best: Key)
    requires s.m.pi > 0.0 && best in s.evaluated
    reads s
  {
    exists k :: IsRival(s.evaluated, best, k, s.config, s.m.pi) && r.best.score - s.evaluated[k].score < s.config.minUniqueMargin
  }

  lemma StandsOutUncontested(s: Search, r: Report, best: Key)
    requires Reports(s, r, best)
    ensures StandsOut(s.evaluated, best, s.config, s.m.pi) ==> !Contested(s, r, best)
    ensures !StandsOut(s.evaluated, best, s.config, s.m.pi) ==>
      (forall k :: !IsRival(s.evaluated, best, k, s.config, s.m.pi)) || Contested(s, r, best)
  {
  }

  /** What each refusal says about the report and about whether the best entry stands out. */
  lemma RefusalReasons(s: Search, r: Report, best: Key, standsOut: bool)
    requires s.m.pi > 0.0 && r.decision == s.Decide(r.current, r.best, r.xyStep, r.yawStep, standsOut)
    requires r.best.clear && r.best.beams == r.current.beams == |s.beams.endpointX|
    ensures r.decision == KeepInitial ==> s.AlreadyThere(r.current, r.best, r.xyStep, r.yawStep)
    ensures r.decision == RejectAmbiguous ==> !standsOut
    ensures r.decision == RejectInsufficientGain ==> standsOut && r.best.score - r.current.score < s.config.minImprovement
    ensures r.decision == RejectQuality ==>
      standsOut && (|s.beams.endpointX| < s.config.minBeams || !Quality(r.best, s.config)) && !s.Boundary(r.best, r.xyStep, r.yawStep)
  {
  }

  /** What each refusal says about the evaluated poses. */
  lemma RefusalMeans(s: Search, r: Report, best: Key)
    requires Reports(s, r, best)
    ensures r.decision == KeepInitial ==> s.AlreadyThere(r.current, r.best, r.xyStep, r.yawStep)
    ensures r.decision == RejectAmbiguous ==>
      (forall k :: !IsRival(s.evaluated, best, k, s.config, s.m.pi)) || Contested(s, r, best)
    ensures r.decision == RejectInsufficientGain ==>
      && (forall k :: k in s.evaluated && s.evaluated[k].clear ==> s.evaluated[k].score < r.current.score + s.config.minImprovement)
      && !Contested(s, r, best)
    ensures r.decision == RejectQuality ==>
      && !Contested(s, r, best) && (|s.beams.endpointX| < s.config.minBeams || !Quality(r.best, s.config))
      && !s.Boundary(r.best, r.xyStep, r.yawStep)
  {
    BestIsMaximal(s, r, best);
    StandsOutUncontested(s, r, best);
    RefusalReasons(s, r, best, StandsOut(s.evaluated, best, s.config, s.m.pi));
  }

  /** Every pose that was asked for is within reach, on the axes of position and in yaw, exactly when the steps fit. */
  lemma AskedWithinExactly(s: Search)
    requires s.Valid() && s.GridAsked()
    ensures (forall p :: p in s.asked ==> XyWithin(p, s.initial, s.config)) <==> XyFits(s.config)
    ensures (forall p :: p in s.asked ==> YawWithin(p, s.initial, s.config, s.m.pi)) <==> YawFits(s.config, s.m.pi)
  {
    StepPosesAsked(s);
    if !YawFits(s.config, s.m.pi) {
      var dyaw := Round12(s.config.yawStep);
      assert s.initial.yaw + dyaw - s.initial.yaw == dyaw;
      assert !YawWithin(s.Shifted(0.0, 0.0, dyaw), s.initial, s.config, s.m.pi);
    }
    if !XyFits(s.config) {
      assert !XyWithin(s.Shifted(Round12(s.config.xyStep), 0.0, 0.0), s.initial, s.config);
    }
  }

  lemma StepPosesAsked(s: Search)
    requires s.Valid() && s.GridAsked()
    ensures s.Shifted(Round12(s.config.xyStep), 0.0, 0.0) in s.asked && s.Shifted(0.0, 0.0, Round12(s.config.yawStep)) in s.asked
  {
    var c := s.config;
    StepIsOffset(c.searchXy, c.xyStep, Round12);
    StepIsOffset(c.searchYaw, c.yawStep, Round12);
    assert IsOffset(0.0, c.searchXy, c.xyStep, Round12) && IsOffset(0.0, c.searchYaw, c.yawStep, Round12);
  }

  /** Poses with one key are as good as equal. */
  lemma SameKeyIsNear(p: Pose, q: Pose, pi: real)
    requires pi > 0.0 && KeyOf(p, pi) == KeyOf(q, pi)
    ensures Abs(p.x - q.x) <= 0.000_000_001 && Abs(p.y - q.y) <= 0.000_000_001
    ensures Abs(Normalize(p.yaw, pi) - Normalize(q.yaw, pi)) <= 0.000_000_001
  {
  }

  /** A step that does not fit puts an entry outside the search extents, and one that fits none beyond reach. */
  lemma EntriesLeaveBox(s: Search)
    requires s.Valid() && s.GridAsked()
    ensures XyFits(s.config) ==> forall k :: k in s.evaluated ==> XyWithin(s.evaluated[k].pose, s.initial, s.config)
    ensures YawFits(s.config, s.m.pi) ==> forall k :: k in s.evaluated ==> YawWithin(s.evaluated[k].pose, s.initial, s.config, s.m.pi)
    ensures !XyFits(s.config) ==> exists k :: k in s.evaluated && Abs(s.evaluated[k].pose.x - s.initial.x) > s.config.searchXy
    ensures !YawFits(s.config, s.m.pi) ==>
      exists k :: k in s.evaluated && AngularDistance(s.evaluated[k].pose.yaw, s.initial.yaw, s.m.pi) > s.config.searchYaw
  {
    forall k | k in s.evaluated ensures s.Inside(s.evaluated[k].pose) {
      assert s.Coherent(k, s.evaluated[k]);
    }
    StepPosesAsked(s);
    if !XyFits(s.config) { XyEntryOutside(s); }
    if !YawFits(s.config, s.m.pi) { YawEntryOutside(s); }
  }

  lemma XyEntryOutside(s: Search)
    requires s.Valid() && !XyFits(s.config) && s.Shifted(Round12(s.config.xyStep), 0.0, 0.0) in s.asked
    ensures exists k :: k in s.evaluated && Abs(s.evaluated[k].pose.x - s.initial.x) > s.config.searchXy
  {
    var p := s.Shifted(Round12(s.config.xyStep), 0.0, 0.0);
    var k := s.Slot(p);
    assert s.Coherent(k, s.evaluated[k]);
    SlackWithinTolerance(s.config.xyStep);
    SameKeyIsNear(Pose(p.x, p.y, Normalize(p.yaw, s.m.pi)), s.evaluated[k].pose, s.m.pi);
  }

  lemma NearYawIsOutside(a: real, b: real, center: real, extent: real, pi: real)
    requires pi > 0.0 && Abs(Normalize(a, pi) - Normalize(b, pi)) <= 0.000_000_001
    requires AngularDistance(a, center, pi) > extent + 0.000_000_001
    ensures AngularDistance(b, center, pi) > extent
  {
    DistanceIsSteady(Normalize(a, pi), Normalize(b, pi), center, pi);
    DistanceOfNormalized(a, center, pi);
    DistanceOfNormalized(b, center, pi);
  }

  lemma SlotYawIsNear(p: Pose, q: Pose, pi: real)
    requires pi > 0.0 && KeyOf(Pose(p.x, p.y, Normalize(p.yaw, pi)), pi) == KeyOf(q, pi)
    ensures Abs(Normalize(p.yaw, pi) - Normalize(q.yaw, pi)) <= 0.000_000_001
  {
    SameKeyIsNear(Pose(p.x, p.y, Normalize(p.yaw, pi)), q, pi);
    NormalizeRange(p.yaw, pi);
    NormalizeUnique(Normalize(p.yaw, pi), 0, pi);
  }

  lemma StoredYawIsNear(s: Search, p: Pose)
    requires s.Valid() && p in s.asked
    ensures s.Slot(p) in s.evaluated
    ensures Abs(Normalize(p.yaw, s.m.pi) - Normalize(s.evaluated[s.Slot(p)].pose.yaw, s.m.pi)) <= 0.000_000_001
  {
    assert s.Coherent(s.Slot(p), s.evaluated[s.Slot(p)]);
    SlotYawIsNear(p, s.evaluated[s.Slot(p)].pose, s.m.pi);
  }

  lemma LongYawIsOutside(c: Config, center: real, pi: real)
    requires pi > 0.0 && c.yawStep > 0.0 && !YawFits(c, pi)
    ensures AngularDistance(center + Round12(c.yawStep), center, pi) > c.searchYaw + 0.000_000_001
  {
    SlackWithinTolerance(c.yawStep);
    assert center + Round12(c.yawStep) - center == Round12(c.yawStep);
  }

  lemma YawEntryOutside(s: Search)
    requires s.Valid() && !YawFits(s.config, s.m.pi) && s.Shifted(0.0, 0.0, Round12(s.config.yawStep)) in s.asked
    ensures exists k :: k in s.evaluated && AngularDistance(s.evaluated[k].pose.yaw, s.initial.yaw, s.m.pi) > s.config.searchYaw
  {
    var p := s.Shifted(0.0, 0.0, Round12(s.config.yawStep));
    StoredYawIsNear(s, p);
    LongYawIsOutside(s.config, s.initial.yaw, s.m.pi);
    var stored := s.evaluated[s.Slot(p)].pose.yaw;
    NearYawIsOutside(p.yaw, stored, s.initial.yaw, s.config.searchYaw, s.m.pi);
  }

  /** The checks in front of the search, the distance field, and the search itself. */
  method RefinePose(grid: GridMap, beams: BeamSet, initial: Pose, config: Config, m: Mathematics)
    returns (r: Result<Report>, search: Search?, best: Key)
    requires grid.Valid() && Sane(m)
    ensures search == null ==> r.Err?
    ensures search == null <==>
      || !ValidConfig(config) || |beams.endpointX| < 1 || |beams.endpointY| != |beams.endpointX|
      || forall i :: 0 <= i < |grid.occupancy| ==> grid.occupancy[i] < grid.occupiedThreshold
    ensures search != null ==>
      && search.Valid() && search.grid == grid && search.beams == beams && search.initial == initial
      && search.config == config && search.m == m
      && search.Slot(initial) in search.evaluated && search.GridAsked()
      && (r.Err? <==> forall k :: k in search.evaluated ==> !search.evaluated[k].clear)
    ensures r.Ok? ==>
      && search != null && Reports(search, r.value, best)
      && r.value.xyStep == Halved(config.xyStep, config.refinementLevels)
      && r.value.yawStep == Halved(config.yawStep, config.refinementLevels)
  {
    search, best := null, Key(0, 0, 0);
    if config.hitSigma <= 0.0 || config.hitDistance <= 0.0 { return Err("hit distances must be positive"), search, best; }
    if config.searchXy <= 0.0 || config.searchYaw <= 0.0 { return Err("search extents must be positive"), search, best; }
    if config.xyStep <= 0.0 || config.yawStep <= 0.0 { return Err("search steps must be positive"), search, best; }
    if |beams.endpointX| < 1 { return Err("beam denominator must be positive"), search, best; }
    var field := DistanceTransform.OccupiedDistanceField(grid);
    if field.Err? { return Err(field.message), search, best; }
    if |beams.endpointY| != |beams.endpointX| { return Err("beam endpoint coordinate lengths differ"), search, best; }
    search := new Search(grid, field.value, beams, initial, config, m);
    ghost var bests;
    r, best, bests := search.Run();
    assert r.Ok? ==> Keeps(search.evaluated, best, Any);
  }

  /** A search over the tiny map with a step of one metre and an extent of 0.4 m. */
  method LongStepSearch(m: Mathematics) returns (search: Search?)
    requires Sane(m)
    ensures search != null && search.config.searchXy == 0.4
    ensures exists k :: k in search.evaluated && Abs(search.evaluated[k].pose.x - search.initial.x) > 0.4
  {
    var config := Config(0.4, 0.2, 1.0, 0.1, 0, 0.1, 0.12, -0.75, -1.0, 0.2, 1, 0.0, 0.0, 0.0, 0.0, 0.1, 0.1, 0.0);
    var grid := TinyMap(1.0);
    var r, best;
    assert grid.occupancy[1] >= grid.occupiedThreshold;
    r, search, best := RefinePose(grid, BeamSet([0.0], [0.0]), Pose(0.5, 0.5, 0.0), config, m);
    EntriesLeaveBox(search);
  }
}
