/**
 The exact squared Euclidean distance transform of scripts/refine_initialpose_offline.py.
 One line is transformed by sweeping a lower envelope of parabolas; a grid is transformed by
 sweeping its rows and then its columns.  Both fast forms are proved equal to the plain
 minimum they replace.  Numbers are exact reals; distances stay squared and in cells.
 */
module DistanceTransform {
  import opened OccupancyGrid

  // ----- One line -----

  /** An envelope boundary; the script writes -inf and +inf for the two outer ones. */
  datatype Bound = NegInf | Finite(value: real) | PosInf {
    predicate Below(x: real) {
      NegInf? || (Finite? && value < x)
    }

    predicate AtMost(x: real) {
      NegInf? || (Finite? && value <= x)
    }
  }

  /** Height at q of the parabola rooted at p. */
  function Cost(values: seq<real>, p: nat, q: real): real
    requires p < |values|
  {
    (q - p as real) * (q - p as real) + values[p]
  }

  /** Least height at q over the parabolas rooted in a non-empty list. */
  ghost function EnvelopeMin(values: seq<real>, roots: seq<nat>, q: real): real
    requires 0 < |roots|
    requires forall i :: 0 <= i < |roots| ==> roots[i] < |values|
  {
    var last := Cost(values, roots[|roots| - 1], q);
    if |roots| == 1 then last
    else
      var rest := EnvelopeMin(values, roots[..|roots| - 1], q);
      if rest <= last then rest else last
  }

  /** m is the minimum over all p of (q - p)^2 + values[p]: a lower bound that is attained. */
  ghost predicate IsLineMin(values: seq<real>, q: real, m: real) {
    && (forall p: nat :: p < |values| ==> m <= Cost(values, p, q))
    && (exists p: nat :: p < |values| && Cost(values, p, q) == m)
  }

  /** Where the parabola rooted at c, to the right of p, starts to run below the one rooted at p. */
  function Intersection(values: seq<real>, p: nat, c: nat): real
    requires p < c < |values|
  {
    ((values[c] + (c * c) as real) - (values[p] + (p * p) as real)) / (2.0 * (c - p) as real)
  }

  lemma QuotientOrders(num: real, den: real, q: real)
    requires den > 0.0
    ensures q <= num / den <==> q * den <= num
    ensures num / den <= q <==> num <= q * den
  {
    var s := num / den;
    assert s * den == num;
    if q <= s { assert q * den <= s * den; } else { assert q * den > s * den; }
    if s <= q { assert s * den <= q * den; } else { assert s * den > q * den; }
  }

  lemma CostDifference(a: real, b: real, va: real, vb: real, q: real)
    ensures ((q - a) * (q - a) + va) - ((q - b) * (q - b) + vb)
            == q * (2.0 * (b - a)) - ((vb + b * b) - (va + a * a))
  {
    assert (q - a) * (q - a) == q * q - 2.0 * (q * a) + a * a;
    assert (q - b) * (q - b) == q * q - 2.0 * (q * b) + b * b;
    assert q * (2.0 * (b - a)) == 2.0 * (q * b) - 2.0 * (q * a);
  }

  /** Left of the intersection the parabola rooted at p is the lower one, right of it the one at c. */
  lemma IntersectionSplits(values: seq<real>, p: nat, c: nat, q: real)
    requires p < c < |values|
    ensures q <= Intersection(values, p, c) <==> Cost(values, p, q) <= Cost(values, c, q)
    ensures Intersection(values, p, c) <= q <==> Cost(values, c, q) <= Cost(values, p, q)
  {
    var a, b := p as real, c as real;
    assert (p * p) as real == a * a && (c * c) as real == b * b && (c - p) as real == b - a;
    QuotientOrders((values[c] + b * b) - (values[p] + a * a), 2.0 * (b - a), q);
    CostDifference(a, b, values[p], values[c], q);
  }

  /** Boundary i of a stack: where root i takes over from root i - 1. */
  function Takeover(values: seq<real>, roots: seq<nat>, i: nat): real
    requires 0 < i < |roots| && roots[i - 1] < roots[i] < |values|
  {
    Intersection(values, roots[i - 1], roots[i])
  }

  ghost predicate Ascending(values: seq<real>, roots: seq<nat>) {
    && (forall i :: 0 <= i < |roots| ==> roots[i] < |values|)
    && (forall i, j :: 0 <= i < j < |roots| ==> roots[i] < roots[j])
  }

  /** The stack of roots: ascending roots whose takeover points strictly increase. */
  ghost predicate Hull(values: seq<real>, roots: seq<nat>) {
    && 0 < |roots| && Ascending(values, roots)
    && (forall i, j :: 0 < i < j < |roots| ==> Takeover(values, roots, i) < Takeover(values, roots, j))
  }

  lemma {:induction false} EnvelopeMinBounds(values: seq<real>, roots: seq<nat>, q: real)
    requires 0 < |roots| && forall i :: 0 <= i < |roots| ==> roots[i] < |values|
    ensures forall i :: 0 <= i < |roots| ==> EnvelopeMin(values, roots, q) <= Cost(values, roots[i], q)
    ensures exists i :: 0 <= i < |roots| && EnvelopeMin(values, roots, q) == Cost(values, roots[i], q)
  {
    var n := |roots| - 1;
    if n == 0 {
      assert EnvelopeMin(values, roots, q) == Cost(values, roots[0], q);
    } else {
      var init := roots[..n];
      EnvelopeMinBounds(values, init, q);
      var j :| 0 <= j < n && EnvelopeMin(values, init, q) == Cost(values, init[j], q);
      assert init[j] == roots[j];
      assert EnvelopeMin(values, roots, q) == Cost(values, roots[j], q) || EnvelopeMin(values, roots, q) == Cost(values, roots[n], q);
      forall i | 0 <= i < |roots| ensures EnvelopeMin(values, roots, q) <= Cost(values, roots[i], q) {
        if i < n { assert init[i] == roots[i]; }
      }
    }
  }

  /** A root whose reign would end before it starts can be dropped when c arrives. */
  lemma PopKeepsMin(values: seq<real>, roots: seq<nat>, c: nat, q: real)
    requires 2 <= |roots| && Hull(values, roots) && roots[|roots| - 1] < c < |values|
    requires Intersection(values, roots[|roots| - 1], c) <= Takeover(values, roots, |roots| - 1)
    ensures EnvelopeMin(values, roots[..|roots| - 1] + [c], q) == EnvelopeMin(values, roots + [c], q)
  {
    var n := |roots| - 1;
    var init, prev := roots[..n], roots[n];
    assert (init + [c])[..n] == init && (roots + [c])[..n + 1] == roots;
    EnvelopeMinBounds(values, init, q);
    assert init[n - 1] == roots[n - 1];
    IntersectionSplits(values, prev, c, q);
    IntersectionSplits(values, roots[n - 1], prev, q);
    assert EnvelopeMin(values, init, q) <= Cost(values, prev, q) || Cost(values, c, q) <= Cost(values, prev, q);
  }

  /** Between its two takeover points a root of the hull is the minimum of the whole hull. */
  lemma HullMin(values: seq<real>, roots: seq<nat>, a: nat, q: real)
    requires Hull(values, roots) && a < |roots|
    requires 0 < a ==> Takeover(values, roots, a) <= q
    requires a + 1 < |roots| ==> q <= Takeover(values, roots, a + 1)
    ensures EnvelopeMin(values, roots, q) == Cost(values, roots[a], q)
  {
    EnvelopeMinBounds(values, roots, q);
    LeftOfHull(values, roots, a, q);
    RightOfHull(values, roots, a, q);
  }

  lemma {:induction false} LeftOfHull(values: seq<real>, roots: seq<nat>, a: nat, q: real)
    requires Hull(values, roots) && a < |roots|
    requires 0 < a ==> Takeover(values, roots, a) <= q
    ensures forall i :: 0 <= i <= a ==> Cost(values, roots[a], q) <= Cost(values, roots[i], q)
  {
    if 0 < a {
      IntersectionSplits(values, roots[a - 1], roots[a], q);
      LeftOfHull(values, roots, a - 1, q);
    }
  }

  lemma {:induction false} RightOfHull(values: seq<real>, roots: seq<nat>, a: nat, q: real)
    requires Hull(values, roots) && a < |roots|
    requires a + 1 < |roots| ==> q <= Takeover(values, roots, a + 1)
    ensures forall i :: a <= i < |roots| ==> Cost(values, roots[a], q) <= Cost(values, roots[i], q)
    decreases |roots| - a
  {
    if a + 1 < |roots| {
      IntersectionSplits(values, roots[a], roots[a + 1], q);
      RightOfHull(values, roots, a + 1, q);
    }
  }

  ghost function Upto(n: nat): (s: seq<nat>)
    ensures |s| == n && forall i :: 0 <= i < n ==> s[i] == i
  {
    seq(n, i => i)
  }

  ghost predicate SameMin(values: seq<real>, roots: seq<nat>, seen: nat, q: real) {
    && 0 < |roots| && 0 < seen <= |values| && (forall i :: 0 <= i < |roots| ==> roots[i] < |values|)
    && EnvelopeMin(values, roots, q) == EnvelopeMin(values, Upto(seen), q)
  }

  /** The roots on the stack stand for all of the first `seen` roots. */
  ghost predicate Represents(values: seq<real>, roots: seq<nat>, seen: nat) {
    forall q: real :: SameMin(values, roots, seen, q)
  }

  lemma EnvelopeAppend(values: seq<real>, roots: seq<nat>, c: nat, q: real)
    requires 0 < |roots| && c < |values| && forall i :: 0 <= i < |roots| ==> roots[i] < |values|
    ensures var m, n := EnvelopeMin(values, roots, q), Cost(values, c, q);
            EnvelopeMin(values, roots + [c], q) == if m <= n then m else n
  {
    assert (roots + [c])[..|roots|] == roots;
  }

  lemma ArriveStep(values: seq<real>, roots: seq<nat>, c: nat)
    requires 0 < |roots| && 0 < c < |values| && Represents(values, roots, c)
    ensures Represents(values, roots + [c], c + 1)
  {
    var longer, seen := roots + [c], c + 1;
    assert Upto(seen) == Upto(c) + [c];
    forall q: real ensures SameMin(values, longer, seen, q) {
      assert SameMin(values, roots, c, q);
      EnvelopeAppend(values, roots, c, q);
      EnvelopeAppend(values, Upto(c), c, q);
    }
  }

  lemma HullPrefix(values: seq<real>, roots: seq<nat>)
    requires 2 <= |roots| && Hull(values, roots)
    ensures Hull(values, roots[..|roots| - 1])
    ensures forall i :: 0 < i < |roots| - 1 ==> Takeover(values, roots[..|roots| - 1], i) == Takeover(values, roots, i)
  {
    var init := roots[..|roots| - 1];
    assert Ascending(values, init);
    forall i, j | 0 < i < j < |init| ensures Takeover(values, init, i) < Takeover(values, init, j) {
      assert Takeover(values, init, i) == Takeover(values, roots, i);
      assert Takeover(values, init, j) == Takeover(values, roots, j);
    }
  }

  lemma PopStep(values: seq<real>, roots: seq<nat>, c: nat)
    requires 2 <= |roots| && Hull(values, roots) && roots[|roots| - 1] < c < |values|
    requires Intersection(values, roots[|roots| - 1], c) <= Takeover(values, roots, |roots| - 1)
    requires Represents(values, roots + [c], c + 1)
    ensures Represents(values, roots[..|roots| - 1] + [c], c + 1)
  {
    var shorter, longer, seen := roots[..|roots| - 1] + [c], roots + [c], c + 1;
    forall q: real ensures SameMin(values, shorter, seen, q) {
      assert SameMin(values, longer, seen, q);
      PopKeepsMin(values, roots, c, q);
    }
  }

  lemma PushStep(values: seq<real>, roots: seq<nat>, c: nat)
    requires Hull(values, roots) && roots[|roots| - 1] < c < |values|
    requires 1 < |roots| ==> Takeover(values, roots, |roots| - 1) < Intersection(values, roots[|roots| - 1], c)
    ensures Hull(values, roots + [c])
    ensures forall i :: 0 < i < |roots| ==> Takeover(values, roots + [c], i) == Takeover(values, roots, i)
    ensures Takeover(values, roots + [c], |roots|) == Intersection(values, roots[|roots| - 1], c)
  {
    var longer, n := roots + [c], |roots|;
    assert forall i :: 0 <= i < n ==> longer[i] == roots[i];
    assert longer[n] == c;
    assert forall i :: 0 <= i < n ==> roots[i] <= roots[n - 1];
    assert Ascending(values, longer);
    assert Takeover(values, longer, n) == Intersection(values, roots[n - 1], c);
    forall i | 0 < i < n ensures Takeover(values, longer, i) == Takeover(values, roots, i) {}
    forall i, j | 0 < i < j < |longer| ensures Takeover(values, longer, i) < Takeover(values, longer, j) {
      assert Takeover(values, longer, i) == Takeover(values, roots, i);
      if j < n {
        assert Takeover(values, longer, j) == Takeover(values, roots, j);
      } else if i < n - 1 {
        assert Takeover(values, roots, i) < Takeover(values, roots, n - 1);
      }
    }
  }

  /** The two lists of the script hold exactly this stack and its takeover points. */
  ghost predicate Stored(values: seq<real>, roots: seq<nat>, locations: seq<nat>, boundaries: seq<Bound>) {
    && Hull(values, roots) && |roots| <= |locations| && |locations| + 1 == |boundaries|
    && (forall i :: 0 <= i < |roots| ==> locations[i] == roots[i])
    && boundaries[0] == NegInf
    && (forall i :: 0 < i < |roots| ==> boundaries[i] == Finite(Takeover(values, roots, i)))
  }

  lemma StorePush(values: seq<real>, roots: seq<nat>, locations: seq<nat>, boundaries: seq<Bound>, c: nat)
    requires Stored(values, roots, locations, boundaries) && |roots| < |locations|
    requires roots[|roots| - 1] < c < |values|
    requires boundaries[|roots| - 1].Below(Intersection(values, roots[|roots| - 1], c))
    ensures var n := |roots|;
            Stored(values, roots + [c], locations[n := c],
                   boundaries[n := Finite(Intersection(values, roots[n - 1], c))][n + 1 := PosInf])
  {
    PushStep(values, roots, c);
  }

  lemma StorePop(values: seq<real>, roots: seq<nat>, locations: seq<nat>, boundaries: seq<Bound>, c: nat)
    requires Stored(values, roots, locations, boundaries)
    requires roots[|roots| - 1] < c < |values| && Represents(values, roots + [c], c + 1)
    requires !boundaries[|roots| - 1].Below(Intersection(values, roots[|roots| - 1], c))
    ensures 2 <= |roots| && roots[|roots| - 2] < c
    ensures Stored(values, roots[..|roots| - 1], locations, boundaries)
    ensures Represents(values, roots[..|roots| - 1] + [c], c + 1)
  {
    HullPrefix(values, roots);
    PopStep(values, roots, c);
  }

  method BuildEnvelope(values: seq<real>, locations: array<nat>, boundaries: array<Bound>)
    returns (active: nat, ghost roots: seq<nat>, ghost pops: nat)
    requires 0 < |values| == locations.Length && boundaries.Length == |values| + 1
    modifies locations, boundaries
    ensures |roots| == active + 1 && Stored(values, roots, locations[..], boundaries[..])
    ensures Represents(values, roots, |values|)
    ensures pops + active + 1 == |values|
    ensures boundaries[active + 1] == PosInf
  {
    active := 0;
    locations[0] := 0;
    boundaries[0] := NegInf;
    boundaries[1] := PosInf;
    roots, pops := [0], 0;
    assert Upto(1) == [0];
    for coordinate: nat := 1 to |values|
      invariant |roots| == active + 1 && Stored(values, roots, locations[..], boundaries[..])
      invariant Represents(values, roots, coordinate)
      invariant pops + active + 1 == coordinate && roots[active] < coordinate
      invariant boundaries[active + 1] == PosInf
    {
      ArriveStep(values, roots, coordinate);
      ghost var locationsBefore, boundariesBefore := locations[..], boundaries[..];
      var intersection;
      active, intersection, roots, pops := PopHidden(values, locations, boundaries, coordinate, active, roots, pops);
      StorePush(values, roots, locationsBefore, boundariesBefore, coordinate);
      active := active + 1;
      locations[active] := coordinate;
      boundaries[active] := Finite(intersection);
      boundaries[active + 1] := PosInf;
      roots := roots + [coordinate];
      assert locations[..] == locationsBefore[active := coordinate];
      assert boundaries[..] == boundariesBefore[active := Finite(intersection)][active + 1 := PosInf];
    }
  }

  /** The inner loop: drop every root that the new parabola hides. */
  method PopHidden(values: seq<real>, locations: array<nat>, boundaries: array<Bound>, coordinate: nat,
                   start: nat, ghost rootsBefore: seq<nat>, ghost popsBefore: nat)
    returns (active: nat, intersection: real, ghost roots: seq<nat>, ghost pops: nat)
    requires |rootsBefore| == start + 1 && Stored(values, rootsBefore, locations[..], boundaries[..])
    requires rootsBefore[start] < coordinate < |values|
    requires Represents(values, rootsBefore + [coordinate], coordinate + 1)
    ensures |roots| == active + 1 && Stored(values, roots, locations[..], boundaries[..])
    ensures Represents(values, roots + [coordinate], coordinate + 1)
    ensures pops + active == popsBefore + start && roots[active] < coordinate
    ensures intersection == Intersection(values, roots[active], coordinate) && boundaries[active].Below(intersection)
  {
    active, roots, pops := start, rootsBefore, popsBefore;
    intersection := Intersection(values, locations[active], coordinate);
    while !boundaries[active].Below(intersection)
      invariant |roots| == active + 1 && Stored(values, roots, locations[..], boundaries[..])
      invariant Represents(values, roots + [coordinate], coordinate + 1)
      invariant pops + active == popsBefore + start && roots[active] < coordinate
      invariant intersection == Intersection(values, roots[active], coordinate)
      decreases active
    {
      StorePop(values, roots, locations[..], boundaries[..], coordinate);
      roots := roots[..active];
      active, pops := active - 1, pops + 1;
      intersection := Intersection(values, locations[active], coordinate);
    }
  }

  /**
   The line transform.  Each output is the true minimum, and pops and forward moves together
   stay below the length of the line, so the two nested loops take linear time.
   */
  method Edt1d(values: seq<real>) returns (output: seq<real>, ghost moves: nat)
    requires 0 < |values|
    ensures |output| == |values|
    ensures forall q: nat :: q < |values| ==> IsLineMin(values, q as real, output[q])
    ensures moves < |values|
  {
    var count := |values|;
    var locations := new nat[count];
    var boundaries := new Bound[count + 1](_ => PosInf);
    var out := new real[count];
    var top; ghost var roots;
    top, roots, moves := BuildEnvelope(values, locations, boundaries);
    var active := 0;
    for coordinate := 0 to count
      invariant active <= top && moves + (top - active) < count
      invariant boundaries[active].AtMost(coordinate as real)
      invariant Stored(values, roots, locations[..], boundaries[..]) && boundaries[top + 1] == PosInf
      invariant forall q: nat :: q < coordinate ==> IsLineMin(values, q as real, out[q])
    {
      while boundaries[active + 1].Below(coordinate as real)
        invariant active <= top && moves + (top - active) < count
        invariant boundaries[active].AtMost(coordinate as real)
        decreases top - active
      {
        active, moves := active + 1, moves + 1;
      }
      var delta := coordinate - locations[active];
      EnvelopeIsLineMin(values, roots, active, coordinate);
      out[coordinate] := (delta * delta) as real + values[locations[active]];
    }
    output := out[..];
  }

  lemma EnvelopeIsLineMin(values: seq<real>, roots: seq<nat>, a: nat, q: nat)
    requires Hull(values, roots) && a < |roots| && Represents(values, roots, |values|)
    requires 0 < a ==> Takeover(values, roots, a) <= q as real
    requires a + 1 < |roots| ==> q as real <= Takeover(values, roots, a + 1)
    ensures var delta := q - roots[a];
            IsLineMin(values, q as real, (delta * delta) as real + values[roots[a]])
  {
    var delta := q - roots[a];
    assert (delta * delta) as real == (delta as real) * (delta as real);
    assert delta as real == q as real - roots[a] as real;
    assert Cost(values, roots[a], q as real) == (delta * delta) as real + values[roots[a]];
    HullMin(values, roots, a, q as real);
    EnvelopeMinBounds(values, Upto(|values|), q as real);
    var height := EnvelopeMin(values, Upto(|values|), q as real);
    assert SameMin(values, roots, |values|, q as real);
    forall p: nat {:trigger Cost(values, p, q as real)} | p < |values| ensures height <= Cost(values, p, q as real) {
      assert Upto(|values|)[p] == p;
    }
  }

  // ----- A grid -----

  function Square(d: int): (s: int)
    ensures 0 <= s
  {
    d * d
  }

  function SquaredDistance(x: nat, y: nat, ox: nat, oy: nat): real {
    (Square(x - ox) + Square(y - oy)) as real
  }

  /** The reference: m is the least squared distance from (x, y) to any occupied cell. */
  ghost predicate IsFieldAt(grid: GridMap, x: nat, y: nat, m: real)
    requires grid.Valid()
  {
    && (forall ox: nat, oy: nat :: ox < grid.width && oy < grid.height && grid.Occupied(ox, oy)
          ==> m <= SquaredDistance(x, y, ox, oy))
    && (exists ox: nat, oy: nat :: ox < grid.width && oy < grid.height && grid.Occupied(ox, oy)
          && m == SquaredDistance(x, y, ox, oy))
  }

  ghost predicate IsField(grid: GridMap, field: seq<real>)
    requires grid.Valid()
  {
    && |field| == |grid.occupancy|
    && forall x: nat, y: nat :: x < grid.width && y < grid.height ==> IsFieldAt(grid, x, y, field[grid.Cell(x, y)])
  }

  /** The finite value that stands for "no occupied cell in this row". */
  function Far(grid: GridMap): real {
    ((grid.width + grid.height + 1) * (grid.width + grid.height + 1) * 4) as real
  }

  lemma BelowFar(grid: GridMap, x: nat, y: nat, ox: nat, oy: nat)
    requires x < grid.width && ox < grid.width && y < grid.height && oy < grid.height
    ensures 0.0 <= SquaredDistance(x, y, ox, oy) < Far(grid)
  {
    var w, h, dx, dy := grid.width, grid.height, x - ox, y - oy;
    SquareBound(dx, w);
    SquareBound(dy, h);
    assert (w + h + 1) * (w + h + 1) == w * w + h * h + 1 + 2 * (w * h) + 2 * w + 2 * h;
  }

  lemma SquareBound(d: int, w: nat)
    requires d <= w && -d <= w
    ensures 0 <= Square(d) <= w * w
  {
    if 0 <= d { assert d * d <= d * w <= w * w; } else { assert (-d) * (-d) <= (-d) * w <= w * w; }
  }

  function RowValues(grid: GridMap, y: nat): (values: seq<real>)
    requires grid.Valid() && y < grid.height
    ensures |values| == grid.width
    ensures forall x: nat :: x < grid.width ==> values[x] == if grid.Occupied(x, y) then 0.0 else Far(grid)
  {
    seq(grid.width, x requires 0 <= x < grid.width => if grid.Occupied(x, y) then 0.0 else Far(grid))
  }

  function ColumnValues(grid: GridMap, firstPass: seq<real>, x: nat): (values: seq<real>)
    requires grid.Valid() && x < grid.width && |firstPass| == |grid.occupancy|
    ensures |values| == grid.height
    ensures forall y: nat :: y < grid.height ==> values[y] == firstPass[grid.Cell(x, y)]
  {
    seq(grid.height, y requires 0 <= y < grid.height => firstPass[grid.Cell(x, y)])
  }

  ghost predicate RowDone(grid: GridMap, pass: seq<real>, y: nat)
    requires grid.Valid() && |pass| == |grid.occupancy| && y < grid.height
  {
    forall x: nat :: x < grid.width ==> IsLineMin(RowValues(grid, y), x as real, pass[grid.Cell(x, y)])
  }

  ghost predicate ColumnDone(grid: GridMap, firstPass: seq<real>, result: seq<real>, x: nat)
    requires grid.Valid() && |firstPass| == |result| == |grid.occupancy| && x < grid.width
  {
    forall y: nat :: y < grid.height ==> IsLineMin(ColumnValues(grid, firstPass, x), y as real, result[grid.Cell(x, y)])
  }

  lemma CostIsSquare(values: seq<real>, p: nat, q: nat)
    requires p < |values|
    ensures Cost(values, p, q as real) == Square(q - p) as real + values[p]
  {
    assert (q - p) as real == q as real - p as real;
    assert ((q - p) * (q - p)) as real == ((q - p) as real) * ((q - p) as real);
  }

  lemma RowReaches(grid: GridMap, firstPass: seq<real>, x: nat, y: nat, ox: nat, oy: nat, m: real)
    requires grid.Valid() && |firstPass| == |grid.occupancy| && x < grid.width && y < grid.height
    requires ox < grid.width && oy < grid.height && grid.Occupied(ox, oy) && RowDone(grid, firstPass, oy)
    requires m <= Cost(ColumnValues(grid, firstPass, x), oy, y as real)
    ensures m <= SquaredDistance(x, y, ox, oy)
  {
    var row := RowValues(grid, oy);
    assert firstPass[grid.Cell(x, oy)] <= Cost(row, ox, x as real);
    CostIsSquare(row, ox, x);
    CostIsSquare(ColumnValues(grid, firstPass, x), oy, y);
  }

  lemma RowAttains(grid: GridMap, firstPass: seq<real>, x: nat, y: nat, oy: nat, m: real) returns (ox: nat)
    requires grid.Valid() && |firstPass| == |grid.occupancy| && x < grid.width && y < grid.height
    requires oy < grid.height && RowDone(grid, firstPass, oy)
    requires Cost(ColumnValues(grid, firstPass, x), oy, y as real) == m < Far(grid)
    ensures ox < grid.width && grid.Occupied(ox, oy) && m == SquaredDistance(x, y, ox, oy)
  {
    var row := RowValues(grid, oy);
    assert IsLineMin(row, x as real, firstPass[grid.Cell(x, oy)]);
    ox :| ox < |row| && Cost(row, ox, x as real) == firstPass[grid.Cell(x, oy)];
    CostIsSquare(row, ox, x);
    CostIsSquare(ColumnValues(grid, firstPass, x), oy, y);
    assert m == Square(x - ox) as real + Square(y - oy) as real + row[ox];
  }

  /** Rows first and columns second give the two-dimensional minimum. */
  lemma PassesCompose(grid: GridMap, firstPass: seq<real>, x: nat, y: nat, ex: nat, ey: nat, m: real)
    requires grid.Valid() && |firstPass| == |grid.occupancy| && x < grid.width && y < grid.height
    requires ex < grid.width && ey < grid.height && grid.Occupied(ex, ey)
    requires forall row: nat :: row < grid.height ==> RowDone(grid, firstPass, row)
    requires IsLineMin(ColumnValues(grid, firstPass, x), y as real, m)
    ensures IsFieldAt(grid, x, y, m)
  {
    var column := ColumnValues(grid, firstPass, x);
    forall ox: nat, oy: nat | ox < grid.width && oy < grid.height && grid.Occupied(ox, oy)
      ensures m <= SquaredDistance(x, y, ox, oy)
    {
      assert m <= Cost(column, oy, y as real);
      RowReaches(grid, firstPass, x, y, ox, oy, m);
    }
    BelowFar(grid, x, y, ex, ey);
    var oy: nat :| oy < |column| && Cost(column, oy, y as real) == m;
    var ox := RowAttains(grid, firstPass, x, y, oy, m);
  }

  /** The occupied cell of the map that the search starts from, if there is one. */
  lemma OccupiedCell(grid: GridMap) returns (x: nat, y: nat)
    requires grid.Valid() && exists i :: 0 <= i < |grid.occupancy| && grid.occupancy[i] >= grid.occupiedThreshold
    ensures x < grid.width && y < grid.height && grid.Occupied(x, y)
  {
    var i :| 0 <= i < |grid.occupancy| && grid.occupancy[i] >= grid.occupiedThreshold;
    x, y := grid.IndexIsCell(i);
  }

  /** The two-pass transform; it refuses a map without occupied cells. */
  method OccupiedDistanceField(grid: GridMap) returns (r: Result<seq<real>>)
    requires grid.Valid()
    ensures r.Ok? <==> exists i :: 0 <= i < |grid.occupancy| && grid.occupancy[i] >= grid.occupiedThreshold
    ensures r.Ok? ==> IsField(grid, r.value)
  {
    if !exists i :: 0 <= i < |grid.occupancy| && grid.occupancy[i] >= grid.occupiedThreshold {
      return Err("map contains no occupied cells");
    }
    var firstPass := new real[grid.width * grid.height](_ => 0.0);
    for cellY: nat := 0 to grid.height
      invariant forall y: nat :: y < cellY ==> RowDone(grid, firstPass[..], y)
    {
      ghost var before := firstPass[..];
      var transformed, _ := Edt1d(RowValues(grid, cellY));
      StoreRow(grid, firstPass, cellY, transformed);
      forall y: nat | y < cellY ensures RowDone(grid, firstPass[..], y) {
        assert RowDone(grid, before, y);
      }
    }
    ghost var rows := firstPass[..];
    var result := new real[grid.width * grid.height](_ => 0.0);
    for cellX: nat := 0 to grid.width
      invariant firstPass[..] == rows
      invariant forall x: nat :: x < cellX ==> ColumnDone(grid, rows, result[..], x)
    {
      ghost var before := result[..];
      var transformed, _ := Edt1d(ColumnValues(grid, firstPass[..], cellX));
      StoreColumn(grid, result, cellX, transformed);
      forall x: nat | x < cellX ensures ColumnDone(grid, rows, result[..], x) {
        assert ColumnDone(grid, rows, before, x);
      }
    }
    ghost var ex, ey := OccupiedCell(grid);
    forall x: nat, y: nat | x < grid.width && y < grid.height
      ensures IsFieldAt(grid, x, y, result[..][grid.Cell(x, y)])
    {
      assert ColumnDone(grid, rows, result[..], x);
      PassesCompose(grid, rows, x, y, ex, ey, result[grid.Cell(x, y)]);
    }
    r := Ok(result[..]);
  }

  /** Writes one transformed row over its slice and leaves every other cell alone. */
  method StoreRow(grid: GridMap, pass: array<real>, cellY: nat, transformed: seq<real>)
    requires grid.Valid() && pass.Length == |grid.occupancy| && cellY < grid.height && |transformed| == grid.width
    modifies pass
    ensures forall x: nat, y: nat :: x < grid.width && y < grid.height ==>
              pass[grid.Cell(x, y)] == if y == cellY then transformed[x] else old(pass[grid.Cell(x, y)])
  {
    for x: nat := 0 to grid.width
      invariant forall x': nat, y: nat :: x' < grid.width && y < grid.height ==>
                  pass[grid.Cell(x', y)] == if y == cellY && x' < x then transformed[x'] else old(pass[grid.Cell(x', y)])
    {
      CellsDiffer(grid, x, cellY);
      pass[grid.Cell(x, cellY)] := transformed[x];
    }
  }

  /** Writes one transformed column and leaves every other cell alone. */
  method StoreColumn(grid: GridMap, pass: array<real>, cellX: nat, transformed: seq<real>)
    requires grid.Valid() && pass.Length == |grid.occupancy| && cellX < grid.width && |transformed| == grid.height
    modifies pass
    ensures forall x: nat, y: nat :: x < grid.width && y < grid.height ==>
              pass[grid.Cell(x, y)] == if x == cellX then transformed[y] else old(pass[grid.Cell(x, y)])
  {
    for y: nat := 0 to grid.height
      invariant forall x: nat, y': nat :: x < grid.width && y' < grid.height ==>
                  pass[grid.Cell(x, y')] == if x == cellX && y' < y then transformed[y'] else old(pass[grid.Cell(x, y')])
    {
      CellsDiffer(grid, cellX, y);
      pass[grid.Cell(cellX, y)] := transformed[y];
    }
  }

  lemma CellsDiffer(grid: GridMap, x: nat, y: nat)
    requires grid.Valid() && x < grid.width && y < grid.height
    ensures forall x': nat, y': nat :: x' < grid.width && y' < grid.height && grid.Cell(x', y') == grid.Cell(x, y)
              ==> x' == x && y' == y
  {
    forall x': nat, y': nat | x' < grid.width && y' < grid.height && grid.Cell(x', y') == grid.Cell(x, y)
      ensures x' == x && y' == y
    {
      if y' < y { grid.RowsInOrder(x', y', y); }
      if y < y' { grid.RowsInOrder(x, y, y'); }
    }
  }

  lemma ZeroDistance(x: nat, y: nat, ox: nat, oy: nat)
    ensures SquaredDistance(x, y, ox, oy) == 0.0 <==> x == ox && y == oy
  {
    var dx, dy := x - ox, y - oy;
    if dx != 0 { assert dx * dx > 0; }
    if dy != 0 { assert dy * dy > 0; }
  }

  /** The field is zero exactly on occupied cells and the far sentinel never survives into it. */
  lemma FieldZeroOnOccupied(grid: GridMap, field: seq<real>, x: nat, y: nat)
    requires grid.Valid() && IsField(grid, field) && x < grid.width && y < grid.height
    ensures 0.0 <= field[grid.Cell(x, y)] < Far(grid)
    ensures field[grid.Cell(x, y)] == 0.0 <==> grid.Occupied(x, y)
  {
    var m := field[grid.Cell(x, y)];
    assert IsFieldAt(grid, x, y, m);
    var ox: nat, oy: nat :| ox < grid.width && oy < grid.height && grid.Occupied(ox, oy) && m == SquaredDistance(x, y, ox, oy);
    BelowFar(grid, x, y, ox, oy);
    ZeroDistance(x, y, ox, oy);
    ZeroDistance(x, y, x, y);
    if grid.Occupied(x, y) { assert m <= SquaredDistance(x, y, x, y); }
  }

  lemma FieldAtIsUnique(grid: GridMap, x: nat, y: nat, a: real, b: real)
    requires grid.Valid() && IsFieldAt(grid, x, y, a) && IsFieldAt(grid, x, y, b)
    ensures a == b
  {
    var x0: nat, y0: nat :| x0 < grid.width && y0 < grid.height && grid.Occupied(x0, y0) && a == SquaredDistance(x, y, x0, y0);
    var x1: nat, y1: nat :| x1 < grid.width && y1 < grid.height && grid.Occupied(x1, y1) && b == SquaredDistance(x, y, x1, y1);
  }

  /** Two fields of one map agree: the reference determines the result. */
  lemma FieldIsUnique(grid: GridMap, a: seq<real>, b: seq<real>)
    requires grid.Valid() && IsField(grid, a) && IsField(grid, b)
    ensures a == b
  {
    forall i | 0 <= i < |a| ensures a[i] == b[i] {
      var x, y := grid.IndexIsCell(i);
      FieldAtIsUnique(grid, x, y, a[grid.Cell(x, y)], b[grid.Cell(x, y)]);
    }
  }
}
