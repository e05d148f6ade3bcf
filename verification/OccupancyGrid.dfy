/** The occupancy grid shared by the pose refinement of scripts/refine_initialpose_offline.py. */
module OccupancyGrid {

  datatype Result<+T> = Ok(value: T) | Err(message: string)

  /**
   Cells are stored row by row.  A negative value is unknown space.  The map yaw enters only
   through its cosine and sine.
   */
  datatype GridMap = GridMap(
    width: nat, height: nat, resolution: real,
    originX: real, originY: real, originCos: real, originSin: real,
    occupancy: seq<int>, occupiedThreshold: int)
  {
    /** What the map loaders guarantee. */
    ghost predicate Valid() {
      && 0 < width && 0 < height && 0.0 < resolution
      && |occupancy| == width * height
      && 1 <= occupiedThreshold <= 100
    }

    function Cell(x: nat, y: nat): (i: nat)
      requires x < width && y < height && |occupancy| == width * height
      ensures i < |occupancy|
    {
      CellInside(x, y);
      y * width + x
    }

    lemma CellInside(x: nat, y: nat)
      requires x < width && y < height
      ensures y * width + x < width * height
    {
      assert (y + 1) * width <= height * width;
    }

    predicate Occupied(x: nat, y: nat)
      requires x < width && y < height && |occupancy| == width * height
    {
      occupancy[Cell(x, y)] >= occupiedThreshold
    }

    /** Cells of an earlier row precede all cells of a later one. */
    lemma RowsInOrder(x: nat, y: nat, later: nat)
      requires x < width && y < later
      ensures y * width + x < later * width
    {
      assert (y + 1) * width <= later * width;
    }

    lemma MulMonotone(a: nat, b: nat, w: nat)
      requires a <= b
      ensures a * w <= b * w
    {}

    /** Every stored index is a cell. */
    lemma IndexIsCell(i: nat) returns (x: nat, y: nat)
      requires |occupancy| == width * height && i < |occupancy|
      ensures x < width && y < height && Cell(x, y) == i
    {
      assert width > 0;
      x, y := i % width, i / width;
      assert i == y * width + x;
      if y >= height { MulMonotone(height, y, width); }
    }
  }
}
