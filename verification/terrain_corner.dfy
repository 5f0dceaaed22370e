/** Filling a chunk at a corner of a cube planet, where an x face, a y face
    and a z face meet. Each face has its own terrain height, kept from
    sinking below the 45-degree planes towards the other two faces; within
    one slice i the heights are capped at the first height where all three
    reach the 45-degree line (first_all_45), assigned at most once. Unlike
    the edge, the cap is applied with `min`, which cannot panic. */
module TerrainCorner {
  import opened Wrappers
  import opened Chunks
  import opened BlockRangeTables
  import opened Terrain

  /** The three faces of a corner, one per axis, in x, y, z order. */
  predicate CornerFaces(xUp: BlockFace, yUp: BlockFace, zUp: BlockFace)
  {
    AxisOf(xUp) == X && AxisOf(yUp) == Y && AxisOf(zUp) == Z
  }

  /** Height along an axis of a block coordinate, as seen from that axis's
      face of the corner. */
  function CornerHeight(t: Terrain, face: BlockFace, v: nat): nat
    requires t.Valid() && v <= t.sDim
  {
    HeightAlong(face, v, t.sDim)
  }

  /** The x face's terrain height at cache entry (j, k): its noise is seeded
      at the seed level on x, at block sy + j and sz + k; it is kept at or
      above the y and z 45-degree planes. */
  function XTop(t: Terrain, xUp: BlockFace, yUp: BlockFace, zUp: BlockFace, j: nat, k: nat): nat
    requires t.Valid() && j < CHUNK_DIMENSIONS && k < CHUNK_DIMENSIONS
  {
    var raw := t.topHeight((SeedLevel(xUp, t.middle, t.sDim), t.sy + j, t.sz + k));
    Max(Max(raw, CornerHeight(t, yUp, t.sy + j)), CornerHeight(t, zUp, t.sz + k))
  }

  /** The y face's terrain height at cache entry (i, k), kept at or above
      the x and z 45-degree planes. */
  function YTop(t: Terrain, xUp: BlockFace, yUp: BlockFace, zUp: BlockFace, i: nat, k: nat): nat
    requires t.Valid() && i < CHUNK_DIMENSIONS && k < CHUNK_DIMENSIONS
  {
    var raw := t.topHeight((t.sx + i, SeedLevel(yUp, t.middle, t.sDim), t.sz + k));
    Max(Max(raw, CornerHeight(t, xUp, t.sx + i)), CornerHeight(t, zUp, t.sz + k))
  }

  /** The z face's terrain height in row (i, j) before the cap: kept at or
      above the x and y 45-degree planes. */
  function ZTopUncapped(t: Terrain, xUp: BlockFace, yUp: BlockFace, zUp: BlockFace, i: nat, j: nat): nat
    requires t.Valid() && i < CHUNK_DIMENSIONS && j < CHUNK_DIMENSIONS
  {
    var raw := t.topHeight((t.sx + i, t.sy + j, SeedLevel(zUp, t.middle, t.sDim)));
    Max(Max(raw, CornerHeight(t, xUp, t.sx + i)), CornerHeight(t, yUp, t.sy + j))
  }

  /** One row's update of first_all_45: it takes the row's capped z height
      when the x cache at (i, j), the y cache at (i, j) and that z height all
      equal j (the caches indexed as written), but only while it still holds
      the planet size. */
  function All45Step(t: Terrain, xUp: BlockFace, yUp: BlockFace, zUp: BlockFace, i: nat, j: nat, before: nat): nat
    requires t.Valid() && i < CHUNK_DIMENSIONS && j < CHUNK_DIMENSIONS
  {
    var zTop := Min(ZTopUncapped(t, xUp, yUp, zUp, i, j), before);
    if XTop(t, xUp, yUp, zUp, i, j) == j && YTop(t, xUp, yUp, zUp, i, j) == j && zTop == j && before == t.sDim
    then zTop else before
  }

  /** The rows' updates of first_all_45 in slice i. */
  function All45Steps(t: Terrain, xUp: BlockFace, yUp: BlockFace, zUp: BlockFace, i: nat): (nat, nat) -> nat
    requires t.Valid() && i < CHUNK_DIMENSIONS
  {
    (n: nat, before: nat) => if n < CHUNK_DIMENSIONS then All45Step(t, xUp, yUp, zUp, i, n, before) else before
  }

  /** first_all_45 as iteration j of slice i starts: the planet size,
      updated by rows 0 .. j - 1. */
  function FirstAll45(t: Terrain, xUp: BlockFace, yUp: BlockFace, zUp: BlockFace, i: nat, j: nat): nat
    requires t.Valid() && i < CHUNK_DIMENSIONS && j <= CHUNK_DIMENSIONS
  {
    Latched(All45Steps(t, xUp, yUp, zUp, i), t.sDim, j)
  }

  /** first_all_45 after row (i, j) is that row's update of its value
      before. */
  lemma FirstAll45Next(t: Terrain, xUp: BlockFace, yUp: BlockFace, zUp: BlockFace, i: nat, j: nat)
    requires t.Valid() && i < CHUNK_DIMENSIONS && j < CHUNK_DIMENSIONS
    ensures FirstAll45(t, xUp, yUp, zUp, i, j + 1) == All45Step(t, xUp, yUp, zUp, i, j, FirstAll45(t, xUp, yUp, zUp, i, j))
  {
  }

  /** The z height of row (i, j), capped by the first_all_45 in force when
      the row starts. */
  function ZTop(t: Terrain, xUp: BlockFace, yUp: BlockFace, zUp: BlockFace, i: nat, j: nat): nat
    requires t.Valid() && i < CHUNK_DIMENSIONS && j < CHUNK_DIMENSIONS
  {
    Min(ZTopUncapped(t, xUp, yUp, zUp, i, j), FirstAll45(t, xUp, yUp, zUp, i, j))
  }

  /** The x and y heights of iteration (i, j, k), capped by first_all_45
      as it stands after row (i, j) has updated it. */
  function CappedXTop(t: Terrain, xUp: BlockFace, yUp: BlockFace, zUp: BlockFace, i: nat, j: nat, k: nat): nat
    requires t.Valid() && InChunk(i, j, k)
  {
    Min(XTop(t, xUp, yUp, zUp, j, k), FirstAll45(t, xUp, yUp, zUp, i, j + 1))
  }

  function CappedYTop(t: Terrain, xUp: BlockFace, yUp: BlockFace, zUp: BlockFace, i: nat, j: nat, k: nat): nat
    requires t.Valid() && InChunk(i, j, k)
  {
    Min(YTop(t, xUp, yUp, zUp, i, k), FirstAll45(t, xUp, yUp, zUp, i, j + 1))
  }

  /** The three-face rule for voxel (i, j, k) of the corner, given the
      three capped heights of the x, y and z faces. */
  function CornerRule(t: Terrain, xUp: BlockFace, yUp: BlockFace, zUp: BlockFace, i: nat, j: nat, k: nat, xt: nat, yt: nat, zt: nat): Cell
    requires t.Valid() && InChunk(i, j, k)
  {
    ThreeFaceCell(CornerHeight(t, xUp, t.sx + i), xt, CornerHeight(t, yUp, t.sy + j), yt, CornerHeight(t, zUp, t.sz + k), zt,
                  xUp, yUp, zUp, t.planetFace(t.sx + i, t.sy + j, t.sz + k, t.sDim, t.sDim, t.sDim), t.ranges)
  }

  /** What iteration (i, j, k) does to voxel (i, j, k): the corner rule on
      the three capped heights. */
  function CornerCell(t: Terrain, xUp: BlockFace, yUp: BlockFace, zUp: BlockFace, i: nat, j: nat, k: nat): Cell
    requires t.Valid() && InChunk(i, j, k)
  {
    CornerRule(t, xUp, yUp, zUp, i, j, k, CappedXTop(t, xUp, yUp, zUp, i, j, k), CappedYTop(t, xUp, yUp, zUp, i, j, k), ZTop(t, xUp, yUp, zUp, i, j))
  }

  /** A corner iteration follows the rule on whatever values equal its
      capped heights. */
  lemma CornerCellIs(t: Terrain, xUp: BlockFace, yUp: BlockFace, zUp: BlockFace, i: nat, j: nat, k: nat, xt: nat, yt: nat, zt: nat)
    requires t.Valid() && InChunk(i, j, k)
    requires xt == CappedXTop(t, xUp, yUp, zUp, i, j, k) && yt == CappedYTop(t, xUp, yUp, zUp, i, j, k) && zt == ZTop(t, xUp, yUp, zUp, i, j)
    ensures CornerCell(t, xUp, yUp, zUp, i, j, k) == CornerRule(t, xUp, yUp, zUp, i, j, k, xt, yt, zt)
  {
  }

  /** No face's height falls below the 45-degree planes towards the other
      two faces, nor below its own noise height. */
  lemma CornerTopsAbove45(t: Terrain, xUp: BlockFace, yUp: BlockFace, zUp: BlockFace, i: nat, j: nat, k: nat)
    requires t.Valid() && InChunk(i, j, k)
    ensures var x := XTop(t, xUp, yUp, zUp, j, k);
            x >= CornerHeight(t, yUp, t.sy + j) && x >= CornerHeight(t, zUp, t.sz + k)
            && x >= t.topHeight((SeedLevel(xUp, t.middle, t.sDim), t.sy + j, t.sz + k))
    ensures var y := YTop(t, xUp, yUp, zUp, i, k);
            y >= CornerHeight(t, xUp, t.sx + i) && y >= CornerHeight(t, zUp, t.sz + k)
            && y >= t.topHeight((t.sx + i, SeedLevel(yUp, t.middle, t.sDim), t.sz + k))
    ensures var z := ZTopUncapped(t, xUp, yUp, zUp, i, j);
            z >= CornerHeight(t, xUp, t.sx + i) && z >= CornerHeight(t, yUp, t.sy + j)
            && z >= t.topHeight((t.sx + i, t.sy + j, SeedLevel(zUp, t.middle, t.sDim)))
  {
  }

  /** A row leaves first_all_45 alone, except that while it still holds the
      planet size a row j may set it to j. */
  lemma All45StepLatches(t: Terrain, xUp: BlockFace, yUp: BlockFace, zUp: BlockFace, i: nat, j: nat, before: nat)
    requires t.Valid() && i < CHUNK_DIMENSIONS && j < CHUNK_DIMENSIONS
    ensures var after := All45Step(t, xUp, yUp, zUp, i, j, before);
            after == before || (before == t.sDim && after == j)
  {
  }

  /** Every row's update of slice i latches: it changes first_all_45 only
      while that still holds the planet size, and then sets it to the row. */
  lemma All45StepsLatch(t: Terrain, xUp: BlockFace, yUp: BlockFace, zUp: BlockFace, i: nat)
    requires t.Valid() && i < CHUNK_DIMENSIONS
    ensures LatchStep(All45Steps(t, xUp, yUp, zUp, i), t.sDim)
  {
    var step := All45Steps(t, xUp, yUp, zUp, i);
    forall n: nat, b: nat ensures step(n, b) == b || (b == t.sDim && step(n, b) == n) {
      if n < CHUNK_DIMENSIONS {
        All45StepLatches(t, xUp, yUp, zUp, i, n, b);
      }
    }
  }

  /** first_all_45 never exceeds the planet size, never rises, and once it
      leaves the planet size it keeps its value for the rest of the slice. */
  lemma FirstAll45Settles(t: Terrain, xUp: BlockFace, yUp: BlockFace, zUp: BlockFace, i: nat, j: nat, j': nat)
    requires t.Valid() && i < CHUNK_DIMENSIONS && j <= j' <= CHUNK_DIMENSIONS
    ensures FirstAll45(t, xUp, yUp, zUp, i, j') <= FirstAll45(t, xUp, yUp, zUp, i, j) <= t.sDim
    ensures FirstAll45(t, xUp, yUp, zUp, i, j) != t.sDim ==> FirstAll45(t, xUp, yUp, zUp, i, j') == FirstAll45(t, xUp, yUp, zUp, i, j)
  {
    All45StepsLatch(t, xUp, yUp, zUp, i);
    LatchedSettles(All45Steps(t, xUp, yUp, zUp, i), t.sDim, j, j');
  }

  /** Every capped height of row (i, j) lies at or below the first_all_45 in
      force for it. */
  lemma CornerTopsCapped(t: Terrain, xUp: BlockFace, yUp: BlockFace, zUp: BlockFace, i: nat, j: nat, k: nat)
    requires t.Valid() && InChunk(i, j, k)
    ensures ZTop(t, xUp, yUp, zUp, i, j) <= FirstAll45(t, xUp, yUp, zUp, i, j)
    ensures CappedXTop(t, xUp, yUp, zUp, i, j, k) <= FirstAll45(t, xUp, yUp, zUp, i, j + 1)
    ensures CappedYTop(t, xUp, yUp, zUp, i, j, k) <= FirstAll45(t, xUp, yUp, zUp, i, j + 1)
  {
  }
}
