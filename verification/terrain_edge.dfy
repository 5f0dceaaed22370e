/** Filling a chunk that lies on the edge between two faces of a cube planet,
    the "j" face and the "k" face. Each face has its own terrain height; a
    voxel is solid when it lies under both. Both heights are kept from
    sinking below the 45-degree plane between the faces, and, within one
    slice i, capped at the first height where both reach that plane
    (first_both_45), which is assigned at most once. */
module TerrainEdge {
  import opened Wrappers
  import opened Chunks
  import opened BlockRangeTables
  import opened Terrain

  /** The two faces of an edge lie on different axes. */
  predicate EdgeFaces(jUp: BlockFace, kUp: BlockFace)
  {
    AxisOf(jUp) != AxisOf(kUp)
  }

  /** The voxel of iteration (i, j, k): the j face's axis takes j, the k
      face's axis takes k, the remaining axis takes i. */
  function EdgeVoxel(jUp: BlockFace, kUp: BlockFace, i: nat, j: nat, k: nat): (v: (nat, nat, nat))
    requires EdgeFaces(jUp, kUp) && InChunk(i, j, k)
    ensures InChunk(v.0, v.1, v.2)
  {
    WithCoord(WithCoord((i, i, i), AxisOf(jUp), j), AxisOf(kUp), k)
  }

  /** Iteration (i, j, k) is the one that writes its own voxel. */
  lemma EdgeVoxelIteration(jUp: BlockFace, kUp: BlockFace, i: nat, j: nat, k: nat)
    requires EdgeFaces(jUp, kUp) && InChunk(i, j, k)
    ensures EdgeIteration(jUp, kUp, EdgeVoxel(jUp, kUp, i, j, k)) == (i, j, k)
  {
  }

  /** The iteration that writes voxel v. */
  function EdgeIteration(jUp: BlockFace, kUp: BlockFace, v: (nat, nat, nat)): (nat, nat, nat)
    requires EdgeFaces(jUp, kUp)
  {
    (Coord(v, ThirdAxis(AxisOf(jUp), AxisOf(kUp))), Coord(v, AxisOf(jUp)), Coord(v, AxisOf(kUp)))
  }

  lemma EdgeIterationCovers(jUp: BlockFace, kUp: BlockFace, v: (nat, nat, nat))
    requires EdgeFaces(jUp, kUp) && InChunk(v.0, v.1, v.2)
    ensures var it := EdgeIteration(jUp, kUp, v);
            InChunk(it.0, it.1, it.2) && EdgeVoxel(jUp, kUp, it.0, it.1, it.2) == v
  {
    var it := EdgeIteration(jUp, kUp, v);
    var w := EdgeVoxel(jUp, kUp, it.0, it.1, it.2);
    WithCoordSets((it.0, it.0, it.0), AxisOf(jUp), it.1);
    WithCoordSets(WithCoord((it.0, it.0, it.0), AxisOf(jUp), it.1), AxisOf(kUp), it.2);
    assert forall a :: Coord(w, a) == Coord(v, a);
  }

  /** The height along `face`'s axis of chunk layer `n` on that axis. */
  function LayerHeight(t: Terrain, face: BlockFace, n: nat): nat
    requires t.Valid() && n < CHUNK_DIMENSIONS
  {
    HeightAlong(face, t.Origin(AxisOf(face)) + n, t.sDim)
  }

  /** The noise seed of the j face's height cache entry (i, k): the j axis
      at the seed level, the k axis at layer k, the other axis at layer i. */
  function JCacheSeed(t: Terrain, jUp: BlockFace, kUp: BlockFace, i: nat, k: nat): (nat, nat, nat)
    requires t.Valid()
  {
    WithCoord(WithCoord((t.sx + i, t.sy + i, t.sz + i), AxisOf(jUp), SeedLevel(jUp, t.middle, t.sDim)),
              AxisOf(kUp), t.Origin(AxisOf(kUp)) + k)
  }

  /** The j face's terrain height at (i, k), kept from sinking below the
      45-degree plane, where it equals the k face's height of layer k. */
  function JTop(t: Terrain, jUp: BlockFace, kUp: BlockFace, i: nat, k: nat): nat
    requires t.Valid() && EdgeFaces(jUp, kUp) && i < CHUNK_DIMENSIONS && k < CHUNK_DIMENSIONS
  {
    Max(t.topHeight(JCacheSeed(t, jUp, kUp, i, k)), LayerHeight(t, kUp, k))
  }

  /** The j height never falls below the 45-degree plane nor below its own
      noise height. */
  lemma JTopAbove45(t: Terrain, jUp: BlockFace, kUp: BlockFace, i: nat, k: nat)
    requires t.Valid() && EdgeFaces(jUp, kUp) && i < CHUNK_DIMENSIONS && k < CHUNK_DIMENSIONS
    ensures JTop(t, jUp, kUp, i, k) >= LayerHeight(t, kUp, k)
    ensures JTop(t, jUp, kUp, i, k) >= t.topHeight(JCacheSeed(t, jUp, kUp, i, k))
  {
  }

  /** The noise seed of the k face's height in row (i, j). */
  function KSeed(t: Terrain, jUp: BlockFace, kUp: BlockFace, i: nat, j: nat): (nat, nat, nat)
    requires t.Valid()
  {
    WithCoord(WithCoord((t.sx + i, t.sy + i, t.sz + i), AxisOf(kUp), SeedLevel(kUp, t.middle, t.sDim)),
              AxisOf(jUp), t.Origin(AxisOf(jUp)) + j)
  }

  /** Rust's `clamp`: the value moved into [lo, hi]; it panics when lo > hi,
      which callers check with ClampPanics. */
  function Clamp(v: nat, lo: nat, hi: nat): (r: nat)
    ensures lo <= hi ==> lo <= r <= hi
    ensures lo <= v <= hi ==> r == v
  {
    if v < lo then lo else if v > hi then hi else v
  }

  /** One row's update of first_both_45: it takes the row's k height when
      the cached j height and the k height both equal j, but only while it
      still holds the planet size. */
  function Both45Step(t: Terrain, jUp: BlockFace, kUp: BlockFace, i: nat, j: nat, before: nat): nat
    requires t.Valid() && EdgeFaces(jUp, kUp) && i < CHUNK_DIMENSIONS && j < CHUNK_DIMENSIONS
  {
    var kTop := Clamp(t.topHeight(KSeed(t, jUp, kUp, i, j)), LayerHeight(t, jUp, j), before);
    if JTop(t, jUp, kUp, i, j) == j && kTop == j && before == t.sDim then kTop else before
  }

  /** The rows' updates of first_both_45 in slice i. */
  function Both45Steps(t: Terrain, jUp: BlockFace, kUp: BlockFace, i: nat): (nat, nat) -> nat
    requires t.Valid() && EdgeFaces(jUp, kUp) && i < CHUNK_DIMENSIONS
  {
    (n: nat, before: nat) => if n < CHUNK_DIMENSIONS then Both45Step(t, jUp, kUp, i, n, before) else before
  }

  /** first_both_45 as iteration j of slice i starts: the planet size,
      updated by rows 0 .. j - 1. */
  function FirstBoth45(t: Terrain, jUp: BlockFace, kUp: BlockFace, i: nat, j: nat): nat
    requires t.Valid() && EdgeFaces(jUp, kUp) && i < CHUNK_DIMENSIONS && j <= CHUNK_DIMENSIONS
  {
    Latched(Both45Steps(t, jUp, kUp, i), t.sDim, j)
  }

  /** first_both_45 after row (i, j) is that row's update of its value
      before. */
  lemma FirstBoth45Next(t: Terrain, jUp: BlockFace, kUp: BlockFace, i: nat, j: nat)
    requires t.Valid() && EdgeFaces(jUp, kUp) && i < CHUNK_DIMENSIONS && j < CHUNK_DIMENSIONS
    ensures FirstBoth45(t, jUp, kUp, i, j + 1) == Both45Step(t, jUp, kUp, i, j, FirstBoth45(t, jUp, kUp, i, j))
  {
  }

  /** Row (i, j) panics in `clamp` when the j height exceeds the cap. */
  predicate ClampPanics(t: Terrain, jUp: BlockFace, kUp: BlockFace, i: nat, j: nat)
    requires t.Valid() && EdgeFaces(jUp, kUp) && i < CHUNK_DIMENSIONS && j < CHUNK_DIMENSIONS
  {
    LayerHeight(t, jUp, j) > FirstBoth45(t, jUp, kUp, i, j)
  }

  /** The k face's height in row (i, j), clamped between the j height and
      the cap in force when the row starts. */
  function KTop(t: Terrain, jUp: BlockFace, kUp: BlockFace, i: nat, j: nat): nat
    requires t.Valid() && EdgeFaces(jUp, kUp) && i < CHUNK_DIMENSIONS && j < CHUNK_DIMENSIONS
  {
    Clamp(t.topHeight(KSeed(t, jUp, kUp, i, j)), LayerHeight(t, jUp, j), FirstBoth45(t, jUp, kUp, i, j))
  }

  /** The j face's height for iteration (i, j, k), capped by first_both_45
      as it stands after row (i, j) has updated it. */
  function CappedJTop(t: Terrain, jUp: BlockFace, kUp: BlockFace, i: nat, j: nat, k: nat): nat
    requires t.Valid() && EdgeFaces(jUp, kUp) && InChunk(i, j, k)
  {
    Min(JTop(t, jUp, kUp, i, k), FirstBoth45(t, jUp, kUp, i, j + 1))
  }

  /** Outside a clamp panic, the k height of a row lies between the row's j
      height and the cap in force when the row starts; the capped j height
      lies at or below the cap after the row. */
  lemma EdgeTopsCapped(t: Terrain, jUp: BlockFace, kUp: BlockFace, i: nat, j: nat, k: nat)
    requires t.Valid() && EdgeFaces(jUp, kUp) && InChunk(i, j, k)
    ensures !ClampPanics(t, jUp, kUp, i, j) ==>
              LayerHeight(t, jUp, j) <= KTop(t, jUp, kUp, i, j) <= FirstBoth45(t, jUp, kUp, i, j)
    ensures CappedJTop(t, jUp, kUp, i, j, k) <= FirstBoth45(t, jUp, kUp, i, j + 1)
  {
  }

  /** The two-face rule for an edge voxel v written in row j and layer k,
      given the capped heights of the j and k faces. */
  function EdgeRule(t: Terrain, jUp: BlockFace, kUp: BlockFace, j: nat, k: nat, v: (nat, nat, nat), jt: nat, kt: nat): Cell
    requires t.Valid() && j < CHUNK_DIMENSIONS && k < CHUNK_DIMENSIONS && InChunk(v.0, v.1, v.2)
  {
    TwoFaceCell(LayerHeight(t, jUp, j), jt, LayerHeight(t, kUp, k), kt, jUp, kUp,
                t.planetFace(t.sx + v.0, t.sy + v.1, t.sz + v.2, t.sDim, t.sDim, t.sDim), t.ranges)
  }

  /** What iteration (i, j, k) does: a panic for the whole row when the
      clamp panics, otherwise the edge rule on the two capped heights. */
  function EdgeCell(t: Terrain, jUp: BlockFace, kUp: BlockFace, i: nat, j: nat, k: nat): Cell
    requires t.Valid() && EdgeFaces(jUp, kUp) && InChunk(i, j, k)
  {
    if ClampPanics(t, jUp, kUp, i, j) then Panic
    else EdgeRule(t, jUp, kUp, j, k, EdgeVoxel(jUp, kUp, i, j, k), CappedJTop(t, jUp, kUp, i, j, k), KTop(t, jUp, kUp, i, j))
  }

  /** Outside a clamp panic, an edge iteration follows the rule on whatever
      values equal its capped heights. */
  lemma EdgeCellIs(t: Terrain, jUp: BlockFace, kUp: BlockFace, i: nat, j: nat, k: nat, jt: nat, kt: nat)
    requires t.Valid() && EdgeFaces(jUp, kUp) && InChunk(i, j, k) && !ClampPanics(t, jUp, kUp, i, j)
    requires jt == CappedJTop(t, jUp, kUp, i, j, k) && kt == KTop(t, jUp, kUp, i, j)
    ensures EdgeCell(t, jUp, kUp, i, j, k) == EdgeRule(t, jUp, kUp, j, k, EdgeVoxel(jUp, kUp, i, j, k), jt, kt)
  {
  }

  /** A row leaves first_both_45 alone, except that while it still holds
      the planet size a row j may set it to j. */
  lemma Both45StepLatches(t: Terrain, jUp: BlockFace, kUp: BlockFace, i: nat, j: nat, before: nat)
    requires t.Valid() && EdgeFaces(jUp, kUp) && i < CHUNK_DIMENSIONS && j < CHUNK_DIMENSIONS
    ensures var after := Both45Step(t, jUp, kUp, i, j, before);
            after == before || (before == t.sDim && after == j)
  {
  }

  /** Every row's update of slice i latches. */
  lemma Both45StepsLatch(t: Terrain, jUp: BlockFace, kUp: BlockFace, i: nat)
    requires t.Valid() && EdgeFaces(jUp, kUp) && i < CHUNK_DIMENSIONS
    ensures LatchStep(Both45Steps(t, jUp, kUp, i), t.sDim)
  {
    var step := Both45Steps(t, jUp, kUp, i);
    forall n: nat, b: nat ensures step(n, b) == b || (b == t.sDim && step(n, b) == n) {
      if n < CHUNK_DIMENSIONS {
        Both45StepLatches(t, jUp, kUp, i, n, b);
      }
    }
  }

  /** first_both_45 never exceeds the planet size, never rises, and once it
      leaves the planet size it keeps its value for the rest of the slice. */
  lemma FirstBoth45Settles(t: Terrain, jUp: BlockFace, kUp: BlockFace, i: nat, j: nat, j': nat)
    requires t.Valid() && EdgeFaces(jUp, kUp) && i < CHUNK_DIMENSIONS && j <= j' <= CHUNK_DIMENSIONS
    ensures FirstBoth45(t, jUp, kUp, i, j') <= FirstBoth45(t, jUp, kUp, i, j) <= t.sDim
    ensures FirstBoth45(t, jUp, kUp, i, j) != t.sDim ==> FirstBoth45(t, jUp, kUp, i, j') == FirstBoth45(t, jUp, kUp, i, j)
  {
    Both45StepsLatch(t, jUp, kUp, i);
    LatchedSettles(Both45Steps(t, jUp, kUp, i), t.sDim, j, j');
  }
}
