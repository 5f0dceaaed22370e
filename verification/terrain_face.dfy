/** Filling a chunk that lies on a single face of a cube planet: every column
    standing on the face gets one terrain height from the noise, and the
    voxels of the column at or below that height become solid, the block
    chosen by depth below the surface. */
module TerrainFace {
  import opened Wrappers
  import opened Chunks
  import opened BlockRangeTables
  import opened Terrain

  /** The voxel written by iteration (i, j, height): the face's own axis
      takes `height`, the other two take i and j. */
  function FaceVoxel(up: BlockFace, i: nat, j: nat, height: nat): (v: (nat, nat, nat))
    requires InChunk(i, j, height)
    ensures InChunk(v.0, v.1, v.2)
    ensures FaceIteration(up, v.0, v.1, v.2) == (i, j, height)
  {
    match up
    case Top | Bottom => (i, height, j)
    case Front | Back => (i, j, height)
    case Right | Left => (height, i, j)
  }

  /** The iteration that writes voxel (x, y, z). */
  function FaceIteration(up: BlockFace, x: nat, y: nat, z: nat): (nat, nat, nat)
  {
    match up
    case Top | Bottom => (x, z, y)
    case Front | Back => (x, y, z)
    case Right | Left => (y, z, x)
  }

  lemma FaceIterationCovers(up: BlockFace, x: nat, y: nat, z: nat)
    requires InChunk(x, y, z)
    ensures var it := FaceIteration(up, x, y, z);
            InChunk(it.0, it.1, it.2) && FaceVoxel(up, it.0, it.1, it.2) == (x, y, z)
  {
  }

  /** The noise seed of column (i, j): the face's axis sits at the seed
      level, the other two at the column's block coordinates. */
  function FaceSeed(t: Terrain, up: BlockFace, i: nat, j: nat): (nat, nat, nat)
    requires t.Valid()
  {
    match up
    case Top => (t.sx + i, t.middle, t.sz + j)
    case Bottom => (t.sx + i, t.sDim - t.middle, t.sz + j)
    case Front => (t.sx + i, t.sy + j, t.middle)
    case Back => (t.sx + i, t.sy + j, t.sDim - t.middle)
    case Right => (t.middle, t.sy + i, t.sz + j)
    case Left => (t.sDim - t.middle, t.sy + i, t.sz + j)
  }

  /** Distance from the opposite face's plane of layer `height` of the
      chunk, measured along the face's axis. */
  function FaceActualHeight(t: Terrain, up: BlockFace, height: nat): (a: nat)
    requires t.Valid() && height < CHUNK_DIMENSIONS
    ensures a == HeightAlong(up, t.Origin(AxisOf(up)) + height, t.sDim)
  {
    match up
    case Top => t.sy + height
    case Bottom => t.sDim - (t.sy + height)
    case Front => t.sz + height
    case Back => t.sDim - (t.sz + height)
    case Right => t.sx + height
    case Left => t.sDim - (t.sx + height)
  }

  /** What iteration (i, j, height) does: a voxel at or below the column's
      terrain height gets the block for its depth, facing `up`. */
  function FaceCell(t: Terrain, up: BlockFace, i: nat, j: nat, height: nat): Cell
    requires t.Valid() && height < CHUNK_DIMENSIONS
  {
    var top := t.topHeight(FaceSeed(t, up, i, j));
    var actual := FaceActualHeight(t, up, height);
    if actual <= top then
      match t.ranges.FaceBlock(top - actual)
      case None => Panic
      case Some(b) => Write(b, up)
    else Skip
  }

  /** A face column is solid from the bottom of the chunk up to its terrain
      height: below a voxel that is filled, every voxel of the column lying
      lower on the face's axis is filled too, at a greater depth. */
  lemma FaceColumnSolidBelow(t: Terrain, up: BlockFace, i: nat, j: nat, h: nat, h': nat)
    requires t.Valid() && h < CHUNK_DIMENSIONS && h' < CHUNK_DIMENSIONS
    requires FaceActualHeight(t, up, h') <= FaceActualHeight(t, up, h)
    requires !FaceCell(t, up, i, j, h).Skip?
    ensures !FaceCell(t, up, i, j, h').Skip?
  {
  }
}
