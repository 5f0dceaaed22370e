/** What the three terrain fills of a cube planet share: the generation
    context, the geometry of faces and axes, and what one loop iteration does
    to one voxel of the chunk being filled. */
module Terrain {
  import opened Chunks
  import opened Wrappers
  import opened BlockRangeTables

  /** The three axes of the cube. */
  datatype Axis = X | Y | Z

  function AxisOf(f: BlockFace): Axis
  {
    match f
    case Right | Left => X
    case Top | Bottom => Y
    case Front | Back => Z
  }

  /** Top, Right and Front face towards growing coordinates. */
  predicate Positive(f: BlockFace)
  {
    f == Top || f == Right || f == Front
  }

  /** Distance from the opposite face's plane of a block whose coordinate
      on the face's axis is `v`, for a planet `sDim` blocks across. */
  function HeightAlong(f: BlockFace, v: nat, sDim: nat): nat
    requires v <= sDim
  {
    if Positive(f) then v else sDim - v
  }

  /** The coordinate the noise is seeded with on the face's own axis. */
  function SeedLevel(f: BlockFace, middle: nat, sDim: nat): nat
    requires middle <= sDim
  {
    if Positive(f) then middle else sDim - middle
  }

  function Coord(p: (nat, nat, nat), a: Axis): nat
  {
    match a
    case X => p.0
    case Y => p.1
    case Z => p.2
  }

  /** p with its coordinate on axis a replaced by v. */
  function WithCoord(p: (nat, nat, nat), a: Axis, v: nat): (nat, nat, nat)
  {
    match a
    case X => (v, p.1, p.2)
    case Y => (p.0, v, p.2)
    case Z => (p.0, p.1, v)
  }

  /** WithCoord sets axis a to v and leaves the other two axes alone. */
  lemma WithCoordSets(p: (nat, nat, nat), a: Axis, v: nat)
    ensures Coord(WithCoord(p, a, v), a) == v
    ensures forall b :: b != a ==> Coord(WithCoord(p, a, v), b) == Coord(p, b)
  {
  }

  /** Everything a fill reads besides the chunk:
      - (sx, sy, sz): the block coordinates of the chunk's corner;
      - sDim: the planet's size in blocks along each axis;
      - middle: the height at which the noise is seeded;
      - ranges: the biosphere's block table;
      - topHeight: the terrain height the noise gives for a seed coordinate;
      - planetFace: the cube face a block (x, y, z) of a w x h x l planet
        belongs to. */
  datatype Terrain = Terrain(
    sx: nat, sy: nat, sz: nat, sDim: nat, middle: nat,
    ranges: BlockRanges,
    topHeight: ((nat, nat, nat)) -> nat,
    planetFace: (nat, nat, nat, nat, nat, nat) -> BlockFace)
  {
    /** The chunk lies inside the planet, and the seed height too. */
    predicate Valid()
    {
      sx + CHUNK_DIMENSIONS <= sDim && sy + CHUNK_DIMENSIONS <= sDim && sz + CHUNK_DIMENSIONS <= sDim
      && middle <= sDim
    }

    function Origin(a: Axis): nat
    {
      match a
      case X => sx
      case Y => sy
      case Z => sz
    }
  }

  /** What one iteration does to its voxel: nothing, writes a block with its
      "up" face, or panics because the block table has no entry. */
  datatype Cell = Skip | Write(block: BlockId, up: BlockFace) | Panic

  /** What `cell` does to voxel v of chunk c: None when it panics. */
  function CellStep(c: Chunk, v: (nat, nat, nat), cell: Cell): (r: Option<Chunk>)
    requires c.Valid() && InChunk(v.0, v.1, v.2)
    ensures r.Some? ==> r.value.Valid()
    ensures r.Some? ==> r.value.structureX == c.structureX && r.value.structureY == c.structureY
                        && r.value.structureZ == c.structureZ
  {
    match cell
    case Skip => Some(c)
    case Panic => None
    case Write(b, u) => Some(c.SetBlockAt(v.0, v.1, v.2, b, u))
  }

  /** Voxel v of `c` is what `cell` leaves in it when `orig` held the chunk
      before. */
  predicate CellDone(c: Chunk, orig: Chunk, v: (nat, nat, nat), cell: Cell)
    requires c.Valid() && orig.Valid() && InChunk(v.0, v.1, v.2)
  {
    match cell
    case Write(b, u) => c.BlockAt(v.0, v.1, v.2) == b && c.RotationAt(v.0, v.1, v.2) == u
    case _ => Untouched(c, orig, v)
  }

  predicate Untouched(c: Chunk, orig: Chunk, v: (nat, nat, nat))
    requires c.Valid() && orig.Valid() && InChunk(v.0, v.1, v.2)
  {
    c.BlockAt(v.0, v.1, v.2) == orig.BlockAt(v.0, v.1, v.2) && c.RotationAt(v.0, v.1, v.2) == orig.RotationAt(v.0, v.1, v.2)
  }

  /** Position of loop iteration (i, j, k) in the order the nested loops run. */
  function Order(i: nat, j: nat, k: nat): nat
  {
    i * 1024 + j * 32 + k
  }

  /** Distinct iterations come at distinct positions of the loop order. */
  lemma OrderInjective(i: nat, j: nat, k: nat, i': nat, j': nat, k': nat)
    requires InChunk(i, j, k) && InChunk(i', j', k')
    requires Order(i, j, k) == Order(i', j', k')
    ensures i == i' && j == j' && k == k'
  {
  }

  /** The axis neither a nor b names. */
  function ThirdAxis(a: Axis, b: Axis): (c: Axis)
    requires a != b
    ensures c != a && c != b
  {
    if a != X && b != X then X else if a != Y && b != Y then Y else Z
  }

  function Min(a: nat, b: nat): nat { if a <= b then a else b }
  function Max(a: nat, b: nat): nat { if a >= b then a else b }

  /** A value that starts at `start` and that each of the rows 0 .. j - 1
      in turn may update: its value as row j starts. */
  function Latched(step: (nat, nat) -> nat, start: nat, j: nat): nat
  {
    if j == 0 then start else step(j - 1, Latched(step, start, j - 1))
  }

  /** A step that may only move the value away from `start`, and then to
      the row's own index. */
  ghost predicate LatchStep(step: (nat, nat) -> nat, start: nat)
  {
    forall n: nat, b: nat :: step(n, b) == b || (b == start && step(n, b) == n)
  }

  /** With such a step, the value never exceeds `start` while rows stay
      below it, never rises, and once it leaves `start` it stays put. */
  lemma {:induction false} LatchedSettles(step: (nat, nat) -> nat, start: nat, j: nat, j': nat)
    requires LatchStep(step, start) && j <= j' <= start
    ensures Latched(step, start, j') <= Latched(step, start, j) <= start
    ensures Latched(step, start, j) != start ==> Latched(step, start, j') == Latched(step, start, j)
    decreases j'
  {
    if j < j' {
      LatchedSettles(step, start, j, j' - 1);
      LatchedSettles(step, start, j' - 1, j' - 1);
    } else if j > 0 {
      LatchedSettles(step, start, j - 1, j - 1);
    }
  }

  /** How many of the given heights sit exactly on their tops. */
  function OnTop(height: nat, top: nat): nat
  {
    if height == top then 1 else 0
  }

  /** The voxel rule of an edge, given the voxel's height towards each of
      the two faces and each face's terrain height there: the voxel is solid
      when under both tops and on at most one of them (no "stairways to
      heaven"); it then faces the face whose top it is on (the k face when on
      both), otherwise the `geometric` face; its block comes from the edge
      lookup of the two depths. */
  function TwoFaceCell(jHeight: nat, jTop: nat, kHeight: nat, kTop: nat,
                       jUp: BlockFace, kUp: BlockFace, geometric: BlockFace, ranges: BlockRanges): Cell
  {
    if jHeight <= jTop && kHeight <= kTop && OnTop(jHeight, jTop) + OnTop(kHeight, kTop) <= 1 then
      var up := if kHeight == kTop then kUp else if jHeight == jTop then jUp else geometric;
      match ranges.EdgeBlock(jTop - jHeight, kTop - kHeight)
      case None => Panic
      case Some(b) => Write(b, up)
    else Skip
  }

  /** An edge voxel is skipped exactly when it lies above either top or on
      both; a written voxel gets the block a face voxel would get at the
      smaller of its two depths, and faces the face whose top it is on; a
      panic means no table entry accepts that depth. */
  lemma TwoFaceCellRule(jHeight: nat, jTop: nat, kHeight: nat, kTop: nat,
                        jUp: BlockFace, kUp: BlockFace, geometric: BlockFace, ranges: BlockRanges)
    ensures var c := TwoFaceCell(jHeight, jTop, kHeight, kTop, jUp, kUp, geometric, ranges);
            && (c.Skip? <==> !(jHeight <= jTop && kHeight <= kTop && (jHeight != jTop || kHeight != kTop)))
            && (c.Write? ==> jHeight <= jTop && kHeight <= kTop
                             && Some(c.block) == ranges.FaceBlock(Min(jTop - jHeight, kTop - kHeight)))
            && (c.Write? ==> c.up == (if kHeight == kTop then kUp else if jHeight == jTop then jUp else geometric))
            && (c.Panic? <==> jHeight <= jTop && kHeight <= kTop && (jHeight != jTop || kHeight != kTop)
                              && ranges.FaceBlock(Min(jTop - jHeight, kTop - kHeight)).None?)
  {
    if jHeight <= jTop && kHeight <= kTop {
      ranges.EdgeBlockIsFaceBlockOfMin(jTop - jHeight, kTop - kHeight);
    }
  }

  /** The voxel rule of a corner: the edge rule over three faces, the z face
      winning over the y face, and the y face over the x face. */
  function ThreeFaceCell(xHeight: nat, xTop: nat, yHeight: nat, yTop: nat, zHeight: nat, zTop: nat,
                         xUp: BlockFace, yUp: BlockFace, zUp: BlockFace, geometric: BlockFace, ranges: BlockRanges): Cell
  {
    if xHeight <= xTop && yHeight <= yTop && zHeight <= zTop
       && OnTop(xHeight, xTop) + OnTop(yHeight, yTop) + OnTop(zHeight, zTop) <= 1 then
      var up := if zHeight == zTop then zUp else if yHeight == yTop then yUp
                else if xHeight == xTop then xUp else geometric;
      match ranges.CornerBlock(xTop - xHeight, yTop - yHeight, zTop - zHeight)
      case None => Panic
      case Some(b) => Write(b, up)
    else Skip
  }

  /** A corner voxel is skipped exactly when it lies above some top or on
      two or more; a written voxel gets the block a face voxel would get at
      the smallest of its three depths, and faces the last face, in x, y, z
      order, whose top it is on; a panic means no table entry accepts that
      depth. */
  lemma ThreeFaceCellRule(xHeight: nat, xTop: nat, yHeight: nat, yTop: nat, zHeight: nat, zTop: nat,
                          xUp: BlockFace, yUp: BlockFace, zUp: BlockFace, geometric: BlockFace, ranges: BlockRanges)
    ensures var c := ThreeFaceCell(xHeight, xTop, yHeight, yTop, zHeight, zTop, xUp, yUp, zUp, geometric, ranges);
            var under := xHeight <= xTop && yHeight <= yTop && zHeight <= zTop
                         && OnTop(xHeight, xTop) + OnTop(yHeight, yTop) + OnTop(zHeight, zTop) <= 1;
            && (c.Skip? <==> !under)
            && (c.Write? ==> under && Some(c.block) == ranges.FaceBlock(Min(Min(xTop - xHeight, yTop - yHeight), zTop - zHeight)))
            && (c.Write? ==> c.up == (if zHeight == zTop then zUp else if yHeight == yTop then yUp
                                     else if xHeight == xTop then xUp else geometric))
            && (c.Panic? <==> under && ranges.FaceBlock(Min(Min(xTop - xHeight, yTop - yHeight), zTop - zHeight)).None?)
  {
    if xHeight <= xTop && yHeight <= yTop && zHeight <= zTop {
      ranges.CornerBlockIsFaceBlockOfMin(xTop - xHeight, yTop - yHeight, zTop - zHeight);
    }
  }
}
