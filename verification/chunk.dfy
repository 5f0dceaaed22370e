/** A chunk: a cube of CHUNK_DIMENSIONS^3 voxels, each holding a block id and
    the face that block treats as "up", plus the chunk's own coordinates
    inside its structure. Voxels are stored flat, x fastest, as the renderer
    reads them back with Expand(i, CHUNK_DIMENSIONS, CHUNK_DIMENSIONS). */
module Chunks {
  import opened ArrayUtils

  /** Edge length of a chunk, in blocks. */
  const CHUNK_DIMENSIONS: nat := 32

  /** Number of voxels in a chunk. */
  const CHUNK_VOLUME: nat := 32768

  /** A block is identified by its numeric registry id. */
  type BlockId = nat

  const AIR_BLOCK_ID: BlockId := 0

  /** The six faces of a block, and of the cube a planet is built on. */
  datatype BlockFace = Top | Bottom | Front | Back | Right | Left

  /** Whether x, y, z address a voxel inside one chunk. */
  predicate InChunk(x: nat, y: nat, z: nat)
  {
    x < CHUNK_DIMENSIONS && y < CHUNK_DIMENSIONS && z < CHUNK_DIMENSIONS
  }

  /** Flat storage index of a voxel: x fastest, then y, then z, with the
      chunk's constant strides written out. */
  function LocalIndex(x: nat, y: nat, z: nat): (i: nat)
    requires InChunk(x, y, z)
    ensures i < CHUNK_VOLUME
  {
    z * 1024 + y * 32 + x
  }

  /** The flat index of a voxel is Flatten over a chunk's dimensions. */
  lemma LocalIndexIsFlatten(x: nat, y: nat, z: nat)
    requires InChunk(x, y, z)
    ensures LocalIndex(x, y, z) == Flatten(x, y, z, CHUNK_DIMENSIONS, CHUNK_DIMENSIONS)
  {
  }

  /** Distinct voxels are stored in distinct slots. */
  lemma LocalIndexInjective(x1: nat, y1: nat, z1: nat, x2: nat, y2: nat, z2: nat)
    requires InChunk(x1, y1, z1) && InChunk(x2, y2, z2)
    requires (x1, y1, z1) != (x2, y2, z2)
    ensures LocalIndex(x1, y1, z1) != LocalIndex(x2, y2, z2)
  {
    if LocalIndex(x1, y1, z1) == LocalIndex(x2, y2, z2) {
      LocalIndexIsFlatten(x1, y1, z1);
      LocalIndexIsFlatten(x2, y2, z2);
      FlattenInjective(x1, y1, z1, x2, y2, z2, CHUNK_DIMENSIONS, CHUNK_DIMENSIONS);
    }
  }

  datatype Chunk = Chunk(structureX: nat, structureY: nat, structureZ: nat,
                         blocks: seq<BlockId>, rotations: seq<BlockFace>)
  {
    predicate Valid()
    {
      |blocks| == CHUNK_VOLUME && |rotations| == CHUNK_VOLUME
    }

    function BlockAt(x: nat, y: nat, z: nat): BlockId
      requires Valid() && InChunk(x, y, z)
    {
      blocks[LocalIndex(x, y, z)]
    }

    function RotationAt(x: nat, y: nat, z: nat): BlockFace
      requires Valid() && InChunk(x, y, z)
    {
      rotations[LocalIndex(x, y, z)]
    }

    predicate HasBlockAt(x: nat, y: nat, z: nat)
      requires Valid() && InChunk(x, y, z)
    {
      BlockAt(x, y, z) != AIR_BLOCK_ID
    }

    /** A chunk that holds nothing but air. */
    predicate IsEmpty()
    {
      forall i :: 0 <= i < |blocks| ==> blocks[i] == AIR_BLOCK_ID
    }

    /** Writes one voxel: its block and its "up" face. */
    function SetBlockAt(x: nat, y: nat, z: nat, block: BlockId, up: BlockFace): (c: Chunk)
      requires Valid() && InChunk(x, y, z)
      ensures c.Valid()
      ensures c.structureX == structureX && c.structureY == structureY && c.structureZ == structureZ
      ensures c.BlockAt(x, y, z) == block && c.RotationAt(x, y, z) == up
    {
      var i := LocalIndex(x, y, z);
      this.(blocks := blocks[i := block], rotations := rotations[i := up])
    }

    /** Writing one voxel leaves every other voxel as it was. */
    lemma SetBlockAtLeavesOthers(x: nat, y: nat, z: nat, block: BlockId, up: BlockFace, x': nat, y': nat, z': nat)
      requires Valid() && InChunk(x, y, z) && InChunk(x', y', z') && (x', y', z') != (x, y, z)
      ensures SetBlockAt(x, y, z, block, up).BlockAt(x', y', z') == BlockAt(x', y', z')
      ensures SetBlockAt(x, y, z, block, up).RotationAt(x', y', z') == RotationAt(x', y', z')
    {
      LocalIndexInjective(x', y', z', x, y, z);
    }
  }

  /** A freshly created chunk at structure coordinates (x, y, z): all air. */
  function NewChunk(x: nat, y: nat, z: nat): (c: Chunk)
    ensures c.Valid() && c.IsEmpty()
    ensures c.structureX == x && c.structureY == y && c.structureZ == z
  {
    Chunk(x, y, z, seq(CHUNK_VOLUME, _ => AIR_BLOCK_ID), seq(CHUNK_VOLUME, _ => Top))
  }
}
